/**
  Progress: without new claims, every handler step and timer firing spends work that is never
  replenished, and when the work is spent nothing is pending and every claim has its answer.
 */
module Progress {
  import opened Types
  import opened Protocol
  import opened Lifecycle
  import opened Accounting

  /** An upper bound on the steps a thread at `pc`, and the timer it may arm, can still take. */
  function Weight(pc: Pc): nat {
    match pc
    case Begin => 9
    case Checking(_) => 8
    case Locking(_, _) => 7
    case Armed => 6
    case Fired => 5
    case Reloading(_, _) => 4
    case Rechecking(_, _, _) => 3
    case Marking(_, _, _, _) => 2
    case Invalidating(claimants, _) => 1 + |claimants|
    case Sending(mail) => |mail|
    case _ => 0
  }

  ghost function Work(threads: map<Tid, Thread>): nat
    decreases |threads|
  {
    if threads == map[] then 0
    else
      var t :| t in threads;
      Weight(threads[t].pc) + Work(threads - {t})
  }

  lemma {:induction false} WorkSplit(threads: map<Tid, Thread>, t: Tid)
    requires t in threads
    ensures Work(threads) == Weight(threads[t].pc) + Work(threads - {t})
    decreases |threads|
  {
    var u :| u in threads && Work(threads) == Weight(threads[u].pc) + Work(threads - {u});
    if u != t {
      WorkSplit(threads - {u}, t);
      WorkSplit(threads - {t}, u);
      assert threads - {u} - {t} == threads - {t} - {u};
    }
  }

  lemma WorkPut(threads: map<Tid, Thread>, t: Tid, th: Thread)
    ensures Work(threads[t := th]) + (if t in threads then Weight(threads[t].pc) else 0)
              == Work(threads) + Weight(th.pc)
  {
    var threads' := threads[t := th];
    WorkSplit(threads', t);
    assert threads' - {t} == threads - {t};
    if t in threads {
      WorkSplit(threads, t);
    } else {
      assert threads - {t} == threads;
    }
  }

  lemma {:induction false} WorkSpent(threads: map<Tid, Thread>)
    ensures Work(threads) == 0 <==> forall t | t in threads :: Weight(threads[t].pc) == 0
    decreases |threads|
  {
    if threads != map[] {
      var t :| t in threads;
      WorkSplit(threads, t);
      WorkSpent(threads - {t});
      assert forall u | u in threads :: u == t || u in threads - {t};
    }
  }

  /** A handler step or a timer firing, as opposed to the clock, the janitor and the outside world. */
  predicate Moves(e: Event) {
    e.Step? || e.Fire?
  }

  lemma LocalSpends(s: State, t: Tid, ok: bool)
    requires t in s.threads && ThreadOk(s, t) && Local(s.threads[t].pc)
    ensures Weight(NextPc(s, t, s.threads[t], ok)) < Weight(s.threads[t].pc)
  {
  }

  lemma OpenSpends(s: State, h: CallId)
    requires WellFormed(s) && CallOf(h) in s.threads && s.threads[CallOf(h)].pc.Locking?
    ensures var th := s.threads[CallOf(h)];
            Work(OpenWindow(s, h, th, th.pc.row, th.pc.liveAt).threads) < Work(s.threads)
  {
    var th := s.threads[CallOf(h)];
    assert ThreadOk(s, CallOf(h)) && (TimerOf(h) in s.threads ==> ThreadOk(s, TimerOf(h)));
    WorkPut(s.threads, CallOf(h), th.(pc := Opened));
    WorkPut(s.threads[CallOf(h) := th.(pc := Opened)], TimerOf(h), th.(pc := Armed));
  }

  lemma KillSpends(s: State, h: CallId)
    requires WellFormed(s) && CallOf(h) in s.threads && s.threads[CallOf(h)].pc.Locking?
    requires s.threads[CallOf(h)].otp in s.pending
    ensures Work(KillWindow(s, h, s.threads[CallOf(h)]).threads) < Work(s.threads)
  {
    var th := s.threads[CallOf(h)];
    var entry := s.pending[th.otp];
    var w := entry.window;
    assert EntryOk(s, th.otp) && WindowOk(s, w);
    WorkPut(s.threads, TimerOf(w), s.threads[TimerOf(w)].(pc := Stopped));
    WorkPut(StopTimer(s.threads, w), CallOf(h), th.(pc := Invalidating(entry.claimants + [Claimant(th.device, h)], s.now)));
  }

  lemma StepSpends(s: State, t: Tid, ok: bool)
    requires WellFormed(s) && t in s.threads && Runnable(s.threads[t].pc)
    ensures Work(StepThread(s, t, ok).threads) < Work(s.threads)
  {
    var th := s.threads[t];
    assert ThreadOk(s, t);
    if th.pc.Locking? {
      if th.otp !in s.pending {
        OpenSpends(s, t.call);
      } else if HasClaimed(s.pending[th.otp].claimants, th.device) {
        WorkPut(s.threads, t, th.(pc := Repeated));
      } else {
        KillSpends(s, t.call);
      }
    } else if th.pc.Fired? {
      assert th.otp in s.pending ==> EntryOk(s, th.otp);
      WorkPut(s.threads, t, ResolveLocked(s, t.window, th).threads[t]);
    } else {
      LocalSpends(s, t, ok);
      WorkPut(s.threads, t, th.(pc := NextPc(s, t, th, ok)));
    }
  }

  lemma NextSpends(c: Config, s: State, e: Event)
    requires WellFormed(s) && Enabled(c, s, e) && !e.Claim?
    ensures Work(Next(c, s, e).threads) + One(Moves(e)) <= Work(s.threads)
  {
    if e.Step? {
      StepSpends(s, e.tid, e.ok);
    } else if e.Fire? {
      WorkPut(s.threads, TimerOf(e.window), s.threads[TimerOf(e.window)].(pc := Fired));
    }
  }

  predicate NoClaims(es: seq<Event>) {
    forall i :: 0 <= i < |es| ==> !es[i].Claim?
  }

  function MovesIn(es: seq<Event>): nat {
    if es == [] then 0 else (if Moves(es[0]) then 1 else 0) + MovesIn(es[1..])
  }

  /** A run without new claims takes no more steps and firings than the work it starts with. */
  lemma {:induction false} RunsAreBounded(c: Config, rule: Rule, s: State, es: seq<Event>)
    requires WellFormed(s) && IsRun(c, rule, s, es) && NoClaims(es)
    ensures MovesIn(es) + Work(Final(c, s, es).threads) <= Work(s.threads)
    decreases es
  {
    if es != [] {
      NextSpends(c, s, es[0]);
      StepKeeps(c, s, es[0]);
      RunsAreBounded(c, rule, Next(c, s, es[0]), es[1..]);
    }
  }

  // ---- Stopping ---------------------------------------------------------------------

  /** No handler has a step left and no timer is left to fire. */
  ghost predicate Settled(s: State) {
    forall t | t in s.threads :: !Runnable(s.threads[t].pc) && !s.threads[t].pc.Armed?
  }

  lemma SettledIsSpent(s: State)
    requires WellFormed(s)
    ensures Settled(s) <==> Work(s.threads) == 0
  {
    WorkSpent(s.threads);
    forall t | t in s.threads
      ensures Weight(s.threads[t].pc) == 0 <==> !Runnable(s.threads[t].pc) && !s.threads[t].pc.Armed?
    {
      assert ThreadOk(s, t);
    }
  }

  lemma PendingIsOpen(s: State, x: OtpId)
    requires WellFormed(s)
    ensures x in s.pending ==> s.pending[x].window in s.windows && s.windows[s.pending[x].window].end.StillOpen?
  {
    if x in s.pending {
      assert EntryOk(s, x);
    }
  }

  lemma SettledIsEmpty(s: State)
    requires WellFormed(s) && Settled(s)
    ensures s.pending == map[]
    ensures forall w | w in s.windows :: !s.windows[w].end.StillOpen?
  {
    forall w | w in s.windows ensures !s.windows[w].end.StillOpen? { assert WindowOk(s, w); }
    forall x ensures x !in s.pending { PendingIsOpen(s, x); }
  }

  /** Unless all is settled, some handler can step now, or some timer can fire once the clock has
      reached it, and the deadlines of the Timed rule do not stand in the way. */
  lemma CanMove(c: Config, s: State) returns (es: seq<Event>)
    requires WellFormed(s) && !Settled(s)
    ensures NoClaims(es) && IsRun(c, Timed, s, es) && MovesIn(es) == 1
  {
    if t :| t in s.threads && Runnable(s.threads[t].pc) {
      es := [Step(t, true)];
    } else {
      var t :| t in s.threads && s.threads[t].pc.Armed?;
      assert ThreadOk(s, t);
      var w := t.window;
      var due := s.windows[w].openedAt + c.window;
      var to := if s.now < due then due else s.now;
      es := [Tick(to), Fire(w)];
      assert es[1..] == [Fire(w)];
      assert IsRun(c, Timed, Next(c, s, Tick(to)), [Fire(w)]);
      assert MovesIn([Fire(w)]) == 1;
    }
  }

  /** From every state, finitely many events without a new claim settle everything. */
  lemma {:induction false} AlwaysSettles(c: Config, s: State) returns (es: seq<Event>)
    requires WellFormed(s)
    ensures NoClaims(es) && IsRun(c, Timed, s, es) && Settled(Final(c, s, es))
    decreases Work(s.threads)
  {
    if Settled(s) {
      es := [];
    } else {
      var head := CanMove(c, s);
      RunsAreBounded(c, Timed, s, head);
      KeptByRuns(c, Timed, s, head);
      var tail := AlwaysSettles(c, Final(c, s, head));
      RunsAppend(c, Timed, s, head, tail);
      es := head + tail;
    }
  }

  lemma {:induction false} KeptByRuns(c: Config, rule: Rule, s: State, es: seq<Event>)
    requires WellFormed(s) && IsRun(c, rule, s, es)
    ensures WellFormed(Final(c, s, es))
    decreases es
  {
    if es != [] {
      StepKeeps(c, s, es[0]);
      KeptByRuns(c, rule, Next(c, s, es[0]), es[1..]);
    }
  }

  /** A run that has stopped leaves nothing pending and nothing owed, and has sent exactly one
      answer to every claim but the same-device repeats, which got none. */
  lemma StoppedRunsAnsweredAll(c: Config, s: State, es: seq<Event>)
    requires Initial(s) && IsRun(c, Free, s, es) && Settled(Final(c, s, es))
    ensures var s' := Final(c, s, es);
            && s'.pending == map[]
            && (forall t | t in s'.threads :: !OwesWrite(s'.threads[t].pc) && !s'.threads[t].pc.Sending?)
            && forall h | CallOf(h) in s'.threads ::
                 Count(s'.outbox, h) == if s'.threads[CallOf(h)].pc.Repeated? then 0 else 1
  {
    RunAccounted(c, Free, s, es);
    var s' := Final(c, s, es);
    SettledIsEmpty(s');
    forall h | CallOf(h) in s'.threads
      ensures Count(s'.outbox, h) == if s'.threads[CallOf(h)].pc.Repeated? then 0 else 1
    {
      ExactlyOneAnswer(c, s, es, h);
    }
  }

  /** Without new claims, a run that has taken as many steps and firings as it had work left has
      settled, in whatever order and under whatever rule it took them. */
  lemma SpentIsSettled(c: Config, rule: Rule, s: State, es: seq<Event>)
    requires WellFormed(s) && IsRun(c, rule, s, es) && NoClaims(es) && Work(s.threads) <= MovesIn(es)
    ensures Settled(Final(c, s, es)) && MovesIn(es) == Work(s.threads)
  {
    RunsAreBounded(c, rule, s, es);
    KeptByRuns(c, rule, s, es);
    SettledIsSpent(Final(c, s, es));
  }

  /** So from any point of any run, however the scheduler goes on, that many steps later nothing is
      pending and every claim but the same-device repeats has its one answer. */
  lemma SpentRunsAnsweredAll(c: Config, rule: Rule, s: State, es: seq<Event>, es': seq<Event>)
    requires Initial(s) && IsRun(c, rule, s, es)
    requires IsRun(c, rule, Final(c, s, es), es') && NoClaims(es') && Work(Final(c, s, es).threads) <= MovesIn(es')
    ensures var s' := Final(c, Final(c, s, es), es');
            && s'.pending == map[]
            && forall h | CallOf(h) in s'.threads ::
                 Count(s'.outbox, h) == if s'.threads[CallOf(h)].pc.Repeated? then 0 else 1
  {
    KeptByRuns(c, rule, s, es);
    SpentIsSettled(c, rule, Final(c, s, es), es');
    RunsAppend(c, rule, s, es, es');
    RunsAreFree(c, rule, s, es + es');
    StoppedRunsAnsweredAll(c, s, es + es');
  }
}
