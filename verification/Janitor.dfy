/**
  The janitor is observationally invisible: take every sweep out of a run, and what is left is a
  run under the same rule, with the identical outbox.
 */
module Janitor {
  import opened Types
  import opened Protocol

  /** What a sweep can have done to a row by instant `now`. */
  predicate RowLike(swept: Row, row: Row, now: Millis) {
    swept == row || (row.status == Pending && row.expiresAt <= now && swept == row.(status := Expired))
  }

  predicate PcLike(swept: Pc, pc: Pc, now: Millis) {
    || swept == pc
    || (swept.Checking? && pc.Checking? && RowLike(swept.row, pc.row, now))
    || (swept.Rechecking? && pc.Rechecking? && swept.winner == pc.winner && swept.since == pc.since
        && RowLike(swept.row, pc.row, now))
  }

  predicate ThreadLike(swept: Thread, th: Thread, now: Millis) {
    swept.device == th.device && swept.otp == th.otp && PcLike(swept.pc, th.pc, now)
  }

  ghost predicate RowsLike(swept: map<OtpId, Row>, rows: map<OtpId, Row>, now: Millis) {
    && (forall x :: x in swept <==> x in rows)
    && forall x | x in swept :: RowLike(swept[x], rows[x], now)
  }

  ghost predicate ThreadsLike(swept: map<Tid, Thread>, threads: map<Tid, Thread>, now: Millis) {
    && (forall t :: t in swept <==> t in threads)
    && forall t | t in swept :: ThreadLike(swept[t], threads[t], now)
  }

  /** `a` has been swept where `b` may not have been; everything else agrees. */
  ghost predicate Alike(a: State, b: State) {
    && a == b.(rows := a.rows, threads := a.threads)
    && RowsLike(a.rows, b.rows, a.now)
    && ThreadsLike(a.threads, b.threads, a.now)
  }

  // ---- One event -----------------------------------------------------------------

  lemma SweepAlike(c: Config, a: State, b: State)
    requires Alike(a, b)
    ensures Alike(Next(c, a, Sweep), b)
  {
  }

  lemma PcAlike(a: State, b: State, t: Tid, ok: bool)
    requires Alike(a, b) && t in a.threads
    requires Runnable(a.threads[t].pc) && !(a.threads[t].pc.Locking? || a.threads[t].pc.Fired?)
    ensures PcLike(NextPc(a, t, a.threads[t], ok), NextPc(b, t, b.threads[t], ok), a.now)
  {
    assert ThreadLike(a.threads[t], b.threads[t], a.now);
  }

  lemma WritesAlike(a: State, b: State, t: Tid, ok: bool)
    requires Alike(a, b) && t in a.threads
    ensures RowsLike(NextRows(a.rows, a.threads[t], ok), NextRows(b.rows, b.threads[t], ok), a.now)
    ensures NextOutbox(a.outbox, a.threads[t].pc) == NextOutbox(b.outbox, b.threads[t].pc)
  {
    assert ThreadLike(a.threads[t], b.threads[t], a.now);
  }

  lemma LocalAlike(a: State, b: State, t: Tid, ok: bool)
    requires Alike(a, b) && t in a.threads
    requires Runnable(a.threads[t].pc) && !(a.threads[t].pc.Locking? || a.threads[t].pc.Fired?)
    ensures Alike(LocalStep(a, t, a.threads[t], ok), LocalStep(b, t, b.threads[t], ok))
  {
    PcAlike(a, b, t, ok);
    WritesAlike(a, b, t, ok);
  }

  lemma OpenAlike(a: State, b: State, h: CallId, th: Thread)
    requires Alike(a, b) && th.pc.Locking?
    ensures Alike(OpenWindow(a, h, th, th.pc.row, th.pc.liveAt), OpenWindow(b, h, th, th.pc.row, th.pc.liveAt))
  {
  }

  lemma StopAlike(swept: map<Tid, Thread>, threads: map<Tid, Thread>, now: Millis, w: CallId)
    requires ThreadsLike(swept, threads, now)
    ensures ThreadsLike(StopTimer(swept, w), StopTimer(threads, w), now)
  {
    if TimerOf(w) in swept {
      assert ThreadLike(swept[TimerOf(w)], threads[TimerOf(w)], now);
    }
  }

  lemma KillAlike(a: State, b: State, h: CallId, th: Thread)
    requires Alike(a, b) && th.otp in a.pending
    ensures Alike(KillWindow(a, h, th), KillWindow(b, h, th))
  {
    StopAlike(a.threads, b.threads, a.now, a.pending[th.otp].window);
  }

  lemma ClaimAlike(a: State, b: State, h: CallId)
    requires Alike(a, b) && CallOf(h) in a.threads && a.threads[CallOf(h)].pc.Locking?
    ensures Alike(ClaimLocked(a, h, a.threads[CallOf(h)]), ClaimLocked(b, h, b.threads[CallOf(h)]))
  {
    var th := a.threads[CallOf(h)];
    assert ThreadLike(th, b.threads[CallOf(h)], a.now);
    if th.otp in a.pending {
      KillAlike(a, b, h, th);
    } else {
      OpenAlike(a, b, h, th);
    }
  }

  lemma ResolveAlike(a: State, b: State, w: CallId)
    requires Alike(a, b) && TimerOf(w) in a.threads && a.threads[TimerOf(w)].pc.Fired?
    ensures Alike(ResolveLocked(a, w, a.threads[TimerOf(w)]), ResolveLocked(b, w, b.threads[TimerOf(w)]))
  {
    assert ThreadLike(a.threads[TimerOf(w)], b.threads[TimerOf(w)], a.now);
  }

  lemma NextAlike(c: Config, a: State, b: State, e: Event)
    requires Alike(a, b) && Enabled(c, a, e) && Enabled(c, b, e) && !e.Sweep?
    ensures Alike(Next(c, a, e), Next(c, b, e))
  {
    if e.Step? {
      var t := e.tid;
      assert ThreadLike(a.threads[t], b.threads[t], a.now);
      if t.CallOf? && a.threads[t].pc.Locking? {
        ClaimAlike(a, b, t.call);
      } else if t.TimerOf? && a.threads[t].pc.Fired? {
        ResolveAlike(a, b, t.window);
      } else if Runnable(a.threads[t].pc) && !(a.threads[t].pc.Locking? || a.threads[t].pc.Fired?) {
        LocalAlike(a, b, t, e.ok);
      }
    } else {
      OutsideAlike(c, a, b, e);
    }
  }

  lemma OutsideAlike(c: Config, a: State, b: State, e: Event)
    requires Alike(a, b) && Enabled(c, a, e) && Enabled(c, b, e) && !e.Sweep? && !e.Step?
    ensures Alike(Next(c, a, e), Next(c, b, e))
  {
    match e
    case Tick(to) => TickAlike(a, b, to);
    case Ingest(_, _, _, _) => IngestAlike(c, a, b, e);
    case Claim(h, device, otp) => PutAlike(a, b, CallOf(h), Thread(device, otp, Begin), Thread(device, otp, Begin));
    case Fire(w) =>
      assert ThreadLike(a.threads[TimerOf(w)], b.threads[TimerOf(w)], a.now);
      PutAlike(a, b, TimerOf(w), a.threads[TimerOf(w)].(pc := Fired), b.threads[TimerOf(w)].(pc := Fired));
  }

  lemma TickAlike(a: State, b: State, to: Millis)
    requires Alike(a, b) && a.now <= to
    ensures Alike(a.(now := to), b.(now := to))
  {
    assert forall t | t in a.threads :: ThreadLike(a.threads[t], b.threads[t], a.now);
  }

  lemma IngestAlike(c: Config, a: State, b: State, e: Event)
    requires Alike(a, b) && e.Ingest?
    ensures Alike(Next(c, a, e), Next(c, b, e))
  {
  }

  lemma PutAlike(a: State, b: State, t: Tid, swept: Thread, th: Thread)
    requires Alike(a, b) && ThreadLike(swept, th, a.now)
    ensures Alike(a.(threads := a.threads[t := swept]), b.(threads := b.threads[t := th]))
  {
  }

  lemma RuleAlike(c: Config, a: State, b: State, e: Event)
    requires Alike(a, b)
    ensures Punctual(c, a, e) ==> Punctual(c, b, e)
    ensures Exclusive(a, e) ==> Exclusive(b, e)
  {
    forall t | t in b.threads ensures t in a.threads && ThreadLike(a.threads[t], b.threads[t], a.now) {
    }
  }

  lemma AllowedAlike(c: Config, rule: Rule, a: State, b: State, e: Event)
    requires Alike(a, b) && Allowed(c, rule, a, e)
    ensures Allowed(c, rule, b, e)
  {
    RuleAlike(c, a, b, e);
    match e
    case Step(t, _) => assert ThreadLike(a.threads[t], b.threads[t], a.now);
    case Fire(w) => assert ThreadLike(a.threads[TimerOf(w)], b.threads[TimerOf(w)], a.now);
    case _ =>
  }

  // ---- Whole runs ------------------------------------------------------------------

  function NoSweeps(es: seq<Event>): seq<Event> {
    if es == [] then []
    else if es[0].Sweep? then NoSweeps(es[1..])
    else [es[0]] + NoSweeps(es[1..])
  }

  lemma {:induction false} RunAlike(c: Config, rule: Rule, a: State, b: State, es: seq<Event>)
    requires Alike(a, b) && IsRun(c, rule, a, es)
    ensures IsRun(c, rule, b, NoSweeps(es))
    ensures Alike(Final(c, a, es), Final(c, b, NoSweeps(es)))
    decreases es
  {
    if es != [] {
      var e := es[0];
      if e.Sweep? {
        SweepAlike(c, a, b);
        RunAlike(c, rule, Next(c, a, e), b, es[1..]);
      } else {
        AllowedAlike(c, rule, a, b, e);
        NextAlike(c, a, b, e);
        RunAlike(c, rule, Next(c, a, e), Next(c, b, e), es[1..]);
        assert NoSweeps(es)[1..] == NoSweeps(es[1..]);
      }
    }
  }

  /** From any state and under any rule, deleting the sweeps leaves a run with the same outbox,
      the same windows, and a table that differs at most by rows swept to `expired`. */
  lemma JanitorInvisible(c: Config, rule: Rule, s: State, es: seq<Event>)
    requires IsRun(c, rule, s, es)
    ensures IsRun(c, rule, s, NoSweeps(es))
    ensures Final(c, s, NoSweeps(es)).outbox == Final(c, s, es).outbox
    ensures Final(c, s, NoSweeps(es)).windows == Final(c, s, es).windows
    ensures RowsLike(Final(c, s, es).rows, Final(c, s, NoSweeps(es)).rows, Final(c, s, es).now)
  {
    RunAlike(c, rule, s, s, es);
  }
}
