/**
  At most one payload per OTP.  One invariant serves both scheduling rules: with `strict` (the
  Atomic rule) only the first window of an OTP can be delivered, and only by its own timer;
  without it (the Timed rule) only the timer of the first window can deliver, though it may
  have picked up a later window.
 */
module Delivery {
  import opened Types
  import opened Tables
  import opened Protocol
  import opened Lifecycle
  import opened Provenance

  ghost predicate RowDead(s: State, x: OtpId) {
    x in s.rows && Dead(s.rows[x], s.now)
  }

  /** The only thread, and under `strict` the only window, which may deliver `x`. */
  ghost predicate Chosen(s: State, x: OtpId, strict: bool, t: Tid, w: CallId) {
    && x in s.first
    && t == TimerOf(s.first[x])
    && (strict ==> w == s.first[x])
  }

  function Ender(end: Ending): Tid
    requires !end.StillOpen?
  {
    if end.Taken? then TimerOf(end.timer) else CallOf(end.call)
  }

  ghost predicate Owing(s: State, x: OtpId, t: Tid, since: Millis) {
    t in s.threads && s.threads[t].otp == x && OwesWrite(s.threads[t].pc) && s.threads[t].pc.since == since
  }

  /** Once the first window has ended, the row is dead, or the thread that ended the window still
      owes the write; every later window opened after that end. */
  ghost predicate FirstEnded(s: State, x: OtpId)
    requires x in s.first && s.first[x] in s.windows
  {
    var f := s.windows[s.first[x]];
    && !f.end.StillOpen?
    && f.end.at <= s.now
    && (f.end.Taken? ==> f.end.timer == s.first[x])
    && (RowDead(s, x) || Owing(s, x, Ender(f.end), f.end.at))
  }

  ghost predicate FirstOk(s: State, x: OtpId) {
    if x !in s.first then forall w | w in s.windows :: s.windows[w].otp != x
    else
      && s.first[x] in s.windows
      && s.windows[s.first[x]].otp == x
      && (s.windows[s.first[x]].end.StillOpen? || FirstEnded(s, x))
      && forall w | w in s.windows && s.windows[w].otp == x && w != s.first[x] ::
           !s.windows[s.first[x]].end.StillOpen? && s.windows[s.first[x]].end.at <= s.windows[w].openedAt
  }

  ghost predicate PayloadChosen(s: State, x: OtpId, strict: bool, m: Sent) {
    m.env.otp == x && m.env.body.Payload? ==> Chosen(s, x, strict, m.sender, m.call)
  }

  ghost predicate PcSafe(s: State, x: OtpId, strict: bool, t: Tid, th: Thread) {
    th.otp == x ==>
      && (th.pc.Reloading? ==> Chosen(s, x, strict, t, th.pc.winner.call) || RowDead(s, x))
      && (th.pc.Rechecking? ==> Chosen(s, x, strict, t, th.pc.winner.call) || Dead(th.pc.row, s.now))
      && (th.pc.Marking? ==> Chosen(s, x, strict, t, th.pc.winner.call))
      && (th.pc.Sending? ==> forall i :: 0 <= i < |th.pc.mail| ==> PayloadChosen(s, x, strict, th.pc.mail[i]))
  }

  predicate IsPayload(m: Sent, x: OtpId) {
    m.env.otp == x && m.env.body.Payload?
  }

  ghost predicate OutboxSafe(s: State, x: OtpId, strict: bool) {
    && (forall i | 0 <= i < |s.outbox| && IsPayload(s.outbox[i], x) ::
          && Chosen(s, x, strict, s.outbox[i].sender, s.outbox[i].call)
          && s.outbox[i].sender in s.threads && s.threads[s.outbox[i].sender].pc.Done?)
    && (forall i, j | 0 <= i < j < |s.outbox| :: !(IsPayload(s.outbox[i], x) && IsPayload(s.outbox[j], x)))
  }

  ghost predicate ThreadsSafe(s: State, x: OtpId, strict: bool) {
    forall t {:trigger PcSafe(s, x, strict, t, s.threads[t])} | t in s.threads :: PcSafe(s, x, strict, t, s.threads[t])
  }

  ghost predicate Safe(s: State, x: OtpId, strict: bool) {
    FirstOk(s, x) && ThreadsSafe(s, x, strict) && OutboxSafe(s, x, strict)
  }

  /** What each rule has to supply: a callback about to take a window it must not deliver finds
      the row dead. */
  ghost predicate TakesDead(s: State, x: OtpId, strict: bool, e: Event) {
    (&& e.Step? && e.tid.TimerOf? && e.tid in s.threads
     && s.threads[e.tid].pc.Fired? && s.threads[e.tid].otp == x
     && x in s.pending && !Chosen(s, x, strict, e.tid, s.pending[x].window))
    ==> RowDead(s, x)
  }

  // ---- Frame ------------------------------------------------------------------

  lemma PcSafeStays(s: State, s': State, x: OtpId, strict: bool, t: Tid, th: Thread)
    requires Evolves(s, s') && PcSafe(s, x, strict, t, th)
    ensures PcSafe(s', x, strict, t, th)
  {
  }

  lemma FirstWindowRow(c: Config, s: State, x: OtpId)
    requires Sound(c, s) && FirstOk(s, x) && x in s.first
    ensures x in s.rows
  {
    assert WindowGrounded(s, s.first[x]);
  }

  // ---- First window -------------------------------------------------------------

  lemma FirstLocal(c: Config, s: State, s': State, x: OtpId, t: Tid)
    requires Sound(c, s) && FirstOk(s, x) && t in s.threads && Local(s.threads[t].pc)
    requires s' == LocalStep(s, t, s.threads[t], true) && Evolves(s, s')
    ensures FirstOk(s', x)
  {
    assert ThreadOk(s, t) && PcGrounded(c, s, t, s.threads[t]);
    if x in s.first {
      FirstWindowRow(c, s, x);
    }
  }

  lemma FirstOpen(c: Config, s: State, s': State, x: OtpId, h: CallId)
    requires Sound(c, s) && FirstOk(s, x) && CallOf(h) in s.threads && s.threads[CallOf(h)].pc.Locking?
    requires s.threads[CallOf(h)].otp !in s.pending
    requires s' == ClaimLocked(s, h, s.threads[CallOf(h)]) && Evolves(s, s')
    ensures FirstOk(s', x)
  {
    assert ThreadOk(s, CallOf(h));
    if x in s.first {
      assert WindowOk(s, s.first[x]);
    }
  }

  lemma FirstKill(c: Config, s: State, s': State, x: OtpId, h: CallId)
    requires Sound(c, s) && FirstOk(s, x) && CallOf(h) in s.threads && s.threads[CallOf(h)].pc.Locking?
    requires s.threads[CallOf(h)].otp in s.pending
    requires s' == ClaimLocked(s, h, s.threads[CallOf(h)]) && Evolves(s, s')
    ensures FirstOk(s', x)
  {
    assert EntryOk(s, s.threads[CallOf(h)].otp);
  }

  lemma FirstTake(c: Config, s: State, s': State, x: OtpId, w: CallId)
    requires Sound(c, s) && FirstOk(s, x) && TimerOf(w) in s.threads && s.threads[TimerOf(w)].pc.Fired?
    requires s' == ResolveLocked(s, w, s.threads[TimerOf(w)]) && Evolves(s, s')
    ensures FirstOk(s', x)
  {
    assert ThreadOk(s, TimerOf(w));
    assert s.threads[TimerOf(w)].otp in s.pending ==> EntryOk(s, s.threads[TimerOf(w)].otp);
  }

  lemma FirstStep(c: Config, s: State, s': State, x: OtpId, t: Tid)
    requires Sound(c, s) && FirstOk(s, x) && t in s.threads && Runnable(s.threads[t].pc)
    requires s' == StepThread(s, t, true) && Evolves(s, s')
    ensures FirstOk(s', x)
  {
    assert ThreadOk(s, t);
    if s.threads[t].pc.Locking? {
      if s.threads[t].otp in s.pending {
        FirstKill(c, s, s', x, t.call);
      } else {
        FirstOpen(c, s, s', x, t.call);
      }
    } else if s.threads[t].pc.Fired? {
      FirstTake(c, s, s', x, t.window);
    } else {
      FirstLocal(c, s, s', x, t);
    }
  }

  // ---- Threads --------------------------------------------------------------------

  lemma ThreadLocal(c: Config, s: State, s': State, x: OtpId, strict: bool, t: Tid)
    requires Sound(c, s) && FirstOk(s, x) && t in s.threads && Local(s.threads[t].pc)
    requires PcSafe(s, x, strict, t, s.threads[t])
    requires s' == LocalStep(s, t, s.threads[t], true) && Evolves(s, s')
    ensures PcSafe(s', x, strict, t, s'.threads[t])
  {
    assert ThreadOk(s, t);
    PcSafeStays(s, s', x, strict, t, s.threads[t]);
  }

  lemma ThreadTake(c: Config, s: State, s': State, x: OtpId, strict: bool, w: CallId)
    requires Sound(c, s) && TimerOf(w) in s.threads && s.threads[TimerOf(w)].pc.Fired?
    requires TakesDead(s, x, strict, Step(TimerOf(w), true))
    requires s' == ResolveLocked(s, w, s.threads[TimerOf(w)]) && Evolves(s, s')
    ensures PcSafe(s', x, strict, TimerOf(w), s'.threads[TimerOf(w)])
  {
    assert s.threads[TimerOf(w)].otp in s.pending ==> EntryOk(s, s.threads[TimerOf(w)].otp);
  }

  lemma ThreadStep(c: Config, s: State, s': State, x: OtpId, strict: bool, t: Tid)
    requires Sound(c, s) && FirstOk(s, x) && t in s.threads && Runnable(s.threads[t].pc)
    requires PcSafe(s, x, strict, t, s.threads[t]) && TakesDead(s, x, strict, Step(t, true))
    requires s' == StepThread(s, t, true) && Evolves(s, s')
    ensures t in s'.threads && PcSafe(s', x, strict, t, s'.threads[t])
  {
    assert ThreadOk(s, t);
    if s.threads[t].pc.Fired? {
      ThreadTake(c, s, s', x, strict, t.window);
    } else if Local(s.threads[t].pc) {
      ThreadLocal(c, s, s', x, strict, t);
    }
  }

  lemma OtherThread(s: State, s': State, x: OtpId, strict: bool, t: Tid, u: Tid)
    requires WellFormed(s) && ThreadsSafe(s, x, strict) && t in s.threads && Runnable(s.threads[t].pc)
    requires s' == StepThread(s, t, true) && Evolves(s, s')
    requires u in s'.threads && u != t
    ensures PcSafe(s', x, strict, u, s'.threads[u])
  {
    if u in s.threads {
      assert PcSafe(s, x, strict, u, s.threads[u]);
      PcSafeStays(s, s', x, strict, u, s.threads[u]);
    }
  }

  // ---- Outbox -----------------------------------------------------------------------

  lemma OutboxSend(c: Config, s: State, s': State, x: OtpId, strict: bool, t: Tid)
    requires Sound(c, s) && Safe(s, x, strict) && t in s.threads && s.threads[t].pc.Sending?
    requires s' == LocalStep(s, t, s.threads[t], true)
    ensures OutboxSafe(s', x, strict)
  {
    assert ThreadOk(s, t) && PcSafe(s, x, strict, t, s.threads[t]);
    var m := s.threads[t].pc.mail[0];
    assert s'.outbox == s.outbox + [m];
    if IsPayload(m, x) {
      assert Chosen(s, x, strict, t, m.call);
      assert forall i | 0 <= i < |s.outbox| :: !IsPayload(s.outbox[i], x);
    }
  }

  lemma OutboxStep(c: Config, s: State, s': State, x: OtpId, strict: bool, t: Tid)
    requires Sound(c, s) && Safe(s, x, strict) && t in s.threads && Runnable(s.threads[t].pc)
    requires s' == StepThread(s, t, true) && Evolves(s, s')
    ensures OutboxSafe(s', x, strict)
  {
    if s.threads[t].pc.Sending? {
      OutboxSend(c, s, s', x, strict, t);
    } else {
      assert s'.outbox == s.outbox;
      forall i | 0 <= i < |s.outbox| && IsPayload(s.outbox[i], x)
        ensures s.outbox[i].sender in s'.threads && s'.threads[s.outbox[i].sender].pc.Done?
      {
        assert ThreadOk(s, t);
      }
    }
  }

  lemma StepSafe(c: Config, s: State, e: Event, x: OtpId, strict: bool)
    requires Sound(c, s) && Safe(s, x, strict) && Enabled(c, s, e)
    requires CallsSucceed(e) && TakesDead(s, x, strict, e)
    ensures Safe(Next(c, s, e), x, strict)
  {
    var s' := Next(c, s, e);
    NextEvolves(c, s, e);
    if e.Step? {
      var t := e.tid;
      FirstStep(c, s, s', x, t);
      OutboxStep(c, s, s', x, strict, t);
      forall u | u in s'.threads ensures PcSafe(s', x, strict, u, s'.threads[u]) {
        if u == t {
          assert PcSafe(s, x, strict, t, s.threads[t]);
          ThreadStep(c, s, s', x, strict, t);
        } else {
          OtherThread(s, s', x, strict, t, u);
        }
      }
    } else {
      SharedSafe(c, s, e, x, strict);
    }
  }

  lemma FirstShared(c: Config, s: State, s': State, e: Event, x: OtpId)
    requires Sound(c, s) && FirstOk(s, x) && Enabled(c, s, e) && !e.Step?
    requires s' == Next(c, s, e) && Evolves(s, s')
    ensures FirstOk(s', x)
  {
    if x in s.first {
      FirstWindowRow(c, s, x);
    }
  }

  lemma SharedSafe(c: Config, s: State, e: Event, x: OtpId, strict: bool)
    requires Sound(c, s) && Safe(s, x, strict) && Enabled(c, s, e) && !e.Step?
    ensures Safe(Next(c, s, e), x, strict)
  {
    var s' := Next(c, s, e);
    NextEvolves(c, s, e);
    FirstShared(c, s, s', e, x);
    forall u | u in s'.threads ensures PcSafe(s', x, strict, u, s'.threads[u]) {
      if u in s.threads {
        assert PcSafe(s, x, strict, u, s.threads[u]);
        PcSafeStays(s, s', x, strict, u, s.threads[u]);
      }
    }
  }

  // ---- The Timed rule -------------------------------------------------------------

  ghost predicate Prompt(c: Config, s: State) {
    forall t | t in s.threads && OwesWrite(s.threads[t].pc) :: s.now <= s.threads[t].pc.since + c.tail
  }

  lemma LocalOwes(s: State, t: Tid)
    requires t in s.threads && Local(s.threads[t].pc)
    ensures var pc := NextPc(s, t, s.threads[t], true);
            OwesWrite(pc) ==> OwesWrite(s.threads[t].pc) && pc.since == s.threads[t].pc.since
  {
  }

  lemma PromptThread(c: Config, s: State, s': State, t: Tid, u: Tid)
    requires c.Valid() && WellFormed(s) && Prompt(c, s) && t in s.threads && Runnable(s.threads[t].pc)
    requires s' == StepThread(s, t, true)
    requires u in s'.threads && OwesWrite(s'.threads[u].pc)
    ensures s'.now <= s'.threads[u].pc.since + c.tail
  {
    assert ThreadOk(s, t);
    if Local(s.threads[t].pc) {
      LocalOwes(s, t);
    } else if u != t {
      assert u in s.threads && s'.threads[u] == s.threads[u];
    }
  }

  lemma PromptStays(c: Config, s: State, e: Event)
    requires c.Valid() && WellFormed(s) && Prompt(c, s) && Allowed(c, Timed, s, e)
    ensures Prompt(c, Next(c, s, e))
  {
    var s' := Next(c, s, e);
    if e.Step? {
      forall t | t in s'.threads && OwesWrite(s'.threads[t].pc) ensures s'.now <= s'.threads[t].pc.since + c.tail {
        PromptThread(c, s, s', e.tid, t);
      }
    }
  }

  /** A timer other than the first was armed after the first window ended, so its callback runs a
      whole window later, by when the write owed for that end has landed. */
  lemma TimedTakesDead(c: Config, s: State, e: Event, x: OtpId)
    requires c.Valid() && Sound(c, s) && FirstOk(s, x) && Prompt(c, s) && Allowed(c, Timed, s, e)
    ensures TakesDead(s, x, false, e)
  {
    if e.Step? && e.tid.TimerOf? && s.threads[e.tid].pc.Fired? && s.threads[e.tid].otp == x && x in s.pending {
      assert ThreadOk(s, e.tid) && PcGrounded(c, s, e.tid, s.threads[e.tid]);
    }
  }

  // ---- The Atomic rule ---------------------------------------------------------------

  lemma AtomicTakesDead(c: Config, s: State, e: Event, x: OtpId)
    requires Sound(c, s) && FirstOk(s, x) && Allowed(c, Atomic, s, e)
    ensures TakesDead(s, x, true, e)
  {
    if e.Step? && e.tid.TimerOf? && s.threads[e.tid].pc.Fired? && s.threads[e.tid].otp == x && x in s.pending {
      assert ThreadOk(s, e.tid) && EntryOk(s, x);
    }
  }

  // ---- Whole runs -----------------------------------------------------------------------

  lemma {:induction false} RunSafe(c: Config, rule: Rule, s: State, es: seq<Event>, x: OtpId)
    requires (rule == Timed || rule == Atomic) && IsRun(c, rule, s, es)
    requires Sound(c, s) && Safe(s, x, rule == Atomic)
    requires rule == Timed ==> c.Valid() && Prompt(c, s)
    ensures Sound(c, Final(c, s, es)) && Safe(Final(c, s, es), x, rule == Atomic)
    decreases es
  {
    if es != [] {
      var e := es[0];
      if rule == Timed {
        TimedTakesDead(c, s, e, x);
        PromptStays(c, s, e);
      } else {
        AtomicTakesDead(c, s, e, x);
      }
      StepSafe(c, s, e, x, rule == Atomic);
      StepKeeps(c, s, e);
      NextGrounded(c, s, e);
      RunSafe(c, rule, Next(c, s, e), es[1..], x);
    }
  }

  function PayloadsOf(outbox: seq<Sent>, x: OtpId): seq<Sent> {
    if outbox == [] then []
    else if IsPayload(outbox[0], x) then [outbox[0]] + PayloadsOf(outbox[1..], x)
    else PayloadsOf(outbox[1..], x)
  }

  lemma {:induction false} FewPayloads(outbox: seq<Sent>, x: OtpId)
    requires forall i, j | 0 <= i < j < |outbox| :: !(IsPayload(outbox[i], x) && IsPayload(outbox[j], x))
    ensures |PayloadsOf(outbox, x)| <= 1
    ensures PayloadsOf(outbox, x) == [] <==> forall i | 0 <= i < |outbox| :: !IsPayload(outbox[i], x)
    ensures forall m | m in PayloadsOf(outbox, x) :: m in outbox && IsPayload(m, x)
  {
    if outbox != [] {
      FewPayloads(outbox[1..], x);
      assert forall i | 0 < i < |outbox| :: outbox[i] == outbox[1..][i - 1];
    }
  }

  /** In every run, at most one payload is ever sent per OTP. */
  lemma AtMostOnePayload(c: Config, s: State, es: seq<Event>, x: OtpId)
    requires c.Valid() && Initial(s) && IsRun(c, Timed, s, es)
    ensures |PayloadsOf(Final(c, s, es).outbox, x)| <= 1
  {
    RunSafe(c, Timed, s, es, x);
    FewPayloads(Final(c, s, es).outbox, x);
  }

  ghost predicate FirstTimerStopped(s: State, x: OtpId) {
    x in s.first && TimerOf(s.first[x]) in s.threads && s.threads[TimerOf(s.first[x])].pc.Stopped?
  }

  lemma {:induction false} StoppedForGood(c: Config, rule: Rule, s: State, es: seq<Event>, x: OtpId)
    requires WellFormed(s) && FirstTimerStopped(s, x) && IsRun(c, rule, s, es)
    ensures FirstTimerStopped(Final(c, s, es), x)
    decreases es
  {
    if es != [] {
      var s1 := Next(c, s, es[0]);
      StepKeeps(c, s, es[0]);
      assert FirstTimerStopped(s1, x) by {
        assert ThreadOk(s, TimerOf(s.first[x]));
        if es[0].Step? {
          assert ThreadOk(s, es[0].tid);
        }
      }
      StoppedForGood(c, rule, s1, es[1..], x);
    }
  }

  /** Once a second claimant has cancelled the first window's timer, no payload of that OTP has
      been sent, and none is sent in any continuation of the run. */
  lemma CancelledNeverDelivers(c: Config, s: State, es: seq<Event>, es': seq<Event>, x: OtpId)
    requires c.Valid() && Initial(s) && IsRun(c, Timed, s, es)
    requires FirstTimerStopped(Final(c, s, es), x)
    requires IsRun(c, Timed, Final(c, s, es), es')
    ensures PayloadsOf(Final(c, Final(c, s, es), es').outbox, x) == []
  {
    RunSafeAndPrompt(c, s, es, x);
    var s1 := Final(c, s, es);
    RunSafe(c, Timed, s1, es', x);
    StoppedForGood(c, Timed, s1, es', x);
    FewPayloads(Final(c, s1, es').outbox, x);
  }

  lemma {:induction false} RunPrompt(c: Config, s: State, es: seq<Event>)
    requires c.Valid() && WellFormed(s) && Prompt(c, s) && IsRun(c, Timed, s, es)
    ensures Prompt(c, Final(c, s, es))
    decreases es
  {
    if es != [] {
      PromptStays(c, s, es[0]);
      StepKeeps(c, s, es[0]);
      RunPrompt(c, Next(c, s, es[0]), es[1..]);
    }
  }

  lemma RunSafeAndPrompt(c: Config, s: State, es: seq<Event>, x: OtpId)
    requires c.Valid() && Initial(s) && IsRun(c, Timed, s, es)
    ensures var s' := Final(c, s, es); Sound(c, s') && Safe(s', x, false) && Prompt(c, s')
  {
    RunSafe(c, Timed, s, es, x);
    RunPrompt(c, s, es);
  }

  /** Under the Atomic rule, with no hypothesis on time: at most one payload is ever sent, it
      answers the claim that opened the first window, it is sent by that window's own timer, and
      the claim and the clock check satisfy  claim + window <= check < expiry. */
  lemma AtomicDelivery(c: Config, s: State, es: seq<Event>, x: OtpId)
    requires Initial(s) && TableOk(c, s) && IsRun(c, Atomic, s, es)
    ensures var s' := Final(c, s, es);
            && |PayloadsOf(s'.outbox, x)| <= 1
            && forall m | m in PayloadsOf(s'.outbox, x) ::
                 && x in s'.first && x in s'.rows && s'.first[x] in s'.windows
                 && m.call == s'.first[x]
                 && m.sender == TimerOf(s'.first[x])
                 && m.env.to == s'.windows[s'.first[x]].opener
                 && s'.windows[s'.first[x]].openedAt + c.window <= m.at < s'.rows[x].createdAt + c.ttl
  {
    RunSafe(c, Atomic, s, es, x);
    RunTable(c, Atomic, s, es);
    var s' := Final(c, s, es);
    FewPayloads(s'.outbox, x);
    forall m | m in PayloadsOf(s'.outbox, x) ensures PayloadOk(c, s', m) && Chosen(s', x, true, m.sender, m.call) {
      var i :| 0 <= i < |s'.outbox| && s'.outbox[i] == m;
    }
    assert x in s'.rows ==> RowOk(c, s'.rows[x]);
  }
}
