/**
  Who can still be paid.  After the first window of an OTP has ended, its timer is the only thread
  that can ever send the payload; from where that timer stands one reads off, for every device,
  whether some continuation still sends it the payload.  That decides every dual claim, whichever
  window it ends.
 */
module Payments {
  import opened Types
  import opened Tables
  import opened Protocol
  import opened Lifecycle
  import opened Provenance
  import opened Delivery
  import opened Sharpness
  import opened DualClaims

  /** With the first timer at `pc`, it can still come to the write that delivers `x`. */
  ghost predicate CanMark(s: State, x: OtpId, pc: Pc) {
    || ((pc.Fired? || pc.Reloading?) && !RowDead(s, x))
    || (pc.Rechecking? && !Dead(pc.row, s.now))
    || pc.Marking?
  }

  /** With the first timer at `pc`, device `d` can be sent the payload of `x`: by a timer that has
      not taken a window yet any device, and else its winner; or it is being sent. */
  ghost predicate CanPay(s: State, x: OtpId, d: DeviceId, pc: Pc) {
    || (CanMark(s, x, pc) && (pc.Fired? || pc.winner.device == d))
    || (pc.Sending? && exists i :: 0 <= i < |pc.mail| && IsPayload(pc.mail[i], x) && pc.mail[i].env.to == d)
  }

  ghost predicate MayPay(s: State, x: OtpId, d: DeviceId) {
    || Reached(s, x, d)
    || (x in s.first && TimerOf(s.first[x]) in s.threads && CanPay(s, x, d, s.threads[TimerOf(s.first[x])].pc))
  }

  // ---- A timer that took a window has left it behind ---------------------------------------

  ghost predicate TakerPast(s: State, w: CallId)
    requires w in s.windows
  {
    s.windows[w].end.Taken? ==>
      var t := TimerOf(s.windows[w].end.timer);
      t in s.threads && !s.threads[t].pc.Armed? && !s.threads[t].pc.Fired?
  }

  ghost predicate TakersPast(s: State) {
    forall w {:trigger TakerPast(s, w)} | w in s.windows :: TakerPast(s, w)
  }

  /** A thread that is past its firing stays so. */
  lemma PastStays(s: State, t: Tid, ok: bool, u: CallId)
    requires WellFormed(s) && t in s.threads && Runnable(s.threads[t].pc)
    requires TimerOf(u) in s.threads && !s.threads[TimerOf(u)].pc.Armed? && !s.threads[TimerOf(u)].pc.Fired?
    ensures var s' := StepThread(s, t, ok);
            TimerOf(u) in s'.threads && !s'.threads[TimerOf(u)].pc.Armed? && !s'.threads[TimerOf(u)].pc.Fired?
  {
    assert ThreadOk(s, t) && ThreadOk(s, TimerOf(u));
  }

  lemma StepPast(s: State, t: Tid, ok: bool, w: CallId)
    requires WellFormed(s) && TakersPast(s) && t in s.threads && Runnable(s.threads[t].pc)
    requires w in StepThread(s, t, ok).windows
    ensures TakerPast(StepThread(s, t, ok), w)
  {
    var s' := StepThread(s, t, ok);
    assert ThreadOk(s, t);
    if w in s.windows && s'.windows[w] == s.windows[w] {
      assert TakerPast(s, w);
      if s.windows[w].end.Taken? {
        PastStays(s, t, ok, s.windows[w].end.timer);
      }
    }
  }

  lemma NextPast(c: Config, s: State, e: Event)
    requires WellFormed(s) && TakersPast(s) && Enabled(c, s, e)
    ensures TakersPast(Next(c, s, e))
  {
    var s' := Next(c, s, e);
    forall w | w in s'.windows ensures TakerPast(s', w) {
      if e.Step? {
        StepPast(s, e.tid, e.ok, w);
      } else {
        assert TakerPast(s, w);
      }
    }
  }

  lemma {:induction false} RunPast(c: Config, rule: Rule, s: State, es: seq<Event>)
    requires WellFormed(s) && TakersPast(s) && IsRun(c, rule, s, es)
    ensures TakersPast(Final(c, s, es))
    decreases es
  {
    if es != [] {
      NextPast(c, s, es[0]);
      StepKeeps(c, s, es[0]);
      RunPast(c, rule, Next(c, s, es[0]), es[1..]);
    }
  }

  // ---- What can no longer be paid stays unpaid ------------------------------------------------

  /** The first window has ended, and from where its timer stands `d` cannot be paid. */
  ghost predicate Spared(s: State, x: OtpId, d: DeviceId) {
    && x in s.first && TimerOf(s.first[x]) in s.threads && s.threads[TimerOf(s.first[x])].otp == x
    && !s.threads[TimerOf(s.first[x])].pc.Armed?
    && !CanPay(s, x, d, s.threads[TimerOf(s.first[x])].pc)
    && forall i | 0 <= i < |s.outbox| :: !(IsPayload(s.outbox[i], x) && s.outbox[i].env.to == d)
  }

  lemma LockSpared(s: State, x: OtpId, d: DeviceId)
    requires WellFormed(s) && Spared(s, x, d) && s.threads[TimerOf(s.first[x])].pc.Fired?
    ensures Spared(StepThread(s, TimerOf(s.first[x]), true), x, d)
  {
    assert ThreadOk(s, TimerOf(s.first[x]));
    assert x in s.pending ==> EntryOk(s, x);
  }

  lemma OwnSpared(s: State, x: OtpId, d: DeviceId)
    requires WellFormed(s) && Spared(s, x, d)
    requires var pc := s.threads[TimerOf(s.first[x])].pc; Runnable(pc) && !pc.Fired?
    ensures Spared(StepThread(s, TimerOf(s.first[x]), true), x, d)
  {
    assert ThreadOk(s, TimerOf(s.first[x]));
  }

  /** Another thread leaves the first timer alone, once it is past being armed, and sends no payload. */
  lemma OtherSpared(c: Config, s: State, x: OtpId, d: DeviceId, t: Tid)
    requires Sound(c, s) && Safe(s, x, false) && Spared(s, x, d)
    requires t in s.threads && Runnable(s.threads[t].pc) && t != TimerOf(s.first[x])
    ensures Spared(StepThread(s, t, true), x, d)
  {
    var s' := StepThread(s, t, true);
    var u := TimerOf(s.first[x]);
    StepEvolves(s, t, true);
    assert ThreadOk(s, t) && ThreadOk(s, u) && PcSafe(s, x, false, t, s.threads[t]);
    TimerUntouched(s, t, u);
    DeadStays(s, t, x);
    SendsNoOther(s, t, x, d);
  }

  lemma TimerUntouched(s: State, t: Tid, u: Tid)
    requires WellFormed(s) && t in s.threads && Runnable(s.threads[t].pc) && u in s.threads && t != u
    requires u.TimerOf? && !s.threads[u].pc.Armed?
    ensures u in StepThread(s, t, true).threads && StepThread(s, t, true).threads[u] == s.threads[u]
  {
    assert ThreadOk(s, t) && ThreadOk(s, u);
  }

  lemma DeadStays(s: State, t: Tid, x: OtpId)
    requires t in s.threads
    ensures RowDead(s, x) ==> RowDead(StepThread(s, t, true), x)
  {
  }

  lemma SendsNoOther(s: State, t: Tid, x: OtpId, d: DeviceId)
    requires Safe(s, x, false) && t in s.threads && ThreadOk(s, t) && x in s.first && t != TimerOf(s.first[x])
    requires forall i | 0 <= i < |s.outbox| :: !(IsPayload(s.outbox[i], x) && s.outbox[i].env.to == d)
    ensures var s' := StepThread(s, t, true);
            forall i | 0 <= i < |s'.outbox| :: !(IsPayload(s'.outbox[i], x) && s'.outbox[i].env.to == d)
  {
    assert PcSafe(s, x, false, t, s.threads[t]);
  }

  lemma NextSpared(c: Config, s: State, e: Event, x: OtpId, d: DeviceId)
    requires Sound(c, s) && Safe(s, x, false) && Spared(s, x, d) && Enabled(c, s, e) && CallsSucceed(e)
    ensures Spared(Next(c, s, e), x, d)
  {
    if !e.Step? {
      assert e.Fire? ==> ThreadOk(s, TimerOf(e.window));
    } else if e.tid != TimerOf(s.first[x]) {
      OtherSpared(c, s, x, d, e.tid);
    } else if s.threads[e.tid].pc.Fired? {
      LockSpared(s, x, d);
    } else {
      OwnSpared(s, x, d);
    }
  }

  lemma {:induction false} SparedForGood(c: Config, s: State, es: seq<Event>, x: OtpId, d: DeviceId)
    requires c.Valid() && Sound(c, s) && Safe(s, x, false) && Prompt(c, s) && Spared(s, x, d) && IsRun(c, Timed, s, es)
    ensures Spared(Final(c, s, es), x, d)
    decreases es
  {
    if es != [] {
      var e := es[0];
      TimedTakesDead(c, s, e, x);
      StepSafe(c, s, e, x, false);
      PromptStays(c, s, e);
      StepKeeps(c, s, e);
      NextGrounded(c, s, e);
      NextSpared(c, s, e, x, d);
      SparedForGood(c, Next(c, s, e), es[1..], x, d);
    }
  }

  lemma {:induction false} OnlyPayloads(outbox: seq<Sent>, x: OtpId)
    ensures forall m | m in PayloadsOf(outbox, x) :: m in outbox && IsPayload(m, x)
  {
    if outbox != [] {
      OnlyPayloads(outbox[1..], x);
    }
  }

  lemma SparedIsUnreached(s: State, x: OtpId, d: DeviceId)
    requires Spared(s, x, d)
    ensures !Reached(s, x, d)
  {
    OnlyPayloads(s.outbox, x);
  }

  // ---- What can be paid is paid in some continuation --------------------------------------------

  /** The first timer can still come to the write that delivers, for `d` if it has not yet taken a
      window. */
  lemma ComesTo(c: Config, s: State, w: CallId, x: OtpId, d: DeviceId) returns (es: seq<Event>, s': State)
    requires WellFormed(s) && TimerOf(w) in s.threads && s.threads[TimerOf(w)].otp == x
    requires x !in s.pending && x in s.rows && CanMark(s, x, s.threads[TimerOf(w)].pc)
    ensures IsRun(c, Timed, s, es) && s' == Final(c, s, es) && ComesToMark(s, s', w, x)
    ensures var pc := s.threads[TimerOf(w)].pc;
            s'.threads[TimerOf(w)].pc.winner.device == if pc.Fired? then d else pc.winner.device
  {
    var pc := s.threads[TimerOf(w)].pc;
    if pc.Fired? {
      es, s' := LateCallbackTakes(c, s, w, x, d);
    } else if pc.Marking? {
      es, s' := [], s;
    } else if pc.Rechecking? {
      es, s' := Do(c, s, [], s, Step(TimerOf(w), true));
    } else {
      es, s' := Do(c, s, [], s, Step(TimerOf(w), true));
      es, s' := Do(c, s, es, s', Step(TimerOf(w), true));
    }
  }

  lemma SendingPays(c: Config, s: State, w: CallId, x: OtpId, d: DeviceId) returns (es: seq<Event>)
    requires TimerOf(w) in s.threads && s.threads[TimerOf(w)].pc.Sending? && |s.threads[TimerOf(w)].pc.mail| == 1
    requires IsPayload(s.threads[TimerOf(w)].pc.mail[0], x) && s.threads[TimerOf(w)].pc.mail[0].env.to == d
    ensures IsRun(c, Timed, s, es) && Reached(Final(c, s, es), x, d)
  {
    var m := s.threads[TimerOf(w)].pc.mail[0];
    var s';
    es, s' := Do(c, s, [], s, Step(TimerOf(w), true));
    InPayloads(s'.outbox, m, x);
  }

  lemma Pays(c: Config, s: State, x: OtpId, d: DeviceId) returns (es: seq<Event>)
    requires Sound(c, s) && x in s.first && TimerOf(s.first[x]) in s.threads && s.threads[TimerOf(s.first[x])].otp == x
    requires x !in s.pending && x in s.rows && MayPay(s, x, d)
    ensures IsRun(c, Timed, s, es) && Reached(Final(c, s, es), x, d)
  {
    var w := s.first[x];
    var pc := s.threads[TimerOf(w)].pc;
    assert ThreadOk(s, TimerOf(w));
    if Reached(s, x, d) {
      es := [];
    } else if pc.Sending? {
      es := SendingPays(c, s, w, x, d);
    } else {
      var s';
      es, s' := ComesTo(c, s, w, x, d);
      es := MarkingPays(c, s, es, s', w, x);
    }
  }

  // ---- Exactly who can be paid ------------------------------------------------------------------

  /** While nothing is pending the first window has ended, and its timer is past being armed. */
  lemma FirstIsOver(c: Config, s: State, x: OtpId)
    requires Sound(c, s) && FirstOk(s, x) && TakersPast(s) && x in s.first && x !in s.pending
    ensures x in s.rows && TimerOf(s.first[x]) in s.threads
    ensures s.threads[TimerOf(s.first[x])].otp == x && !s.threads[TimerOf(s.first[x])].pc.Armed?
  {
    FirstWindowRow(c, s, x);
    assert WindowOk(s, s.first[x]) && TakerPast(s, s.first[x]) && ThreadOk(s, TimerOf(s.first[x]));
  }

  /** In every state that a run can reach with nothing pending after the first window: exactly the
      devices which the first timer can still pay are paid in some continuation. */
  lemma PaidIffMayPay(c: Config, s: State, es: seq<Event>, x: OtpId, d: DeviceId)
    requires c.Valid() && Initial(s) && IsRun(c, Timed, s, es)
    requires x in Final(c, s, es).first && x !in Final(c, s, es).pending
    ensures NeverReached(c, Final(c, s, es), x, d) <==> !MayPay(Final(c, s, es), x, d)
  {
    RunSafeAndPrompt(c, s, es, x);
    RunPast(c, Timed, s, es);
    var s1 := Final(c, s, es);
    FirstIsOver(c, s1, x);
    if MayPay(s1, x, d) {
      var es' := Pays(c, s1, x, d);
    } else {
      forall i | 0 <= i < |s1.outbox| ensures !(IsPayload(s1.outbox[i], x) && s1.outbox[i].env.to == d) {
        if IsPayload(s1.outbox[i], x) {
          InPayloads(s1.outbox, s1.outbox[i], x);
        }
      }
      forall es' | IsRun(c, Timed, s1, es') ensures !Reached(Final(c, s1, es'), x, d) {
        SparedForGood(c, s1, es', x, d);
        SparedIsUnreached(Final(c, s1, es'), x, d);
      }
    }
  }

  /** The state after a dual claim, as far as payment goes. */
  lemma KillChangesNoPayment(c: Config, s: State, h: CallId, x: OtpId, d: DeviceId)
    requires Sound(c, s) && FirstOk(s, x) && EndsWindow(s, h, x)
    ensures var s2 := Next(c, s, Step(CallOf(h), true));
            x in s2.first && x !in s2.pending && (MayPay(s2, x, d) <==> MayPay(s, x, d))
  {
    assert EntryOk(s, x) && ThreadOk(s, CallOf(h));
  }

  /** Exactly when a dual claim, whichever window it ends, keeps the payload from a device `d`: when,
      as call `h` is about to end the window, the first window's timer cannot pay `d`. */
  lemma DualClaimPays(c: Config, s: State, es: seq<Event>, h: CallId, x: OtpId, d: DeviceId)
    requires c.Valid() && Initial(s) && IsRun(c, Timed, s, es) && EndsWindow(Final(c, s, es), h, x)
    ensures var s1 := Final(c, s, es);
            var s2 := Next(c, s1, Step(CallOf(h), true));
            NeverReached(c, s2, x, d) <==> !MayPay(s1, x, d)
  {
    RunSafe(c, Timed, s, es, x);
    var s1 := Final(c, s, es);
    KillChangesNoPayment(c, s1, h, x, d);
    var es2, s2 := Do(c, s, es, s1, Step(CallOf(h), true));
    PaidIffMayPay(c, s, es2, x, d);
  }

  // ---- Whether the OTP stays invalidated -----------------------------------------------------

  /** The first timer can still come to the write that delivers `x`. */
  ghost predicate MayMark(s: State, x: OtpId) {
    x in s.first && TimerOf(s.first[x]) in s.threads && CanMark(s, x, s.threads[TimerOf(s.first[x])].pc)
  }

  /** After the first window, and nobody will ever write `claimed`; call `h` is about to write
      `invalidated`, or has. */
  ghost predicate Sealing(s: State, x: OtpId, h: CallId) {
    && x in s.first && TimerOf(s.first[x]) in s.threads && s.threads[TimerOf(s.first[x])].otp == x
    && !s.threads[TimerOf(s.first[x])].pc.Armed? && !MayMark(s, x)
    && CallOf(h) in s.threads && s.threads[CallOf(h)].otp == x && x in s.rows
    && (s.threads[CallOf(h)].pc.Invalidating? || s.rows[x].status == Invalidated)
  }

  lemma OwnSealing(s: State, x: OtpId, h: CallId)
    requires WellFormed(s) && Sealing(s, x, h) && Runnable(s.threads[TimerOf(s.first[x])].pc)
    ensures Sealing(StepThread(s, TimerOf(s.first[x]), true), x, h)
  {
    assert ThreadOk(s, TimerOf(s.first[x]));
    assert x in s.pending ==> EntryOk(s, x);
  }

  /** Call `h` stays where it is until it writes; after that no handler but the first timer could
      write anything else. */
  lemma RowSealed(s: State, x: OtpId, h: CallId, t: Tid)
    requires WellFormed(s) && Safe(s, x, false) && Sealing(s, x, h)
    requires t in s.threads && Runnable(s.threads[t].pc) && t != TimerOf(s.first[x])
    ensures var s' := StepThread(s, t, true);
            && x in s'.rows && CallOf(h) in s'.threads && s'.threads[CallOf(h)].otp == x
            && (s'.threads[CallOf(h)].pc.Invalidating? || s'.rows[x].status == Invalidated)
  {
    assert ThreadOk(s, t) && ThreadOk(s, CallOf(h)) && PcSafe(s, x, false, t, s.threads[t]);
  }

  lemma OtherSealing(s: State, x: OtpId, h: CallId, t: Tid)
    requires WellFormed(s) && Safe(s, x, false) && Sealing(s, x, h)
    requires t in s.threads && Runnable(s.threads[t].pc) && t != TimerOf(s.first[x])
    ensures Sealing(StepThread(s, t, true), x, h)
  {
    StepEvolves(s, t, true);
    TimerUntouched(s, t, TimerOf(s.first[x]));
    DeadStays(s, t, x);
    RowSealed(s, x, h, t);
  }

  lemma NextSealing(c: Config, s: State, e: Event, x: OtpId, h: CallId)
    requires Sound(c, s) && Safe(s, x, false) && Sealing(s, x, h) && Enabled(c, s, e) && CallsSucceed(e)
    ensures Sealing(Next(c, s, e), x, h)
  {
    if !e.Step? {
      assert e.Fire? ==> ThreadOk(s, TimerOf(e.window));
    } else if e.tid != TimerOf(s.first[x]) {
      OtherSealing(s, x, h, e.tid);
    } else {
      OwnSealing(s, x, h);
    }
  }

  lemma {:induction false} SealedForGood(c: Config, s: State, es: seq<Event>, x: OtpId, h: CallId)
    requires c.Valid() && Sound(c, s) && Safe(s, x, false) && Prompt(c, s) && Sealing(s, x, h) && IsRun(c, Timed, s, es)
    ensures Sealing(Final(c, s, es), x, h)
    decreases es
  {
    if es != [] {
      var e := es[0];
      TimedTakesDead(c, s, e, x);
      StepSafe(c, s, e, x, false);
      PromptStays(c, s, e);
      StepKeeps(c, s, e);
      NextGrounded(c, s, e);
      NextSealing(c, s, e, x, h);
      SealedForGood(c, Next(c, s, e), es[1..], x, h);
    }
  }

  /** In every continuation in which the write of call `h` has landed, `x` is invalidated. */
  ghost predicate StaysInvalidated(c: Config, s: State, h: CallId, x: OtpId) {
    forall es | IsRun(c, Timed, s, es) && Landed(Final(c, s, es), h) :: IsInvalidated(Final(c, s, es), x)
  }

  ghost predicate Landed(s: State, h: CallId) {
    CallOf(h) in s.threads && !s.threads[CallOf(h)].pc.Invalidating?
  }

  ghost predicate IsInvalidated(s: State, x: OtpId) {
    x in s.rows && s.rows[x].status == Invalidated
  }

  /** The first timer comes to its write, call `h` writes, and then the timer does. */
  lemma Unseals(c: Config, s: State, h: CallId, x: OtpId) returns (es: seq<Event>)
    requires WellFormed(s) && x in s.first && TimerOf(s.first[x]) in s.threads && s.threads[TimerOf(s.first[x])].otp == x
    requires x !in s.pending && x in s.rows && MayMark(s, x)
    requires CallOf(h) in s.threads && s.threads[CallOf(h)].pc.Invalidating?
    ensures IsRun(c, Timed, s, es) && Landed(Final(c, s, es), h) && !IsInvalidated(Final(c, s, es), x)
  {
    var s';
    es, s' := ComesTo(c, s, s.first[x], x, "");
    assert s'.threads[CallOf(h)] == s.threads[CallOf(h)];
    es, s' := Do(c, s, es, s', Step(CallOf(h), true));
    es, s' := Do(c, s, es, s', Step(TimerOf(s.first[x]), true));
  }

  /** Exactly when a dual claim, whichever window it ends, leaves the OTP invalidated once its write
      has landed: when, as call `h` is about to end the window, the first timer cannot come to its
      write any more. */
  lemma DualClaimInvalidates(c: Config, s: State, es: seq<Event>, h: CallId, x: OtpId)
    requires c.Valid() && Initial(s) && IsRun(c, Timed, s, es) && EndsWindow(Final(c, s, es), h, x)
    ensures var s1 := Final(c, s, es);
            StaysInvalidated(c, Next(c, s1, Step(CallOf(h), true)), h, x) <==> !MayMark(s1, x)
  {
    RunSafe(c, Timed, s, es, x);
    var s1 := Final(c, s, es);
    KillChangesNoMark(c, s1, h, x);
    var es2, s2 := Do(c, s, es, s1, Step(CallOf(h), true));
    RunSafeAndPrompt(c, s, es2, x);
    RunPast(c, Timed, s, es2);
    FirstIsOver(c, s2, x);
    if MayMark(s2, x) {
      var es' := Unseals(c, s2, h, x);
    } else {
      forall es' | IsRun(c, Timed, s2, es') && Landed(Final(c, s2, es'), h) ensures IsInvalidated(Final(c, s2, es'), x) {
        SealedForGood(c, s2, es', x, h);
      }
    }
  }

  lemma KillChangesNoMark(c: Config, s: State, h: CallId, x: OtpId)
    requires Sound(c, s) && FirstOk(s, x) && EndsWindow(s, h, x)
    ensures var s2 := Next(c, s, Step(CallOf(h), true));
            && x in s2.first && x !in s2.pending && (MayMark(s2, x) <==> MayMark(s, x))
            && CallOf(h) in s2.threads && s2.threads[CallOf(h)].otp == x && s2.threads[CallOf(h)].pc.Invalidating?
  {
    assert EntryOk(s, x) && ThreadOk(s, CallOf(h));
  }

  /** Of a dual claim that ends the first window: the OTP stays invalidated exactly when the timer had
      not fired or the row was dead, the condition of `DualClaimExactly`. */
  lemma FirstDualClaimInvalidates(c: Config, s: State, es: seq<Event>, h: CallId, x: OtpId)
    requires c.Valid() && Initial(s) && IsRun(c, Timed, s, es) && EndsFirst(Final(c, s, es), h, x)
    ensures var s1 := Final(c, s, es); x in s1.rows && TimerOf(s1.first[x]) in s1.threads
    ensures var s1 := Final(c, s, es);
            StaysInvalidated(c, Next(c, s1, Step(CallOf(h), true)), h, x) <==>
              s1.threads[TimerOf(s1.first[x])].pc.Armed? || Dead(s1.rows[x], s1.now)
  {
    AtDualClaim(c, s, es, h, x);
    DualClaimInvalidates(c, s, es, h, x);
  }
}
