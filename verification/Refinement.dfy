/**
  The serial steps are runs of the interleaved system: each call of `Claim`, and each firing of a
  timer, is what its own handler does when it runs from start to finish with nothing in between.
  Other handlers may be anywhere.
 */
module Refinement {
  import opened Types
  import opened Tables
  import opened Protocol
  import opened Lifecycle
  import S = Serial

  // ---- What the serial view remembers of an interleaved state ------------------------

  function Letters(mail: seq<Sent>): (letters: seq<Envelope>)
    ensures |letters| == |mail|
    ensures forall i :: 0 <= i < |mail| ==> letters[i] == mail[i].env
  {
    seq(|mail|, i requires 0 <= i < |mail| => mail[i].env)
  }

  function Devices(claimants: seq<Claimant>): (devices: seq<DeviceId>)
    ensures |devices| == |claimants|
    ensures forall i :: 0 <= i < |claimants| ==> devices[i] == claimants[i].device
  {
    seq(|claimants|, i requires 0 <= i < |claimants| => claimants[i].device)
  }

  function PhaseOf(threads: map<Tid, Thread>, w: CallId): S.Phase {
    if TimerOf(w) in threads && threads[TimerOf(w)].pc == Armed then S.Ticking
    else if TimerOf(w) in threads && threads[TimerOf(w)].pc == Stopped then S.Stopped
    else S.Rung
  }

  function TimersOf(s: State): map<nat, S.Timer> {
    map w | w in s.windows :: S.Timer(s.windows[w].otp, s.windows[w].openedAt, PhaseOf(s.threads, w))
  }

  function PendingOf(pending: map<OtpId, Entry>): map<OtpId, S.ClaimState> {
    map x | x in pending :: S.ClaimState(Devices(pending[x].claimants), pending[x].window)
  }

  function Forget(s: State, faults: seq<bool>): S.Mem {
    S.Mem(s.now, s.rows, faults, PendingOf(s.pending), TimersOf(s), Letters(s.outbox))
  }

  // ---- Steps, forgetting -----------------------------------------------------------------

  lemma ForgetStart(c: Config, s: State, f: seq<bool>, h: CallId, device: DeviceId, otp: OtpId)
    requires CallOf(h) !in s.threads
    ensures Forget(Next(c, s, Claim(h, device, otp)), f) == Forget(s, f)
  {
  }

  lemma ForgetLocal(s: State, f: seq<bool>, t: Tid, ok: bool)
    requires t in s.threads && ThreadOk(s, t) && Local(s.threads[t].pc)
    ensures Forget(LocalStep(s, t, s.threads[t], ok), f)
              == Forget(s, f).(rows := NextRows(s.rows, s.threads[t], ok),
                               outbox := Letters(NextOutbox(s.outbox, s.threads[t].pc)))
  {
    var s' := LocalStep(s, t, s.threads[t], ok);
    forall w ensures PhaseOf(s'.threads, w) == PhaseOf(s.threads, w) {
      NotArmed(s, t, ok);
    }
  }

  lemma NotArmed(s: State, t: Tid, ok: bool)
    requires t in s.threads && ThreadOk(s, t) && Local(s.threads[t].pc)
    ensures !NextPc(s, t, s.threads[t], ok).Armed? && !NextPc(s, t, s.threads[t], ok).Stopped?
  {
  }

  lemma ForgetOpen(s: State, f: seq<bool>, h: CallId)
    requires WellFormed(s) && CallOf(h) in s.threads && s.threads[CallOf(h)].pc.Locking?
    requires s.threads[CallOf(h)].otp !in s.pending
    ensures var th := s.threads[CallOf(h)];
            Forget(ClaimLocked(s, h, th), f) == S.JoinEffect(Forget(s, f), h, th.device, th.otp)
  {
    var th := s.threads[CallOf(h)];
    PendingOpen(s.pending, th, h);
    TimersOpen(s, h);
  }

  lemma PendingOpen(pending: map<OtpId, Entry>, th: Thread, h: CallId)
    ensures PendingOf(pending[th.otp := Entry([Claimant(th.device, h)], h)])
              == PendingOf(pending)[th.otp := S.ClaimState([th.device], h)]
  {
    assert Devices([Claimant(th.device, h)]) == [th.device];
  }

  lemma TimersOpen(s: State, h: CallId)
    requires WellFormed(s) && CallOf(h) in s.threads && s.threads[CallOf(h)].pc.Locking?
    requires s.threads[CallOf(h)].otp !in s.pending
    ensures var th := s.threads[CallOf(h)];
            TimersOf(ClaimLocked(s, h, th)) == TimersOf(s)[h := S.Timer(th.otp, s.now, S.Ticking)]
  {
    assert ThreadOk(s, CallOf(h));
  }

  lemma ForgetKill(s: State, f: seq<bool>, h: CallId)
    requires WellFormed(s) && CallOf(h) in s.threads && s.threads[CallOf(h)].pc.Locking?
    requires s.threads[CallOf(h)].otp in s.pending
    ensures var th := s.threads[CallOf(h)];
            var m := Forget(s, f);
            Forget(KillWindow(s, h, th), f)
              == m.(timers := S.StopTimer(m.timers, s.pending[th.otp].window), pending := m.pending - {th.otp})
  {
    var th := s.threads[CallOf(h)];
    var w := s.pending[th.otp].window;
    var s' := KillWindow(s, h, th);
    assert EntryOk(s, th.otp) && WindowOk(s, w);
    assert PendingOf(s'.pending) == PendingOf(s.pending) - {th.otp};
    assert TimersOf(s') == S.StopTimer(TimersOf(s), w);
  }

  lemma ForgetTake(s: State, f: seq<bool>, w: CallId)
    requires WellFormed(s) && TimerOf(w) in s.threads && s.threads[TimerOf(w)].pc.Fired?
    requires s.threads[TimerOf(w)].otp in s.pending
    ensures var m := Forget(s, f);
            Forget(ResolveLocked(s, w, s.threads[TimerOf(w)]), f)
              == m.(pending := m.pending - {s.threads[TimerOf(w)].otp})
  {
    var x := s.threads[TimerOf(w)].otp;
    var s' := ResolveLocked(s, w, s.threads[TimerOf(w)]);
    assert EntryOk(s, x);
    assert PendingOf(s'.pending) == PendingOf(s.pending) - {x};
    assert TimersOf(s') == TimersOf(s);
  }

  lemma ForgetFire(c: Config, s: State, f: seq<bool>, w: CallId)
    requires WellFormed(s) && Enabled(c, s, Fire(w))
    ensures var m := Forget(s, f);
            Forget(Next(c, s, Fire(w)), f) == m.(timers := m.timers[w := m.timers[w].(phase := S.Rung)])
  {
    var m := Forget(s, f);
    assert TimersOf(Next(c, s, Fire(w))) == m.timers[w := m.timers[w].(phase := S.Rung)];
  }

  // ---- One handler, from here to its end -----------------------------------------------------

  /** The events are all steps of `t`, and leave it finished. */
  ghost predicate Finishes(c: Config, s: State, t: Tid, es: seq<Event>) {
    && IsRun(c, Free, s, es)
    && (forall i :: 0 <= i < |es| ==> es[i].Step? && es[i].tid == t)
    && t in Final(c, s, es).threads && !Runnable(Final(c, s, es).threads[t].pc)
    && WellFormed(Final(c, s, es))
  }

  /** A step, then the rest. */
  lemma FinishAfter(c: Config, s: State, t: Tid, ok: bool, rest: seq<Event>)
    requires t in s.threads && Runnable(s.threads[t].pc) && Finishes(c, Next(c, s, Step(t, ok)), t, rest)
    ensures Finishes(c, s, t, [Step(t, ok)] + rest)
    ensures Final(c, s, [Step(t, ok)] + rest) == Final(c, Next(c, s, Step(t, ok)), rest)
  {
    RunCons(c, s, Step(t, ok), rest);
  }

  lemma FinishLastMail(c: Config, s: State, f: seq<bool>, t: Tid) returns (es: seq<Event>)
    requires WellFormed(s) && t in s.threads && s.threads[t].pc.Sending? && |s.threads[t].pc.mail| == 1
    ensures Finishes(c, s, t, es)
    ensures Forget(Final(c, s, es), f) == Forget(s, f).(outbox := Letters(s.outbox) + Letters(s.threads[t].pc.mail))
  {
    var mail := s.threads[t].pc.mail;
    var e := Step(t, true);
    assert ThreadOk(s, t);
    StepKeeps(c, s, e);
    ForgetLocal(s, f, t, true);
    es := [e];
    RunCons(c, s, e, []);
    assert [e] + [] == [e];
    assert Letters(s.outbox + [mail[0]]) == Letters(s.outbox) + Letters(mail);
  }

  lemma {:induction false} FinishSending(c: Config, s: State, f: seq<bool>, t: Tid) returns (es: seq<Event>)
    requires WellFormed(s) && t in s.threads && s.threads[t].pc.Sending?
    ensures Finishes(c, s, t, es)
    ensures Forget(Final(c, s, es), f) == Forget(s, f).(outbox := Letters(s.outbox) + Letters(s.threads[t].pc.mail))
    decreases |s.threads[t].pc.mail|
  {
    var mail := s.threads[t].pc.mail;
    assert ThreadOk(s, t);
    if |mail| == 1 {
      es := FinishLastMail(c, s, f, t);
    } else {
      StepKeeps(c, s, Step(t, true));
      ForgetLocal(s, f, t, true);
      var rest := FinishSending(c, Next(c, s, Step(t, true)), f, t);
      es := [Step(t, true)] + rest;
      FinishAfter(c, s, t, true, rest);
      LettersShift(s.outbox, mail);
    }
  }

  lemma LettersShift(outbox: seq<Sent>, mail: seq<Sent>)
    requires mail != []
    ensures Letters(outbox + [mail[0]]) + Letters(mail[1..]) == Letters(outbox) + Letters(mail)
  {
  }

  lemma FinishInvalidating(c: Config, s: State, f: seq<bool>, t: Tid) returns (es: seq<Event>)
    requires WellFormed(s) && t in s.threads && s.threads[t].pc.Invalidating?
    ensures Finishes(c, s, t, es)
    ensures Forget(Final(c, s, es), S.Rest(f))
              == S.InvalidateEffect(Forget(s, f), s.threads[t].otp, Devices(s.threads[t].pc.claimants))
  {
    var th := s.threads[t];
    var ok := !S.Faulty(f);
    var s1 := Next(c, s, Step(t, ok));
    assert ThreadOk(s, t);
    StepKeeps(c, s, Step(t, ok));
    ForgetLocal(s, S.Rest(f), t, ok);
    var rest := FinishSending(c, s1, S.Rest(f), t);
    es := [Step(t, ok)] + rest;
    FinishAfter(c, s, t, ok, rest);
    assert Letters(s1.threads[t].pc.mail) == S.NoticesTo(Devices(th.pc.claimants), th.otp);
  }

  lemma FinishRejecting(c: Config, s: State, f: seq<bool>, t: Tid, ok: bool, to: Claimant, reason: Reason) returns (es: seq<Event>)
    requires WellFormed(s) && t in s.threads && Local(s.threads[t].pc) && !s.threads[t].pc.Sending?
    requires NextPc(s, t, s.threads[t], ok) == Reject(s, to, s.threads[t].otp, reason, t)
    requires NextRows(s.rows, s.threads[t], ok) == s.rows
    ensures Finishes(c, s, t, es)
    ensures Forget(Final(c, s, es), f) == S.Send(Forget(s, f), to.device, s.threads[t].otp, Rejection(reason))
  {
    var s1 := Next(c, s, Step(t, ok));
    assert ThreadOk(s, t);
    StepKeeps(c, s, Step(t, ok));
    ForgetLocal(s, f, t, ok);
    var rest := FinishSending(c, s1, f, t);
    es := [Step(t, ok)] + rest;
    FinishAfter(c, s, t, ok, rest);
    assert Letters(s1.threads[t].pc.mail) == [Envelope(to.device, s.threads[t].otp, Rejection(reason))];
  }

  lemma FinishMarking(c: Config, s: State, f: seq<bool>, t: Tid) returns (es: seq<Event>)
    requires WellFormed(s) && t in s.threads && s.threads[t].pc.Marking? && s.threads[t].otp in s.rows
    ensures Finishes(c, s, t, es)
    ensures var th := s.threads[t];
            var m := Forget(s, S.Rest(f));
            var winner := th.pc.winner.device;
            Forget(Final(c, s, es), S.Rest(f)) ==
              if S.Faulty(f) then S.Send(m, winner, th.otp, Rejection(InternalError))
              else S.Send(m.(rows := SetStatus(m.rows, th.otp, Claimed, Some(winner))), winner, th.otp,
                          Payload(th.pc.row.ciphertext, th.pc.row.iv))
  {
    var th := s.threads[t];
    if S.Faulty(f) {
      es := FinishRejecting(c, s, S.Rest(f), t, false, th.pc.winner, InternalError);
    } else {
      var s1 := Next(c, s, Step(t, true));
      assert ThreadOk(s, t);
      StepKeeps(c, s, Step(t, true));
      ForgetLocal(s, S.Rest(f), t, true);
      var rest := FinishSending(c, s1, S.Rest(f), t);
      es := [Step(t, true)] + rest;
      FinishAfter(c, s, t, true, rest);
      assert Letters(s1.threads[t].pc.mail)
          == [Envelope(th.pc.winner.device, th.otp, Payload(th.pc.row.ciphertext, th.pc.row.iv))];
    }
  }

  lemma FinishRechecking(c: Config, s: State, f: seq<bool>, t: Tid) returns (es: seq<Event>)
    requires WellFormed(s) && t in s.threads && s.threads[t].pc.Rechecking?
    requires s.threads[t].otp in s.rows && s.rows[s.threads[t].otp] == s.threads[t].pc.row
    requires !Dead(s.threads[t].pc.row, s.now)
    ensures Finishes(c, s, t, es)
    ensures var th := s.threads[t];
            var m := Forget(s, S.Rest(f));
            var winner := th.pc.winner.device;
            Forget(Final(c, s, es), S.Rest(f)) ==
              if S.Faulty(f) then S.Send(m, winner, th.otp, Rejection(InternalError))
              else S.Send(m.(rows := SetStatus(m.rows, th.otp, Claimed, Some(winner))), winner, th.otp,
                          Payload(th.pc.row.ciphertext, th.pc.row.iv))
  {
    var s1 := Next(c, s, Step(t, true));
    assert ThreadOk(s, t);
    StepKeeps(c, s, Step(t, true));
    ForgetLocal(s, S.Rest(f), t, true);
    var rest := FinishMarking(c, s1, f, t);
    es := [Step(t, true)] + rest;
    FinishAfter(c, s, t, true, rest);
  }

  ghost function FaultsAfterDelivery(s: State, f: seq<bool>, x: OtpId): seq<bool> {
    if !S.Faulty(f) && x in s.rows && !Dead(s.rows[x], s.now) then S.Rest(S.Rest(f)) else S.Rest(f)
  }

  lemma FinishReloading(c: Config, s: State, f: seq<bool>, t: Tid) returns (es: seq<Event>)
    requires WellFormed(s) && t in s.threads && s.threads[t].pc.Reloading?
    ensures Finishes(c, s, t, es)
    ensures Forget(Final(c, s, es), FaultsAfterDelivery(s, f, s.threads[t].otp))
              == S.DeliverEffect(Forget(s, f), s.threads[t].otp, s.threads[t].pc.winner.device)
  {
    var th := s.threads[t];
    var f' := S.Rest(f);
    if S.Faulty(f) {
      es := FinishRejecting(c, s, f', t, false, th.pc.winner, InternalError);
    } else if th.otp !in s.rows {
      es := FinishRejecting(c, s, f', t, true, th.pc.winner, InternalError);
    } else {
      var s1 := Next(c, s, Step(t, true));
      assert ThreadOk(s, t);
      StepKeeps(c, s, Step(t, true));
      if Dead(s.rows[th.otp], s.now) {
        ForgetLocal(s, f', t, true);
        var rest := FinishRejecting(c, s1, f', t, true, th.pc.winner, OtpExpired);
        es := [Step(t, true)] + rest;
        FinishAfter(c, s, t, true, rest);
      } else {
        ForgetLocal(s, S.Rest(f'), t, true);
        var rest := FinishRechecking(c, s1, f', t);
        es := [Step(t, true)] + rest;
        FinishAfter(c, s, t, true, rest);
      }
    }
  }

  /** A firing of the serial coordinator is a run: the timer fires, and its callback runs to its end. */
  lemma FireIsRun(c: Config, s: State, f: seq<bool>, w: CallId) returns (es: seq<Event>, f': seq<bool>)
    requires WellFormed(s) && Enabled(c, s, Fire(w))
    ensures IsRun(c, Free, s, es) && WellFormed(Final(c, s, es))
    ensures |es| > 0 && es[0] == Fire(w) && forall i :: 0 < i < |es| ==> es[i].Step? && es[i].tid == TimerOf(w)
    ensures Forget(Final(c, s, es), f') == S.FireEffect(Forget(s, f), w)
  {
    var t := TimerOf(w);
    var s1 := Next(c, s, Fire(w));
    StepKeeps(c, s, Fire(w));
    assert ThreadOk(s, t);
    ForgetFire(c, s, f, w);
    var rest;
    rest, f' := FinishFired(c, s1, f, w);
    es := [Fire(w)] + rest;
    RunCons(c, s, Fire(w), rest);
  }

  /** The callback of a timer that has fired, to its end. */
  lemma FinishFired(c: Config, s: State, f: seq<bool>, w: CallId) returns (es: seq<Event>, f': seq<bool>)
    requires WellFormed(s) && TimerOf(w) in s.threads && s.threads[TimerOf(w)].pc.Fired?
    ensures Finishes(c, s, TimerOf(w), es)
    ensures Forget(Final(c, s, es), f') == S.ResolveEffect(Forget(s, f), s.threads[TimerOf(w)].otp)
  {
    var t := TimerOf(w);
    var x := s.threads[t].otp;
    var s1 := Next(c, s, Step(t, true));
    StepKeeps(c, s, Step(t, true));
    var rest: seq<Event>;
    if x !in s.pending {
      rest, f' := [], f;
      ForgetLate(s, f, w);
    } else {
      assert EntryOk(s, x);
      ForgetTake(s, f, w);
      rest := FinishReloading(c, s1, f, t);
      f' := FaultsAfterDelivery(s1, f, x);
    }
    es := [Step(t, true)] + rest;
    FinishAfter(c, s, t, true, rest);
  }

  lemma ForgetLate(s: State, f: seq<bool>, w: CallId)
    requires TimerOf(w) in s.threads && s.threads[TimerOf(w)].pc.Fired? && s.threads[TimerOf(w)].otp !in s.pending
    ensures Forget(ResolveLocked(s, w, s.threads[TimerOf(w)]), f) == Forget(s, f)
  {
    assert TimersOf(ResolveLocked(s, w, s.threads[TimerOf(w)])) == TimersOf(s);
  }

  // ---- Claims ------------------------------------------------------------------------------

  lemma FinishLocking(c: Config, s: State, f: seq<bool>, h: CallId) returns (es: seq<Event>, f': seq<bool>)
    requires WellFormed(s) && CallOf(h) in s.threads && s.threads[CallOf(h)].pc.Locking?
    ensures Finishes(c, s, CallOf(h), es)
    ensures Forget(Final(c, s, es), f') == S.JoinEffect(Forget(s, f), h, s.threads[CallOf(h)].device, s.threads[CallOf(h)].otp)
  {
    var t := CallOf(h);
    var th := s.threads[t];
    var s1 := Next(c, s, Step(t, true));
    StepKeeps(c, s, Step(t, true));
    var rest := [];
    f' := f;
    if th.otp !in s.pending {
      ForgetOpen(s, f, h);
    } else {
      Membership(s.pending[th.otp].claimants, th.device);
      if HasClaimed(s.pending[th.otp].claimants, th.device) {
        ForgetRepeat(s, f, h);
      } else {
        ForgetKill(s, f, h);
        rest := FinishInvalidating(c, s1, f, t);
        f' := S.Rest(f);
        assert Devices(s.pending[th.otp].claimants + [Claimant(th.device, h)])
            == Devices(s.pending[th.otp].claimants) + [th.device];
      }
    }
    es := [Step(t, true)] + rest;
    FinishAfter(c, s, t, true, rest);
  }

  lemma Membership(claimants: seq<Claimant>, device: DeviceId)
    ensures HasClaimed(claimants, device) <==> device in Devices(claimants)
  {
    if i :| 0 <= i < |claimants| && claimants[i].device == device {
      assert Devices(claimants)[i] == device;
    }
  }

  lemma ForgetRepeat(s: State, f: seq<bool>, h: CallId)
    requires CallOf(h) in s.threads
    ensures Forget(Become(s, CallOf(h), Repeated), f) == Forget(s, f)
  {
    assert TimersOf(Become(s, CallOf(h), Repeated)) == TimersOf(s);
  }

  lemma FinishChecking(c: Config, s: State, f: seq<bool>, h: CallId) returns (es: seq<Event>, f': seq<bool>)
    requires WellFormed(s) && CallOf(h) in s.threads && s.threads[CallOf(h)].pc.Checking?
    requires s.threads[CallOf(h)].otp in s.rows && s.rows[s.threads[CallOf(h)].otp] == s.threads[CallOf(h)].pc.row
    requires !S.Faulty(f)
    ensures Finishes(c, s, CallOf(h), es)
    ensures Forget(Final(c, s, es), f') == S.ClaimEffect(Forget(s, f), h, s.threads[CallOf(h)].device, s.threads[CallOf(h)].otp)
  {
    var t := CallOf(h);
    var th := s.threads[t];
    var row := th.pc.row;
    var me := Claimant(th.device, h);
    f' := S.Rest(f);
    if row.status == Expired || (row.status == Pending && row.expiresAt <= s.now) {
      es := FinishRejecting(c, s, f', t, true, me, OtpExpired);
    } else if row.status == Claimed {
      es := FinishRejecting(c, s, f', t, true, me, AlreadyClaimed);
    } else {
      var s1 := Next(c, s, Step(t, true));
      assert ThreadOk(s, t);
      StepKeeps(c, s, Step(t, true));
      ForgetLocal(s, f', t, true);
      var rest;
      if row.status == Invalidated {
        rest := FinishSending(c, s1, f', t);
        assert Letters(s1.threads[t].pc.mail) == [Envelope(th.device, th.otp, InvalidatedNotice)];
      } else {
        rest, f' := FinishLocking(c, s1, f', h);
      }
      es := [Step(t, true)] + rest;
      FinishAfter(c, s, t, true, rest);
    }
  }

  /** A call of the serial coordinator is a run: the call starts, and its handler runs to its end. */
  lemma ClaimIsRun(c: Config, s: State, f: seq<bool>, h: CallId, device: DeviceId, x: OtpId)
    returns (es: seq<Event>, f': seq<bool>)
    requires WellFormed(s) && Enabled(c, s, Claim(h, device, x))
    ensures IsRun(c, Free, s, es) && WellFormed(Final(c, s, es))
    ensures |es| > 0 && es[0] == Claim(h, device, x) && forall i :: 0 < i < |es| ==> es[i].Step? && es[i].tid == CallOf(h)
    ensures Forget(Final(c, s, es), f') == S.ClaimEffect(Forget(s, f), h, device, x)
  {
    var t := CallOf(h);
    var s1 := Next(c, s, Claim(h, device, x));
    StepKeeps(c, s, Claim(h, device, x));
    ForgetStart(c, s, f, h, device, x);
    var me := Claimant(device, h);
    f' := S.Rest(f);
    var rest;
    if S.Faulty(f) {
      rest := FinishRejecting(c, s1, f', t, false, me, InternalError);
    } else if x !in s.rows {
      rest := FinishRejecting(c, s1, f', t, true, me, OtpNotFound);
    } else {
      var s2 := Next(c, s1, Step(t, true));
      assert ThreadOk(s1, t);
      StepKeeps(c, s1, Step(t, true));
      ForgetLocal(s1, f, t, true);
      rest, f' := FinishChecking(c, s2, f, h);
      FinishAfter(c, s1, t, true, rest);
      rest := [Step(t, true)] + rest;
    }
    es := [Claim(h, device, x)] + rest;
    RunCons(c, s, Claim(h, device, x), rest);
  }

  // ---- Whole traces -----------------------------------------------------------------------------

  lemma {:induction false} NoNewCall(c: Config, s: State, es: seq<Event>, h: CallId)
    requires IsRun(c, Free, s, es) && forall i :: 0 <= i < |es| ==> !(es[i].Claim? && es[i].call == h)
    ensures CallOf(h) in Final(c, s, es).threads ==> CallOf(h) in s.threads
    decreases es
  {
    if es != [] {
      NoNewCall(c, Next(c, s, es[0]), es[1..], h);
    }
  }

  lemma TableIsRun(c: Config, s: State, f: seq<bool>, e: S.Event) returns (es: seq<Event>, f': seq<bool>)
    requires WellFormed(s) && (e.Clock? || e.Push? || e.Clean?)
    requires e.Clock? ==> s.now <= e.to
    ensures IsRun(c, Free, s, es) && WellFormed(Final(c, s, es))
    ensures Forget(Final(c, s, es), f') == S.Next(c.ttl, Forget(s, f), e)
    ensures forall i :: 0 <= i < |es| ==> !es[i].Claim?
  {
    f' := if e.Clock? then f else S.Rest(f);
    if e.Clock? || !S.Faulty(f) {
      var p := match e
        case Clock(to) => Tick(to)
        case Push(id, source, ciphertext, iv) => Ingest(id, source, ciphertext, iv)
        case _ => Sweep;
      es := [p];
      StepKeeps(c, s, p);
      RunCons(c, s, p, []);
      assert [p] + [] == [p];
      assert TimersOf(Next(c, s, p)) == TimersOf(s);
    } else {
      es := [];
    }
  }

  /** One event of a serial trace, as a run of the interleaved system. */
  lemma EventIsRun(c: Config, s: State, f: seq<bool>, e: S.Event) returns (es: seq<Event>, f': seq<bool>)
    requires WellFormed(s)
    requires e.Clock? ==> s.now <= e.to
    requires e.Call? ==> CallOf(e.call) !in s.threads
    requires e.Ring? ==> S.CanFire(Forget(s, f), c.window, e.timer)
    ensures IsRun(c, Free, s, es) && WellFormed(Final(c, s, es))
    ensures Forget(Final(c, s, es), f') == S.Next(c.ttl, Forget(s, f), e)
    ensures forall i :: 0 <= i < |es| && es[i].Claim? ==> e.Call? && es[i].call == e.call
  {
    if e.Call? {
      es, f' := ClaimIsRun(c, s, f, e.call, e.device, e.otp);
    } else if e.Ring? {
      es, f' := FireIsRun(c, s, f, e.timer);
    } else {
      es, f' := TableIsRun(c, s, f, e);
    }
  }

  /** Every call in the state was made by one of the first `n` events. */
  ghost predicate CallsFrom(s: State, events: seq<S.Event>, n: nat) {
    n <= |events| && forall h | CallOf(h) in s.threads :: exists i :: 0 <= i < n && events[i].Call? && events[i].call == h
  }

  lemma CallsExtend(c: Config, s: State, es: seq<Event>, events: seq<S.Event>, n: nat)
    requires n < |events| && CallsFrom(s, events, n) && IsRun(c, Free, s, es)
    requires forall i :: 0 <= i < |es| && es[i].Claim? ==> events[n].Call? && es[i].call == events[n].call
    ensures CallsFrom(Final(c, s, es), events, n + 1)
  {
    forall h | CallOf(h) in Final(c, s, es).threads
      ensures exists i :: 0 <= i < n + 1 && events[i].Call? && events[i].call == h
    {
      if !(events[n].Call? && events[n].call == h) {
        NoNewCall(c, s, es, h);
      }
    }
  }

  /** Every trace of the serial coordinator, with whatever database calls failing in it, is a run
      of the interleaved system that ends in the same table, windows, timers and outbox. */
  lemma {:induction false} TraceIsRun(c: Config, tr: S.Trace, s: State, n: nat) returns (es: seq<Event>, f: seq<bool>)
    requires Initial(s) && tr.IsRun() && n <= |tr.events|
    requires c.window == tr.window && c.ttl == tr.ttl && tr.start.now == s.now && tr.start.rows == s.rows
    ensures IsRun(c, Free, s, es) && Keeps(Final(c, s, es), f, tr, n)
    ensures Forget(Final(c, s, es), f) == tr.At(n)
  {
    if n == 0 {
      es, f := [], tr.start.faults;
      ForgetInitial(s, f);
    } else {
      var before, f1 := TraceIsRun(c, tr, s, n - 1);
      var more;
      more, f := TraceGoesOn(c, tr, Final(c, s, before), f1, n - 1);
      RunsAppend(c, Free, s, before, more);
      es := before + more;
    }
  }

  /** The state stands for the serial one after `n` events of the trace. */
  ghost predicate Keeps(s: State, f: seq<bool>, tr: S.Trace, n: nat)
    requires n <= |tr.events|
  {
    WellFormed(s) && Forget(s, f) == tr.At(n) && CallsFrom(s, tr.events, n)
  }

  lemma ForgetInitial(s: State, f: seq<bool>)
    requires Initial(s)
    ensures Forget(s, f) == S.Mem(s.now, s.rows, f, map[], map[], []) && WellFormed(s)
  {
  }

  lemma TraceGoesOn(c: Config, tr: S.Trace, s: State, f: seq<bool>, n: nat) returns (es: seq<Event>, f': seq<bool>)
    requires tr.IsRun() && n < |tr.events| && c.window == tr.window && c.ttl == tr.ttl
    requires Keeps(s, f, tr, n)
    ensures IsRun(c, Free, s, es) && Keeps(Final(c, s, es), f', tr, n + 1)
  {
    assert tr.Possible(n);
    es, f' := EventIsRun(c, s, f, tr.events[n]);
    CallsExtend(c, s, es, tr.events, n);
  }
}
