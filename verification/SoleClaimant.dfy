/**
  The positive half of the claim rule, for every interleaving within the tail bound: when only one
  device ever claims an OTP, the claim that opened its first window is answered by that window's
  own timer, with the payload exactly when the clock of the re-check precedes the expiry.
 */
module SoleClaimants {
  import opened Types
  import opened Tables
  import opened Protocol
  import opened Lifecycle
  import opened Provenance
  import opened Delivery
  import A = Accounting
  import Progress

  /** Pending, or expired because its time is up: nobody has decided the row. */
  predicate RowUndecided(row: Row, now: Millis) {
    row.status == Pending || (row.status == Expired && row.expiresAt <= now)
  }

  ghost predicate Undecided(s: State, x: OtpId) {
    x in s.rows && RowUndecided(s.rows[x], s.now)
  }

  /** Every call for `x` is by `d`, and no handler of `x` is about to invalidate. */
  ghost predicate CallsBy(s: State, x: OtpId, d: DeviceId) {
    forall t {:trigger s.threads[t]} | t in s.threads && s.threads[t].otp == x ::
      !s.threads[t].pc.Invalidating? && (t.CallOf? ==> s.threads[t].device == d)
  }

  /** The answer of `d`'s claim `f`, and what it says of the row. */
  ghost predicate Verdict(c: Config, s: State, x: OtpId, d: DeviceId, f: CallId, m: Sent) {
    && m.call == f && m.sender == TimerOf(f) && m.env.to == d && m.env.otp == x
    && RanFor(c, s, f, m.at)
    && x in s.rows
    && m.env.body == (if m.at < s.rows[x].expiresAt then Payload(s.rows[x].ciphertext, s.rows[x].iv) else Rejection(OtpExpired))
    && (m.at < s.rows[x].expiresAt ==> s.rows[x].status == Claimed && s.rows[x].claimedBy == Some(d))
  }

  ghost predicate Silent(outbox: seq<Sent>, t: Tid) {
    forall i | 0 <= i < |outbox| :: outbox[i].sender != t
  }

  /** How far the first window has come, by the `pc` of its timer. */
  ghost predicate Stage(c: Config, s: State, x: OtpId, d: DeviceId, f: CallId, pc: Pc) {
    && (pc.Armed? || pc.Fired? ==> f in s.windows && s.windows[f].end.StillOpen? && Undecided(s, x))
    && !pc.Stopped?
    && (pc.Reloading? ==> pc.winner == Claimant(d, f) && Undecided(s, x))
    && (pc.Rechecking? ==> pc.winner == Claimant(d, f) && x in s.rows && SameLetter(pc.row, s.rows[x]) && RowUndecided(pc.row, s.now))
    && (pc.Marking? ==> pc.winner == Claimant(d, f) && x in s.rows && SameLetter(pc.row, s.rows[x]))
    && (pc.Sending? ==> |pc.mail| == 1 && Verdict(c, s, x, d, f, pc.mail[0]))
    && (pc.Done? <==> !Silent(s.outbox, TimerOf(f)))
  }

  ghost predicate Judged(c: Config, s: State, x: OtpId, d: DeviceId, f: CallId) {
    forall i {:trigger s.outbox[i]} | 0 <= i < |s.outbox| && s.outbox[i].sender == TimerOf(f) :: Verdict(c, s, x, d, f, s.outbox[i])
  }

  /** A call that saw the row pending will find it undecided, as long as no window has been opened. */
  ghost predicate Hopeful(s: State, x: OtpId, th: Thread) {
    th.otp == x && (th.pc.Checking? || th.pc.Locking?) && th.pc.row.status == Pending ==> Undecided(s, x)
  }

  ghost predicate Lone(c: Config, s: State, x: OtpId, d: DeviceId) {
    && CallsBy(s, x, d)
    && if x in s.first then
         && TimerOf(s.first[x]) in s.threads
         && Stage(c, s, x, d, s.first[x], s.threads[TimerOf(s.first[x])].pc)
         && Judged(c, s, x, d, s.first[x])
       else
         forall t {:trigger Hopeful(s, x, s.threads[t])} | t in s.threads :: Hopeful(s, x, s.threads[t])
  }

  // ---- The row ---------------------------------------------------------------------------

  /** The row of `x` is as it was, or has been swept. */
  ghost predicate Unwritten(s: State, s': State, x: OtpId) {
    x in s.rows ==> x in s'.rows && (s'.rows[x] == s.rows[x] || s'.rows[x] == SweptRow(s.rows[x], s'.now))
  }

  lemma UndecidedStays(s: State, s': State, x: OtpId)
    requires s.now <= s'.now && Unwritten(s, s', x) && Undecided(s, x)
    ensures Undecided(s', x)
  {
  }

  lemma VerdictStays(c: Config, s: State, s': State, x: OtpId, d: DeviceId, f: CallId, m: Sent)
    requires Evolves(s, s') && Unwritten(s, s', x) && Verdict(c, s, x, d, f, m)
    ensures Verdict(c, s', x, d, f, m)
  {
  }

  lemma StageStays(c: Config, s: State, s': State, x: OtpId, d: DeviceId, f: CallId, pc: Pc)
    requires Evolves(s, s') && Unwritten(s, s', x) && Stage(c, s, x, d, f, pc)
    requires pc.Armed? || pc.Fired? ==> f in s'.windows && s'.windows[f].end.StillOpen?
    requires Silent(s'.outbox[|s.outbox|..], TimerOf(f))
    ensures Stage(c, s', x, d, f, pc)
  {
    SilentMore(s.outbox, s'.outbox, TimerOf(f));
    if pc.Sending? {
      VerdictStays(c, s, s', x, d, f, pc.mail[0]);
    }
  }

  lemma SilentMore(outbox: seq<Sent>, outbox': seq<Sent>, t: Tid)
    requires outbox <= outbox'
    ensures Silent(outbox', t) <==> Silent(outbox, t) && Silent(outbox'[|outbox|..], t)
  {
    assert outbox' == outbox + outbox'[|outbox|..];
  }

  lemma JudgedStays(c: Config, s: State, s': State, x: OtpId, d: DeviceId, f: CallId)
    requires Evolves(s, s') && Unwritten(s, s', x) && Judged(c, s, x, d, f)
    requires Silent(s'.outbox[|s.outbox|..], TimerOf(f))
    ensures Judged(c, s', x, d, f)
  {
    forall i | 0 <= i < |s'.outbox| && s'.outbox[i].sender == TimerOf(f) ensures Verdict(c, s', x, d, f, s'.outbox[i]) {
      assert s'.outbox[i] == s.outbox[i];
      VerdictStays(c, s, s', x, d, f, s.outbox[i]);
    }
  }

  /** Only the first window's callback writes the row. */
  lemma OthersDoNotWrite(s: State, t: Tid, x: OtpId, d: DeviceId)
    requires t in s.threads && Safe(s, x, false) && CallsBy(s, x, d)
    requires x in s.first ==> t != TimerOf(s.first[x])
    ensures Unwritten(s, StepThread(s, t, true), x)
  {
    assert PcSafe(s, x, false, t, s.threads[t]);
  }

  // ---- Steps of the first window's timer -----------------------------------------------------

  lemma TakesOwn(c: Config, s: State, x: OtpId, d: DeviceId)
    requires Sound(c, s) && Safe(s, x, false) && Lone(c, s, x, d) && x in s.first
    requires s.threads[TimerOf(s.first[x])].pc.Fired?
    ensures var f := s.first[x];
            var s' := StepThread(s, TimerOf(f), true);
            s'.threads[TimerOf(f)].pc == Reloading(Claimant(d, f), s.now) && s'.rows == s.rows && s'.outbox == s.outbox
  {
    var f := s.first[x];
    assert WindowOk(s, f) && EntryOk(s, x) && ThreadOk(s, TimerOf(f));
    assert s.threads[CallOf(f)].otp == x && s.threads[CallOf(f)].device == d;
  }

  lemma LocalStage(c: Config, s: State, s': State, x: OtpId, d: DeviceId)
    requires Sound(c, s) && Lone(c, s, x, d) && x in s.first
    requires var pc := s.threads[TimerOf(s.first[x])].pc; pc.Reloading? || pc.Rechecking? || pc.Marking?
    requires s.threads[TimerOf(s.first[x])].otp == x
    requires s' == LocalStep(s, TimerOf(s.first[x]), s.threads[TimerOf(s.first[x])], true)
    ensures Stage(c, s', x, d, s.first[x], s'.threads[TimerOf(s.first[x])].pc) && Judged(c, s', x, d, s.first[x])
  {
    var t := TimerOf(s.first[x]);
    assert PcGrounded(c, s, t, s.threads[t]);
  }

  lemma OnlyLast(outbox: seq<Sent>, m: Sent, t: Tid)
    requires Silent(outbox, t)
    ensures forall i | 0 <= i < |outbox + [m]| && (outbox + [m])[i].sender == t :: (outbox + [m])[i] == m
    ensures m.sender == t ==> !Silent(outbox + [m], t)
  {
    assert (outbox + [m])[|outbox|] == m;
  }

  lemma SendStage(c: Config, s: State, s': State, x: OtpId, d: DeviceId)
    requires Lone(c, s, x, d) && x in s.first && s.threads[TimerOf(s.first[x])].pc.Sending?
    requires s' == LocalStep(s, TimerOf(s.first[x]), s.threads[TimerOf(s.first[x])], true)
    ensures Stage(c, s', x, d, s.first[x], s'.threads[TimerOf(s.first[x])].pc) && Judged(c, s', x, d, s.first[x])
  {
    var t := TimerOf(s.first[x]);
    var m := s.threads[t].pc.mail[0];
    OnlyLast(s.outbox, m, t);
    assert s'.outbox == s.outbox + [m];
    assert Verdict(c, s', x, d, s.first[x], m);
  }

  lemma OwnStep(c: Config, s: State, x: OtpId, d: DeviceId)
    requires Sound(c, s) && Safe(s, x, false) && Lone(c, s, x, d) && x in s.first
    requires Runnable(s.threads[TimerOf(s.first[x])].pc)
    ensures var s' := StepThread(s, TimerOf(s.first[x]), true);
            && TimerOf(s.first[x]) in s'.threads
            && Stage(c, s', x, d, s.first[x], s'.threads[TimerOf(s.first[x])].pc) && Judged(c, s', x, d, s.first[x])
  {
    var t := TimerOf(s.first[x]);
    var s' := StepThread(s, t, true);
    assert ThreadOk(s, t);
    if s.threads[t].pc.Fired? {
      TakesOwn(c, s, x, d);
    } else if s.threads[t].pc.Sending? {
      SendStage(c, s, s', x, d);
    } else {
      LocalStage(c, s, s', x, d);
    }
  }

  // ---- Steps of other handlers -----------------------------------------------------------------

  /** Another handler sends nothing in the timer's name, and leaves its thread alone, unless it
      ends the window, which takes a second device. */
  lemma LeavesTimer(s: State, x: OtpId, d: DeviceId, t: Tid, f: CallId)
    requires WellFormed(s) && CallsBy(s, x, d) && t in s.threads && Runnable(s.threads[t].pc)
    requires TimerOf(f) in s.threads && s.threads[TimerOf(f)].otp == x && t != TimerOf(f)
    ensures var s' := StepThread(s, t, true);
            TimerOf(f) in s'.threads && s'.threads[TimerOf(f)] == s.threads[TimerOf(f)]
  {
    assert ThreadOk(s, t) && ThreadOk(s, TimerOf(f));
    if s.threads[t].pc.Locking? {
      if s.threads[t].otp == x {
        SameDeviceRepeats(s, x, d, t.call);
      }
      assert s.threads[t].otp in s.pending ==> EntryOk(s, s.threads[t].otp);
    }
  }

  /** A claim of the only device never ends a window. */
  lemma SameDeviceRepeats(s: State, x: OtpId, d: DeviceId, h: CallId)
    requires WellFormed(s) && CallsBy(s, x, d) && CallOf(h) in s.threads && s.threads[CallOf(h)].otp == x
    ensures x in s.pending ==> HasClaimed(s.pending[x].claimants, s.threads[CallOf(h)].device)
  {
    if x in s.pending {
      var w := s.pending[x].window;
      assert EntryOk(s, x) && WindowOk(s, w);
      assert s.threads[CallOf(w)].device == d && s.threads[CallOf(h)].device == d;
      assert s.pending[x].claimants[0].device == d;
    }
  }

  lemma LeavesWindow(s: State, x: OtpId, d: DeviceId, t: Tid)
    requires WellFormed(s) && FirstOk(s, x) && CallsBy(s, x, d) && t in s.threads && Runnable(s.threads[t].pc)
    requires x in s.first && t != TimerOf(s.first[x]) && s.windows[s.first[x]].end.StillOpen?
    ensures var s' := StepThread(s, t, true);
            s.first[x] in s'.windows && s'.windows[s.first[x]].end.StillOpen?
  {
    assert ThreadOk(s, t) && WindowOk(s, s.first[x]);
    if s.threads[t].otp in s.pending {
      assert EntryOk(s, s.threads[t].otp);
    }
    if s.threads[t].pc.Locking? && s.threads[t].otp == x {
      SameDeviceRepeats(s, x, d, t.call);
    }
  }

  lemma SendsOwn(s: State, t: Tid, u: Tid)
    requires t in s.threads && ThreadOk(s, t) && u != t
    ensures s.outbox <= StepThread(s, t, true).outbox
    ensures Silent(StepThread(s, t, true).outbox[|s.outbox|..], u)
  {
  }

  lemma OtherStep(c: Config, s: State, x: OtpId, d: DeviceId, t: Tid)
    requires Sound(c, s) && Safe(s, x, false) && Lone(c, s, x, d) && x in s.first
    requires t in s.threads && Runnable(s.threads[t].pc) && t != TimerOf(s.first[x])
    ensures var s' := StepThread(s, t, true);
            && TimerOf(s.first[x]) in s'.threads
            && Stage(c, s', x, d, s.first[x], s'.threads[TimerOf(s.first[x])].pc) && Judged(c, s', x, d, s.first[x])
  {
    var f := s.first[x];
    var s' := StepThread(s, t, true);
    StepEvolves(s, t, true);
    assert ThreadOk(s, t) && ThreadOk(s, TimerOf(f));
    OthersDoNotWrite(s, t, x, d);
    LeavesTimer(s, x, d, t, f);
    SendsOwn(s, t, TimerOf(f));
    if s.windows[f].end.StillOpen? {
      LeavesWindow(s, x, d, t);
    }
    StageStays(c, s, s', x, d, f, s.threads[TimerOf(f)].pc);
    JudgedStays(c, s, s', x, d, f);
  }

  lemma ClaimCallsBy(s: State, x: OtpId, d: DeviceId, h: CallId, u: Tid)
    requires WellFormed(s) && CallsBy(s, x, d) && CallOf(h) in s.threads && s.threads[CallOf(h)].pc.Locking?
    requires var s' := ClaimLocked(s, h, s.threads[CallOf(h)]); u in s'.threads && s'.threads[u].otp == x
    ensures var th := ClaimLocked(s, h, s.threads[CallOf(h)]).threads[u];
            !th.pc.Invalidating? && (u.CallOf? ==> th.device == d)
  {
    if s.threads[CallOf(h)].otp == x {
      SameDeviceRepeats(s, x, d, h);
    }
  }

  lemma ResolveCallsBy(s: State, x: OtpId, d: DeviceId, w: CallId, u: Tid)
    requires WellFormed(s) && CallsBy(s, x, d) && TimerOf(w) in s.threads && s.threads[TimerOf(w)].pc.Fired?
    requires var s' := ResolveLocked(s, w, s.threads[TimerOf(w)]); u in s'.threads && s'.threads[u].otp == x
    ensures var th := ResolveLocked(s, w, s.threads[TimerOf(w)]).threads[u];
            !th.pc.Invalidating? && (u.CallOf? ==> th.device == d)
  {
    var y := s.threads[TimerOf(w)].otp;
    if y in s.pending {
      assert EntryOk(s, y) && |s.pending[y].claimants| == 1;
    }
  }

  lemma CallsByStays(s: State, x: OtpId, d: DeviceId, t: Tid, u: Tid)
    requires WellFormed(s) && CallsBy(s, x, d) && t in s.threads && Runnable(s.threads[t].pc)
    requires u in StepThread(s, t, true).threads && StepThread(s, t, true).threads[u].otp == x
    ensures var th := StepThread(s, t, true).threads[u];
            !th.pc.Invalidating? && (u.CallOf? ==> th.device == d)
  {
    assert ThreadOk(s, t);
    if s.threads[t].pc.Locking? {
      ClaimCallsBy(s, x, d, t.call, u);
    } else if s.threads[t].pc.Fired? {
      ResolveCallsBy(s, x, d, t.window, u);
    }
  }

  // ---- Before the first window ---------------------------------------------------------------

  lemma HopefulStays(s: State, s': State, x: OtpId, th: Thread)
    requires s.now <= s'.now && Unwritten(s, s', x) && Hopeful(s, x, th)
    ensures Hopeful(s', x, th)
  {
    if Undecided(s, x) {
      UndecidedStays(s, s', x);
    }
  }

  lemma LocalHopeful(s: State, x: OtpId, t: Tid)
    requires t in s.threads && ThreadOk(s, t) && Local(s.threads[t].pc) && Hopeful(s, x, s.threads[t])
    requires Unwritten(s, LocalStep(s, t, s.threads[t], true), x)
    ensures Hopeful(LocalStep(s, t, s.threads[t], true), x, LocalStep(s, t, s.threads[t], true).threads[t])
  {
  }

  /** A locked section leaves the threads it moves without a row in hand. */
  lemma LockedHopeful(s: State, x: OtpId, t: Tid, u: Tid)
    requires t in s.threads && ThreadOk(s, t) && Runnable(s.threads[t].pc) && !Local(s.threads[t].pc)
    requires u in StepThread(s, t, true).threads && !(u in s.threads && StepThread(s, t, true).threads[u] == s.threads[u])
    ensures Hopeful(StepThread(s, t, true), x, StepThread(s, t, true).threads[u])
  {
  }

  lemma MovedHopeful(s: State, x: OtpId, t: Tid, u: Tid)
    requires WellFormed(s) && t in s.threads && Runnable(s.threads[t].pc)
    requires Unwritten(s, StepThread(s, t, true), x)
    requires u in StepThread(s, t, true).threads && (u in s.threads ==> Hopeful(s, x, s.threads[u]))
    ensures Hopeful(StepThread(s, t, true), x, StepThread(s, t, true).threads[u])
  {
    var s' := StepThread(s, t, true);
    assert ThreadOk(s, t);
    if u in s.threads && s'.threads[u] == s.threads[u] {
      HopefulStays(s, s', x, s.threads[u]);
    } else if Local(s.threads[t].pc) {
      LocalHopeful(s, x, t);
    } else {
      LockedHopeful(s, x, t, u);
    }
  }

  lemma FirstOpens(c: Config, s: State, x: OtpId, d: DeviceId, h: CallId)
    requires Sound(c, s) && A.Accounted(s) && Safe(s, x, false) && Lone(c, s, x, d) && x !in s.first
    requires CallOf(h) in s.threads && s.threads[CallOf(h)].pc.Locking? && s.threads[CallOf(h)].otp == x
    ensures var s' := StepThread(s, CallOf(h), true);
            && x in s'.first && s'.first[x] == h && TimerOf(h) in s'.threads
            && Stage(c, s', x, d, h, s'.threads[TimerOf(h)].pc) && Judged(c, s', x, d, h)
  {
    assert Hopeful(s, x, s.threads[CallOf(h)]) && PcGrounded(c, s, CallOf(h), s.threads[CallOf(h)]);
    assert x in s.pending ==> EntryOk(s, x);
    NoTimerYet(s, h);
  }

  lemma NoTimerYet(s: State, h: CallId)
    requires WellFormed(s) && A.Accounted(s) && CallOf(h) in s.threads && !s.threads[CallOf(h)].pc.Opened?
    ensures TimerOf(h) !in s.threads && Silent(s.outbox, TimerOf(h))
  {
    assert ThreadOk(s, CallOf(h));
    assert TimerOf(h) in s.threads ==> ThreadOk(s, TimerOf(h));
    forall i | 0 <= i < |s.outbox| ensures s.outbox[i].sender != TimerOf(h) {
      assert A.Paid(s, s.outbox[i]);
    }
  }

  // ---- Whole runs ------------------------------------------------------------------------------

  lemma StepLoneFirst(c: Config, s: State, t: Tid, x: OtpId, d: DeviceId)
    requires Sound(c, s) && Safe(s, x, false) && Lone(c, s, x, d) && x in s.first
    requires t in s.threads && Runnable(s.threads[t].pc)
    ensures Lone(c, StepThread(s, t, true), x, d)
  {
    var s' := StepThread(s, t, true);
    StepEvolves(s, t, true);
    forall u | u in s'.threads && s'.threads[u].otp == x
      ensures !s'.threads[u].pc.Invalidating? && (u.CallOf? ==> s'.threads[u].device == d)
    {
      CallsByStays(s, x, d, t, u);
    }
    if t == TimerOf(s.first[x]) {
      OwnStep(c, s, x, d);
    } else {
      OtherStep(c, s, x, d, t);
    }
  }

  lemma StepLoneYet(c: Config, s: State, t: Tid, x: OtpId, d: DeviceId)
    requires Sound(c, s) && A.Accounted(s) && Safe(s, x, false) && Lone(c, s, x, d) && x !in s.first
    requires t in s.threads && Runnable(s.threads[t].pc)
    ensures Lone(c, StepThread(s, t, true), x, d)
  {
    var s' := StepThread(s, t, true);
    forall u | u in s'.threads && s'.threads[u].otp == x
      ensures !s'.threads[u].pc.Invalidating? && (u.CallOf? ==> s'.threads[u].device == d)
    {
      CallsByStays(s, x, d, t, u);
    }
    if x in s'.first {
      OpensHere(s, t, x);
      FirstOpens(c, s, x, d, t.call);
    } else {
      OthersDoNotWrite(s, t, x, d);
      forall u | u in s'.threads ensures Hopeful(s', x, s'.threads[u]) {
        MovedHopeful(s, x, t, u);
      }
    }
  }

  lemma OpensHere(s: State, t: Tid, x: OtpId)
    requires t in s.threads && ThreadOk(s, t) && Runnable(s.threads[t].pc)
    ensures x !in s.first && x in StepThread(s, t, true).first ==> t.CallOf? && s.threads[t].pc.Locking? && s.threads[t].otp == x
  {
  }

  lemma SharedLone(c: Config, s: State, e: Event, x: OtpId, d: DeviceId)
    requires Sound(c, s) && Safe(s, x, false) && Lone(c, s, x, d) && Enabled(c, s, e) && !e.Step?
    requires e.Claim? && e.otp == x ==> e.device == d
    ensures Lone(c, Next(c, s, e), x, d)
  {
    var s' := Next(c, s, e);
    NextEvolves(c, s, e);
    if x in s.first {
      var f := s.first[x];
      StageStays(c, s, s', x, d, f, s.threads[TimerOf(f)].pc);
      JudgedStays(c, s, s', x, d, f);
    } else {
      forall u | u in s'.threads ensures Hopeful(s', x, s'.threads[u]) {
        if u in s.threads {
          HopefulStays(s, s', x, s.threads[u]);
        }
      }
    }
  }

  lemma {:induction false} RunLone(c: Config, s: State, es: seq<Event>, x: OtpId, d: DeviceId)
    requires c.Valid() && Sound(c, s) && A.Accounted(s) && Safe(s, x, false) && Prompt(c, s) && Lone(c, s, x, d)
    requires IsRun(c, Timed, s, es) && forall i | 0 <= i < |es| && es[i].Claim? && es[i].otp == x :: es[i].device == d
    ensures var s' := Final(c, s, es);
            Sound(c, s') && A.Accounted(s') && Safe(s', x, false) && Lone(c, s', x, d)
    decreases es
  {
    if es != [] {
      var e := es[0];
      TimedTakesDead(c, s, e, x);
      StepSafe(c, s, e, x, false);
      PromptStays(c, s, e);
      StepKeeps(c, s, e);
      NextGrounded(c, s, e);
      A.NextAccounted(c, s, e);
      NextLone(c, s, e, x, d);
      RunLone(c, Next(c, s, e), es[1..], x, d);
    }
  }

  lemma NextLone(c: Config, s: State, e: Event, x: OtpId, d: DeviceId)
    requires Sound(c, s) && A.Accounted(s) && Safe(s, x, false) && Lone(c, s, x, d) && Enabled(c, s, e) && CallsSucceed(e)
    requires e.Claim? && e.otp == x ==> e.device == d
    ensures Lone(c, Next(c, s, e), x, d)
  {
    if !e.Step? {
      SharedLone(c, s, e, x, d);
    } else if x in s.first {
      StepLoneFirst(c, s, e.tid, x, d);
    } else {
      StepLoneYet(c, s, e.tid, x, d);
    }
  }

  /** `m` is the answer to call `f` and, if it is a payload, the only one of `x`; if not, there is none. */
  ghost predicate TheAnswer(outbox: seq<Sent>, x: OtpId, f: CallId, m: Sent) {
    && m in outbox
    && forall m' | m' in outbox && (m'.call == f || IsPayload(m', x)) :: m' == m
  }

  /** When only `d` ever claims `x`, and all has settled: the claim that opened the first window has
      one answer, sent to `d` by that window's own timer once the window had run; it is the payload,
      and the row is claimed by `d`, exactly when the instant of the re-check precedes the expiry,
      and otherwise says that the OTP has expired; and no other payload of `x` is ever sent. */
  lemma SoleClaimantAnswered(c: Config, s: State, es: seq<Event>, x: OtpId, d: DeviceId) returns (m: Sent)
    requires c.Valid() && Initial(s) && IsRun(c, Timed, s, es)
    requires forall i | 0 <= i < |es| && es[i].Claim? && es[i].otp == x :: es[i].device == d
    requires Progress.Settled(Final(c, s, es)) && x in Final(c, s, es).first
    ensures var s' := Final(c, s, es);
            TheAnswer(s'.outbox, x, s'.first[x], m) && Verdict(c, s', x, d, s'.first[x], m)
  {
    RunLone(c, s, es, x, d);
    m := LoneAnswer(c, Final(c, s, es), x, d);
  }

  lemma LoneAnswer(c: Config, s: State, x: OtpId, d: DeviceId) returns (m: Sent)
    requires Sound(c, s) && A.Accounted(s) && Safe(s, x, false) && Lone(c, s, x, d)
    requires Progress.Settled(s) && x in s.first
    ensures TheAnswer(s.outbox, x, s.first[x], m) && Verdict(c, s, x, d, s.first[x], m)
  {
    var f := s.first[x];
    assert ThreadOk(s, TimerOf(f)) && s.threads[TimerOf(f)].pc.Done?;
    var k :| 0 <= k < |s.outbox| && s.outbox[k].sender == TimerOf(f);
    m := s.outbox[k];
    assert Verdict(c, s, x, d, f, m);
    forall m' | m' in s.outbox && (m'.call == f || IsPayload(m', x)) ensures m' == m {
      var i :| 0 <= i < |s.outbox| && s.outbox[i] == m';
      PayloadIsAnswer(c, s, x, d, i);
    }
  }

  lemma PayloadIsAnswer(c: Config, s: State, x: OtpId, d: DeviceId, i: nat)
    requires Safe(s, x, false) && Lone(c, s, x, d) && x in s.first && i < |s.outbox|
    ensures IsPayload(s.outbox[i], x) ==> s.outbox[i].call == s.first[x]
  {
    if IsPayload(s.outbox[i], x) {
      assert Chosen(s, x, false, s.outbox[i].sender, s.outbox[i].call) && Verdict(c, s, x, d, s.first[x], s.outbox[i]);
    }
  }
}
