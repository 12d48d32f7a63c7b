/**
  For a single claimed row: exactly which handlers in flight, or which open window, can still
  change it.
 */
module ClaimedRows {
  import opened Types
  import opened Tables
  import opened Protocol
  import opened Lifecycle
  import opened Provenance
  import opened Delivery
  import opened Sharpness
  import opened Atomicity

  /** Call `t` saw the row of `x` pending, and can still enter the locked section on that account. */
  ghost predicate InFlight(s: State, x: OtpId, t: Tid) {
    && t in s.threads && t.CallOf? && s.threads[t].otp == x
    && (s.threads[t].pc.Locking?
        || (s.threads[t].pc.Checking? && s.threads[t].pc.row.status == Pending && s.now < s.threads[t].pc.row.expiresAt))
  }

  /** Device `d` holds the open window of `x`, or has such a call in flight. */
  ghost predicate Contends(s: State, x: OtpId, d: DeviceId) {
    || (x in s.pending && HasClaimed(s.pending[x].claimants, d))
    || exists t :: InFlight(s, x, t) && s.threads[t].device == d
  }

  /** A dual claim owes its write, or can still come about. */
  ghost predicate MayChange(s: State, x: OtpId) {
    || (exists t :: t in s.threads && s.threads[t].otp == x && s.threads[t].pc.Invalidating?)
    || (exists d, d' :: d != d' && Contends(s, x, d) && Contends(s, x, d'))
  }

  ghost predicate NeverChanges(c: Config, s: State, x: OtpId)
    requires x in s.rows
  {
    forall es | IsRun(c, Timed, s, es) :: SameRow(s, Final(c, s, es), x)
  }

  ghost predicate SameRow(s: State, s': State, x: OtpId) {
    x in s.rows && x in s'.rows && s'.rows[x] == s.rows[x]
  }

  // ---- A claimed row is not claimed again ---------------------------------------------

  ghost predicate Spent(s: State, x: OtpId, th: Thread) {
    th.otp == x ==> !th.pc.Marking? && (th.pc.Rechecking? ==> Dead(th.pc.row, s.now))
  }

  /** No callback of `x` is about to write `claimed`, nor can come to it from the row it has in hand. */
  ghost predicate Unmarked(s: State, x: OtpId) {
    forall t {:trigger Spent(s, x, s.threads[t])} | t in s.threads :: Spent(s, x, s.threads[t])
  }

  lemma LocalSpent(s: State, t: Tid, ok: bool, x: OtpId)
    requires RowDead(s, x) && t in s.threads && ThreadOk(s, t) && Local(s.threads[t].pc) && Spent(s, x, s.threads[t])
    ensures Spent(LocalStep(s, t, s.threads[t], ok), x, LocalStep(s, t, s.threads[t], ok).threads[t])
  {
  }

  lemma LockedSpent(s: State, t: Tid, ok: bool, u: Tid, x: OtpId)
    requires t in s.threads && ThreadOk(s, t) && Runnable(s.threads[t].pc) && !Local(s.threads[t].pc)
    requires u in StepThread(s, t, ok).threads && (u in s.threads ==> Spent(s, x, s.threads[u]))
    ensures Spent(StepThread(s, t, ok), x, StepThread(s, t, ok).threads[u])
  {
  }

  lemma StepUnmarked(s: State, t: Tid, ok: bool, x: OtpId)
    requires WellFormed(s) && RowDead(s, x) && Unmarked(s, x) && t in s.threads && Runnable(s.threads[t].pc)
    ensures Unmarked(StepThread(s, t, ok), x)
  {
    var s' := StepThread(s, t, ok);
    assert ThreadOk(s, t);
    forall u | u in s'.threads ensures Spent(s', x, s'.threads[u]) {
      assert u in s.threads ==> Spent(s, x, s.threads[u]);
      if !Local(s.threads[t].pc) {
        LockedSpent(s, t, ok, u, x);
      } else if u == t {
        LocalSpent(s, t, ok, x);
      }
    }
  }

  lemma SharedUnmarked(c: Config, s: State, e: Event, x: OtpId)
    requires Unmarked(s, x) && Enabled(c, s, e) && !e.Step?
    ensures Unmarked(Next(c, s, e), x)
  {
    var s' := Next(c, s, e);
    forall u | u in s'.threads ensures Spent(s', x, s'.threads[u]) {
      assert u in s.threads ==> Spent(s, x, s.threads[u]);
    }
  }

  /** The write that claims the row is that of the only callback which ever could. */
  lemma JustClaimed(c: Config, s: State, t: Tid, x: OtpId)
    requires Sound(c, s) && Safe(s, x, false) && t in s.threads && Landing(s, t, x)
    ensures Unmarked(StepThread(s, t, true), x)
  {
    var s' := StepThread(s, t, true);
    assert PcSafe(s, x, false, t, s.threads[t]) && ThreadOk(s, t);
    forall u | u in s'.threads ensures Spent(s', x, s'.threads[u]) {
      if u != t {
        assert PcSafe(s, x, false, u, s.threads[u]);
      }
    }
  }

  ghost predicate OnceClaimed(s: State, x: OtpId) {
    Has(s, x, Claimed) ==> Unmarked(s, x)
  }

  lemma NextOnceClaimed(c: Config, s: State, e: Event, x: OtpId)
    requires Sound(c, s) && Safe(s, x, false) && OnceClaimed(s, x) && Enabled(c, s, e) && CallsSucceed(e)
    ensures OnceClaimed(Next(c, s, e), x)
  {
    if Has(Next(c, s, e), x, Claimed) {
      ClaimedByWrite(c, s, e, x);
      if !Has(s, x, Claimed) {
        JustClaimed(c, s, e.tid, x);
      } else if e.Step? {
        StepUnmarked(s, e.tid, e.ok, x);
      } else {
        SharedUnmarked(c, s, e, x);
      }
    }
  }

  lemma {:induction false} RunOnceClaimed(c: Config, s: State, es: seq<Event>, x: OtpId)
    requires c.Valid() && Sound(c, s) && Safe(s, x, false) && Prompt(c, s) && OnceClaimed(s, x) && IsRun(c, Timed, s, es)
    ensures OnceClaimed(Final(c, s, es), x)
    decreases es
  {
    if es != [] {
      var e := es[0];
      NextOnceClaimed(c, s, e, x);
      TimedTakesDead(c, s, e, x);
      StepSafe(c, s, e, x, false);
      PromptStays(c, s, e);
      StepKeeps(c, s, e);
      NextGrounded(c, s, e);
      RunOnceClaimed(c, Next(c, s, e), es[1..], x);
    }
  }

  // ---- One contender leaves the row alone ------------------------------------------------

  ghost predicate OfOne(s: State, x: OtpId, d: DeviceId, t: Tid) {
    t in s.threads && s.threads[t].otp == x ==>
      !s.threads[t].pc.Invalidating? && (InFlight(s, x, t) ==> s.threads[t].device == d)
  }

  /** No write is owed, and only `d` contends. */
  ghost predicate Calm(s: State, x: OtpId, d: DeviceId) {
    && (forall t {:trigger OfOne(s, x, d, t)} :: OfOne(s, x, d, t))
    && (x in s.pending ==> HasClaimed(s.pending[x].claimants, d))
  }

  lemma CalmLocal(s: State, x: OtpId, d: DeviceId, t: Tid, u: Tid)
    requires Has(s, x, Claimed) && Calm(s, x, d) && t in s.threads && ThreadOk(s, t) && Local(s.threads[t].pc)
    ensures OfOne(StepThread(s, t, true), x, d, u)
  {
    assert OfOne(s, x, d, t) && OfOne(s, x, d, u);
  }

  lemma CalmClaim(s: State, x: OtpId, d: DeviceId, h: CallId, u: Tid)
    requires WellFormed(s) && Calm(s, x, d) && CallOf(h) in s.threads && s.threads[CallOf(h)].pc.Locking?
    ensures var s' := ClaimLocked(s, h, s.threads[CallOf(h)]);
            OfOne(s', x, d, u) && (x in s'.pending ==> HasClaimed(s'.pending[x].claimants, d))
  {
    assert OfOne(s, x, d, CallOf(h)) && OfOne(s, x, d, u);
    if s.threads[CallOf(h)].otp == x {
      assert InFlight(s, x, CallOf(h));
      if x !in s.pending {
        assert [Claimant(d, h)][0].device == d;
      }
    }
  }

  lemma CalmResolve(s: State, x: OtpId, d: DeviceId, w: CallId, u: Tid)
    requires WellFormed(s) && Calm(s, x, d) && TimerOf(w) in s.threads && s.threads[TimerOf(w)].pc.Fired?
    ensures var s' := ResolveLocked(s, w, s.threads[TimerOf(w)]);
            OfOne(s', x, d, u) && (x in s'.pending ==> x in s.pending && s'.pending[x] == s.pending[x])
  {
    var y := s.threads[TimerOf(w)].otp;
    assert OfOne(s, x, d, u);
    if y in s.pending {
      assert EntryOk(s, y) && |s.pending[y].claimants| == 1;
    }
  }

  lemma CalmStep(s: State, x: OtpId, d: DeviceId, t: Tid)
    requires WellFormed(s) && Has(s, x, Claimed) && Calm(s, x, d) && t in s.threads && Runnable(s.threads[t].pc)
    ensures Calm(StepThread(s, t, true), x, d)
  {
    var s' := StepThread(s, t, true);
    assert ThreadOk(s, t);
    forall u ensures OfOne(s', x, d, u) && (x in s'.pending ==> HasClaimed(s'.pending[x].claimants, d)) {
      if s.threads[t].pc.Locking? {
        CalmClaim(s, x, d, t.call, u);
      } else if s.threads[t].pc.Fired? {
        CalmResolve(s, x, d, t.window, u);
      } else {
        CalmLocal(s, x, d, t, u);
      }
    }
    assert OfOne(s', x, d, t);
  }

  lemma CalmShared(c: Config, s: State, e: Event, x: OtpId, d: DeviceId)
    requires Calm(s, x, d) && Enabled(c, s, e) && !e.Step?
    ensures Calm(Next(c, s, e), x, d)
  {
    var s' := Next(c, s, e);
    forall u ensures OfOne(s', x, d, u) {
      assert OfOne(s, x, d, u);
    }
  }

  /** With only one contender and nothing about to write, the row stays. */
  lemma CalmRow(c: Config, s: State, e: Event, x: OtpId, d: DeviceId)
    requires Has(s, x, Claimed) && Unmarked(s, x) && Calm(s, x, d) && Enabled(c, s, e)
    ensures SameRow(s, Next(c, s, e), x)
  {
    if e.Step? {
      assert Spent(s, x, s.threads[e.tid]) && OfOne(s, x, d, e.tid);
    }
  }

  lemma {:induction false} CalmForGood(c: Config, s: State, es: seq<Event>, x: OtpId, d: DeviceId)
    requires WellFormed(s) && Has(s, x, Claimed) && Unmarked(s, x) && Calm(s, x, d) && IsRun(c, Timed, s, es)
    ensures SameRow(s, Final(c, s, es), x)
    decreases es
  {
    if es != [] {
      var e := es[0];
      CalmRow(c, s, e, x, d);
      StepKeeps(c, s, e);
      if e.Step? {
        CalmStep(s, x, d, e.tid);
        StepUnmarked(s, e.tid, e.ok, x);
      } else {
        CalmShared(c, s, e, x, d);
        SharedUnmarked(c, s, e, x);
      }
      CalmForGood(c, Next(c, s, e), es[1..], x, d);
    }
  }

  lemma CalmUnlessMayChange(s: State, x: OtpId) returns (d: DeviceId)
    requires WellFormed(s) && !MayChange(s, x)
    ensures Calm(s, x, d)
  {
    if x in s.pending {
      assert EntryOk(s, x);
      d := s.pending[x].claimants[0].device;
      assert Contends(s, x, d);
    } else if t :| InFlight(s, x, t) {
      d := s.threads[t].device;
      assert Contends(s, x, d);
    } else {
      d := "";
    }
    forall t ensures OfOne(s, x, d, t) {
      if InFlight(s, x, t) {
        assert Contends(s, x, s.threads[t].device);
      }
    }
  }

  // ---- Two contenders change it ------------------------------------------------------------

  lemma WriteChanges(c: Config, start: State, es: seq<Event>, s: State, t: Tid, x: OtpId) returns (es': seq<Event>)
    requires IsRun(c, Timed, start, es) && s == Final(c, start, es)
    requires t in s.threads && s.threads[t].otp == x && s.threads[t].pc.Invalidating? && x in s.rows
    ensures IsRun(c, Timed, start, es') && Has(Final(c, start, es'), x, Invalidated)
  {
    var s';
    es', s' := Do(c, start, es, s, Step(t, true));
  }

  /** A call in flight enters the locked section. */
  lemma Enters(c: Config, start: State, es: seq<Event>, s: State, t: Tid, x: OtpId) returns (es': seq<Event>, s': State)
    requires IsRun(c, Timed, start, es) && s == Final(c, start, es) && InFlight(s, x, t)
    ensures IsRun(c, Timed, start, es') && s' == Final(c, start, es') && s'.now == s.now && s'.rows == s.rows
    ensures s'.pending == s.pending && s'.threads.Keys == s.threads.Keys
    ensures s'.threads[t].otp == x && s'.threads[t].device == s.threads[t].device && s'.threads[t].pc.Locking?
    ensures forall u | u in s.threads && u != t :: s'.threads[u] == s.threads[u]
  {
    if s.threads[t].pc.Locking? {
      es', s' := es, s;
    } else {
      es', s' := Do(c, start, es, s, Step(t, true));
    }
  }

  lemma RivalChanges(c: Config, start: State, es: seq<Event>, s: State, t: Tid, x: OtpId) returns (es': seq<Event>)
    requires IsRun(c, Timed, start, es) && s == Final(c, start, es) && InFlight(s, x, t) && x in s.rows
    requires x in s.pending && !HasClaimed(s.pending[x].claimants, s.threads[t].device)
    ensures IsRun(c, Timed, start, es') && Has(Final(c, start, es'), x, Invalidated)
  {
    var s';
    es', s' := Enters(c, start, es, s, t, x);
    es', s' := Do(c, start, es', s', Step(t, true));
    es' := WriteChanges(c, start, es', s', t, x);
  }

  lemma TwoChange(c: Config, s: State, t: Tid, u: Tid, x: OtpId) returns (es: seq<Event>)
    requires InFlight(s, x, t) && InFlight(s, x, u) && s.threads[t].device != s.threads[u].device
    requires x in s.rows && x !in s.pending && TimerOf(t.call) !in s.threads
    ensures IsRun(c, Timed, s, es) && Has(Final(c, s, es), x, Invalidated)
  {
    var s';
    es, s' := Enters(c, s, [], s, t, x);
    es, s' := Do(c, s, es, s', Step(t, true));
    assert s'.pending[x].claimants == [Claimant(s.threads[t].device, t.call)];
    assert InFlight(s', x, u) && s'.threads[u].device == s.threads[u].device;
    es := RivalChanges(c, s, es, s', u, x);
  }

  lemma Changes(c: Config, s: State, x: OtpId) returns (es: seq<Event>)
    requires WellFormed(s) && x in s.rows && MayChange(s, x)
    ensures IsRun(c, Timed, s, es) && Has(Final(c, s, es), x, Invalidated)
  {
    if t :| t in s.threads && s.threads[t].otp == x && s.threads[t].pc.Invalidating? {
      es := WriteChanges(c, s, [], s, t, x);
    } else {
      var d, d' :| d != d' && Contends(s, x, d) && Contends(s, x, d');
      if x in s.pending {
        var e := if HasClaimed(s.pending[x].claimants, d) then d' else d;
        OneHolder(s, x, d, d');
        var t :| InFlight(s, x, t) && s.threads[t].device == e;
        es := RivalChanges(c, s, [], s, t, x);
      } else {
        var t :| InFlight(s, x, t) && s.threads[t].device == d;
        var u :| InFlight(s, x, u) && s.threads[u].device == d';
        NoTimerOf(s, t);
        es := TwoChange(c, s, t, u, x);
      }
    }
  }

  lemma OneHolder(s: State, x: OtpId, d: DeviceId, d': DeviceId)
    requires WellFormed(s) && x in s.pending && d != d'
    ensures !(HasClaimed(s.pending[x].claimants, d) && HasClaimed(s.pending[x].claimants, d'))
  {
    assert EntryOk(s, x);
  }

  lemma NoTimerOf(s: State, t: Tid)
    requires WellFormed(s) && t in s.threads && t.CallOf? && !s.threads[t].pc.Opened?
    ensures TimerOf(t.call) !in s.threads
  {
    assert ThreadOk(s, t);
    assert TimerOf(t.call) in s.threads ==> ThreadOk(s, TimerOf(t.call));
  }

  // ---- Exactly when ------------------------------------------------------------------------

  /** Exactly when a claimed row stays as it is in all that can follow: when no dual claim owes its
      write, and no two devices hold its window or have calls in flight that saw it pending. */
  lemma ClaimedStaysExactly(c: Config, s: State, es: seq<Event>, x: OtpId)
    requires c.Valid() && Initial(s) && IsRun(c, Timed, s, es) && Has(Final(c, s, es), x, Claimed)
    ensures NeverChanges(c, Final(c, s, es), x) <==> !MayChange(Final(c, s, es), x)
  {
    RunSafeAndPrompt(c, s, es, x);
    RunOnceClaimed(c, s, es, x);
    var s1 := Final(c, s, es);
    if MayChange(s1, x) {
      var es' := Changes(c, s1, x);
      assert !SameRow(s1, Final(c, s1, es'), x);
    } else {
      var d := CalmUnlessMayChange(s1, x);
      forall es' | IsRun(c, Timed, s1, es') ensures SameRow(s1, Final(c, s1, es'), x) {
        CalmForGood(c, s1, es', x, d);
      }
    }
  }
}
