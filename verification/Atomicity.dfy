/**
  How far reloading the row makes a delivery atomic with respect to the row's expiry and status.
  The callback reads the row, looks at the clock, and only then writes; the write is
  unconditional.  Here is exactly when, over all runs, that write still lands in time, still lands
  on a pending row, and when a row that is claimed stays as it is.
 */
module Atomicity {
  import opened Types
  import opened Protocol
  import opened Lifecycle
  import opened Provenance
  import opened Delivery
  import opened Sharpness
  import opened ExactBound

  /** A callback of `x` has checked row and clock, and is about to write `claimed`. */
  ghost predicate Landing(s: State, t: Tid, x: OtpId) {
    t in s.threads && s.threads[t].otp == x && s.threads[t].pc.Marking?
  }

  ghost predicate Has(s: State, x: OtpId, status: Status) {
    x in s.rows && s.rows[x].status == status
  }

  // ---- What the sweep leaves behind ---------------------------------------------------

  /** A row that the thread saw pending, and that is now expired, was swept: its time is up. */
  ghost predicate SweptSince(s: State, th: Thread) {
    (th.pc.Checking? || th.pc.Locking? || th.pc.Rechecking? || th.pc.Marking?)
    && th.pc.row.status == Pending && Has(s, th.otp, Expired)
    ==> s.rows[th.otp].expiresAt <= s.now
  }

  ghost predicate AllSwept(s: State) {
    forall t {:trigger SweptSince(s, s.threads[t])} | t in s.threads :: SweptSince(s, s.threads[t])
  }

  /** A handler never writes `expired`. */
  lemma NoExpiredWrite(s: State, t: Tid, ok: bool, x: OtpId)
    requires t in s.threads
    ensures var s' := StepThread(s, t, ok);
            Has(s', x, Expired) ==> x in s.rows && s'.rows[x] == s.rows[x]
  {
  }

  lemma SweptStays(s: State, t: Tid, ok: bool, th: Thread)
    requires t in s.threads && SweptSince(s, th)
    ensures SweptSince(StepThread(s, t, ok), th)
  {
    NoExpiredWrite(s, t, ok, th.otp);
  }

  lemma MovedSwept(s: State, t: Tid, ok: bool)
    requires t in s.threads && ThreadOk(s, t) && Local(s.threads[t].pc) && SweptSince(s, s.threads[t])
    ensures SweptSince(LocalStep(s, t, s.threads[t], ok), LocalStep(s, t, s.threads[t], ok).threads[t])
  {
  }

  lemma StepSwept(s: State, t: Tid, ok: bool, u: Tid)
    requires WellFormed(s) && AllSwept(s) && t in s.threads && Runnable(s.threads[t].pc)
    requires u in StepThread(s, t, ok).threads
    ensures SweptSince(StepThread(s, t, ok), StepThread(s, t, ok).threads[u])
  {
    var s' := StepThread(s, t, ok);
    assert ThreadOk(s, t);
    if u in s.threads && s'.threads[u] == s.threads[u] {
      SweptStays(s, t, ok, s.threads[u]);
    } else if Local(s.threads[t].pc) {
      assert SweptSince(s, s.threads[t]);
      MovedSwept(s, t, ok);
    } else {
      LockedSeesNothing(s, t, ok, u);
    }
  }

  /** A locked section leaves the threads it moves without a row in hand. */
  lemma LockedSeesNothing(s: State, t: Tid, ok: bool, u: Tid)
    requires t in s.threads && ThreadOk(s, t) && Runnable(s.threads[t].pc) && !Local(s.threads[t].pc)
    requires u in StepThread(s, t, ok).threads
    ensures (u in s.threads && StepThread(s, t, ok).threads[u] == s.threads[u])
            || SweptSince(StepThread(s, t, ok), StepThread(s, t, ok).threads[u])
  {
  }

  lemma NextSwept(c: Config, s: State, e: Event)
    requires WellFormed(s) && AllSwept(s) && Enabled(c, s, e)
    ensures AllSwept(Next(c, s, e))
  {
    var s' := Next(c, s, e);
    forall u | u in s'.threads ensures SweptSince(s', s'.threads[u]) {
      if e.Step? {
        StepSwept(s, e.tid, e.ok, u);
      } else if u in s.threads {
        assert SweptSince(s, s.threads[u]);
      }
    }
  }

  lemma {:induction false} RunSwept(c: Config, rule: Rule, s: State, es: seq<Event>)
    requires WellFormed(s) && AllSwept(s) && IsRun(c, rule, s, es)
    ensures AllSwept(Final(c, s, es))
    decreases es
  {
    if es != [] {
      NextSwept(c, s, es[0]);
      StepKeeps(c, s, es[0]);
      RunSwept(c, rule, Next(c, s, es[0]), es[1..]);
    }
  }

  // ---- A short life leaves no time to deliver ----------------------------------------------

  lemma NoTimeToMark(c: Config, s: State, t: Tid, x: OtpId)
    requires c.ttl <= c.window && Sound(c, s) && Spread(c, s, x) && TableOk(c, s)
    ensures !Landing(s, t, x)
  {
    if Landing(s, t, x) {
      MarkedAfterWindow(c, s, t, x);
    }
  }

  /** A callback that is about to write had held its OTP for a whole window, and found it alive. */
  lemma MarkedAfterWindow(c: Config, s: State, t: Tid, x: OtpId)
    requires Sound(c, s) && Spread(c, s, x) && TableOk(c, s) && Landing(s, t, x)
    ensures x in s.rows && s.rows[x].expiresAt == s.rows[x].createdAt + c.ttl
    ensures s.rows[x].createdAt + c.window <= s.threads[t].pc.checkedAt < s.rows[x].expiresAt
    ensures s.threads[t].pc.since <= s.threads[t].pc.checkedAt <= s.now
  {
    assert ThreadOk(s, t) && PcGrounded(c, s, t, s.threads[t]);
    assert Late(c, s, x, t.window);
    assert RowOk(c, s.rows[x]);
  }

  // ---- Landing in time ---------------------------------------------------------------

  /** Over all runs, no write that delivers lands on a row swept to `expired`. */
  ghost predicate NeverOntoExpired(c: Config) {
    forall s, es, t, x | Restarted(c, s) && IsRun(c, Timed, s, es) && Landing(Final(c, s, es), t, x) ::
      !Has(Final(c, s, es), x, Expired)
  }

  /** Over all runs, every write that delivers lands before the expiry, by the clock. */
  ghost predicate AlwaysBeforeExpiry(c: Config) {
    forall s, es, t, x | Restarted(c, s) && IsRun(c, Timed, s, es) && Landing(Final(c, s, es), t, x) ::
      x in Final(c, s, es).rows && Final(c, s, es).now < Final(c, s, es).rows[x].expiresAt
  }

  lemma InTime(c: Config, s: State, es: seq<Event>, t: Tid, x: OtpId)
    requires c.Valid() && c.tail == 0
    requires Restarted(c, s) && IsRun(c, Timed, s, es) && Landing(Final(c, s, es), t, x)
    ensures var s' := Final(c, s, es);
            x in s'.rows && s'.now < s'.rows[x].expiresAt && !Has(s', x, Expired)
  {
    var s' := Final(c, s, es);
    RunSpread(c, Timed, s, es, x);
    RunTable(c, Timed, s, es);
    MarkedAfterWindow(c, s', t, x);
    RunPrompt(c, s, es);
    assert OwesWrite(s'.threads[t].pc);
    RunSwept(c, Timed, s, es);
    assert SweptSince(s', s'.threads[t]) && PcGrounded(c, s', t, s'.threads[t]);
  }

  /** The clock passes the expiry, and the janitor sweeps, between the check and the write; the
      write then turns the expired row into a claimed one, and the payload is sent. */
  lemma ExpiresBeforeWrite(c: Config) returns (es: seq<Event>, es': seq<Event>)
    requires 0 < c.window < c.ttl && 0 < c.tail
    ensures Restarted(c, Start()) && IsRun(c, Timed, Start(), es) && IsRun(c, Timed, Final(c, Start(), es), es')
    ensures var s := Final(c, Start(), es);
            && Landing(s, TimerOf(0), X) && Has(s, X, Expired) && s.rows[X].expiresAt <= s.now
    ensures var s' := Final(c, Final(c, Start(), es), es');
            Has(s', X, Claimed) && s'.rows[X].claimedBy == Some("a") && s'.outbox == [Paid("a", 0, 0, c.ttl - 1)]
  {
    var s, s';
    es, s := CheckedLate(c);
    es, s := Do(c, Start(), es, s, Tick(c.ttl));
    es, s := Do(c, Start(), es, s, Sweep);
    es', s' := Deliver(c, s, [], s, 0, X, Marking(Claimant("a", 0), c.ttl - 1, RowX(c), c.ttl - 1));
  }

  /** The callback checks in the last instant before the expiry. */
  lemma CheckedLate(c: Config) returns (es: seq<Event>, s: State)
    requires 0 < c.window < c.ttl
    ensures IsRun(c, Timed, Start(), es) && s == Final(c, Start(), es)
    ensures s.now == c.ttl - 1 && s.rows == map[X := RowX(c)] && s.outbox == []
    ensures PcIs(s, TimerOf(0), "a", Marking(Claimant("a", 0), c.ttl - 1, RowX(c), c.ttl - 1))
    ensures forall t | t in s.threads && t != TimerOf(0) :: !OwesWrite(s.threads[t].pc)
  {
    es, s := ReachAFired(c);
    es, s := Do(c, Start(), es, s, Tick(c.ttl - 1));
    es, s := Check(c, Start(), es, s, 0, 0, "a", X);
  }

  /** The exact condition for either: handlers write in the very instant in which they left the
      lock, or no OTP lives long enough to be delivered. */
  lemma InTimeIffPrompt(c: Config)
    requires 0 < c.window && 30_000 <= c.ttl && 0 <= c.tail
    ensures NeverOntoExpired(c) <==> c.tail == 0 || c.ttl <= c.window
    ensures AlwaysBeforeExpiry(c) <==> c.tail == 0 || c.ttl <= c.window
  {
    if c.ttl <= c.window {
      forall s, es, t, x | Restarted(c, s) && IsRun(c, Timed, s, es) ensures !Landing(Final(c, s, es), t, x) {
        NeverLands(c, Timed, s, es, t, x);
      }
    } else if c.tail == 0 {
      forall s, es, t, x | Restarted(c, s) && IsRun(c, Timed, s, es) && Landing(Final(c, s, es), t, x)
        ensures var s' := Final(c, s, es);
                x in s'.rows && s'.now < s'.rows[x].expiresAt && !Has(s', x, Expired)
      {
        InTime(c, s, es, t, x);
      }
    } else {
      var es, es' := ExpiresBeforeWrite(c);
    }
  }

  // ---- Landing on a pending row ----------------------------------------------------------

  /** Over all runs, every write that delivers lands on a row that is still pending. */
  ghost predicate AlwaysOntoPending(c: Config) {
    forall s, es, t, x | Restarted(c, s) && IsRun(c, Timed, s, es) && Landing(Final(c, s, es), t, x) ::
      Has(Final(c, s, es), x, Pending)
  }

  /** The write of a dual claim lands between the check and the write of a callback. */
  lemma InvalidatedBeforeWrite(c: Config) returns (es: seq<Event>)
    requires 0 < c.window < c.ttl
    ensures Restarted(c, Start()) && IsRun(c, Timed, Start(), es)
    ensures Landing(Final(c, Start(), es), TimerOf(0), X) && Has(Final(c, Start(), es), X, Invalidated)
  {
    var s;
    es, s := ReachAFired(c);
    es, s := Kill(c, es, s);
    es, s := Reopen(c, es, s);
    es, s := Check(c, Start(), es, s, 0, 2, "b", X);
    es, s := Do(c, Start(), es, s, Step(CallOf(1), true));
  }

  /** However prompt the handlers are, the row may have been decided in between, unless no OTP lives
      long enough to be delivered. */
  lemma OntoPendingIffShort(c: Config)
    requires 0 < c.window && 30_000 <= c.ttl && 0 <= c.tail
    ensures AlwaysOntoPending(c) <==> c.ttl <= c.window
  {
    if c.ttl <= c.window {
      forall s, es, t, x | Restarted(c, s) && IsRun(c, Timed, s, es) ensures !Landing(Final(c, s, es), t, x) {
        NeverLands(c, Timed, s, es, t, x);
      }
    } else {
      var es := InvalidatedBeforeWrite(c);
    }
  }

  lemma NeverLands(c: Config, rule: Rule, s: State, es: seq<Event>, t: Tid, x: OtpId)
    requires c.ttl <= c.window && Restarted(c, s) && IsRun(c, rule, s, es)
    ensures !Landing(Final(c, s, es), t, x)
  {
    RunSpread(c, rule, s, es, x);
    RunTable(c, rule, s, es);
    NoTimeToMark(c, Final(c, s, es), t, x);
  }

  // ---- Claimed rows -------------------------------------------------------------------------

  /** No handler of `x` is on its way to a window or to a write. */
  ghost predicate Idle(th: Thread, x: OtpId) {
    th.otp == x ==>
      && !OwesWrite(th.pc) && !th.pc.Locking?
      && (th.pc.Checking? ==> th.pc.row.status == Claimed)
  }

  /** `x` is claimed, and nothing in memory can change that. */
  ghost predicate Shut(s: State, x: OtpId) {
    && Has(s, x, Claimed) && x !in s.pending
    && forall t {:trigger Idle(s.threads[t], x)} | t in s.threads :: Idle(s.threads[t], x)
  }

  lemma ShutStep(s: State, t: Tid, ok: bool, x: OtpId)
    requires Shut(s, x) && t in s.threads && ThreadOk(s, t) && Runnable(s.threads[t].pc)
    ensures Shut(StepThread(s, t, ok), x) && StepThread(s, t, ok).rows[x] == s.rows[x]
  {
    var s' := StepThread(s, t, ok);
    assert Idle(s.threads[t], x);
    forall u | u in s'.threads ensures Idle(s'.threads[u], x) {
      if u in s.threads { assert Idle(s.threads[u], x); }
      IdleStep(s, t, ok, u, x);
    }
  }

  lemma IdleStep(s: State, t: Tid, ok: bool, u: Tid, x: OtpId)
    requires Has(s, x, Claimed) && x !in s.pending
    requires t in s.threads && ThreadOk(s, t) && Runnable(s.threads[t].pc) && Idle(s.threads[t], x)
    requires u in StepThread(s, t, ok).threads && (u in s.threads ==> Idle(s.threads[u], x))
    ensures Idle(StepThread(s, t, ok).threads[u], x)
  {
    if t.CallOf? && s.threads[t].pc.Locking? {
      IdleClaim(s, t.call, u, x);
    } else if t.TimerOf? && s.threads[t].pc.Fired? {
      IdleResolve(s, t.window, u, x);
    } else if u == t {
      IdleLocal(s, t, ok, x);
    }
  }

  lemma IdleLocal(s: State, t: Tid, ok: bool, x: OtpId)
    requires Has(s, x, Claimed) && t in s.threads && ThreadOk(s, t) && Local(s.threads[t].pc) && Idle(s.threads[t], x)
    ensures Idle(LocalStep(s, t, s.threads[t], ok).threads[t], x)
  {
  }

  lemma IdleClaim(s: State, h: CallId, u: Tid, x: OtpId)
    requires CallOf(h) in s.threads && s.threads[CallOf(h)].pc.Locking? && s.threads[CallOf(h)].otp != x
    requires u in ClaimLocked(s, h, s.threads[CallOf(h)]).threads && (u in s.threads ==> Idle(s.threads[u], x))
    ensures Idle(ClaimLocked(s, h, s.threads[CallOf(h)]).threads[u], x)
  {
  }

  lemma IdleResolve(s: State, w: CallId, u: Tid, x: OtpId)
    requires TimerOf(w) in s.threads && x !in s.pending
    requires u in ResolveLocked(s, w, s.threads[TimerOf(w)]).threads && (u in s.threads ==> Idle(s.threads[u], x))
    ensures Idle(ResolveLocked(s, w, s.threads[TimerOf(w)]).threads[u], x)
  {
  }

  lemma ShutStays(c: Config, s: State, e: Event, x: OtpId)
    requires WellFormed(s) && Shut(s, x) && Enabled(c, s, e)
    ensures Shut(Next(c, s, e), x) && Next(c, s, e).rows[x] == s.rows[x]
  {
    if e.Step? {
      assert ThreadOk(s, e.tid);
      ShutStep(s, e.tid, e.ok, x);
    } else {
      var s' := Next(c, s, e);
      forall u | u in s'.threads ensures Idle(s'.threads[u], x) {
        if u in s.threads { assert Idle(s.threads[u], x); }
      }
    }
  }

  lemma {:induction false} ShutForGood(c: Config, rule: Rule, s: State, es: seq<Event>, x: OtpId)
    requires WellFormed(s) && Shut(s, x) && IsRun(c, rule, s, es)
    ensures Shut(Final(c, s, es), x) && Final(c, s, es).rows[x] == s.rows[x]
    decreases es
  {
    if es != [] {
      ShutStays(c, s, es[0], x);
      StepKeeps(c, s, es[0]);
      ShutForGood(c, rule, Next(c, s, es[0]), es[1..], x);
    }
  }

  /** Only a delivering write makes a row claimed. */
  lemma ClaimedByWrite(c: Config, s: State, e: Event, x: OtpId)
    requires Enabled(c, s, e) && Has(Next(c, s, e), x, Claimed)
    ensures Has(s, x, Claimed) || (e.Step? && Landing(s, e.tid, x))
  {
  }

  lemma {:induction false} ClaimedFromStart(c: Config, rule: Rule, s: State, es: seq<Event>, x: OtpId)
    requires c.ttl <= c.window && Sound(c, s) && Spread(c, s, x) && TableOk(c, s) && IsRun(c, rule, s, es)
    requires Has(Final(c, s, es), x, Claimed)
    ensures Has(s, x, Claimed)
    decreases es
  {
    if es != [] {
      var e := es[0];
      NextSpread(c, s, e, x);
      StepKeeps(c, s, e);
      NextGrounded(c, s, e);
      TableStays(c, s, e);
      ClaimedFromStart(c, rule, Next(c, s, e), es[1..], x);
      ClaimedByWrite(c, s, e, x);
      if e.Step? {
        NoTimeToMark(c, s, e.tid, x);
      }
    }
  }

  /** Over all runs and continuations, a row that is claimed stays exactly as it is. */
  ghost predicate ClaimedAbsorbs(c: Config) {
    forall s, es, es', x |
      Restarted(c, s) && IsRun(c, Timed, s, es) && Has(Final(c, s, es), x, Claimed) && IsRun(c, Timed, Final(c, s, es), es') ::
      x in Final(c, Final(c, s, es), es').rows && Final(c, Final(c, s, es), es').rows[x] == Final(c, s, es).rows[x]
  }

  lemma ClaimedStays(c: Config, rule: Rule, s: State, es: seq<Event>, es': seq<Event>, x: OtpId)
    requires c.ttl <= c.window && Restarted(c, s) && IsRun(c, rule, s, es) && Has(Final(c, s, es), x, Claimed)
    requires IsRun(c, rule, Final(c, s, es), es')
    ensures var s2 := Final(c, Final(c, s, es), es'); x in s2.rows && s2.rows[x] == Final(c, s, es).rows[x]
  {
    ClaimedFromStart(c, rule, s, es, x);
    assert Shut(s, x);
    ShutForGood(c, rule, s, es, x);
    RunSound(c, rule, s, es);
    ShutForGood(c, rule, Final(c, s, es), es', x);
  }

  /** Between handlers, claimed is absorbing exactly when nothing can become claimed. */
  lemma ClaimedAbsorbsIffShort(c: Config)
    requires 0 < c.window && 30_000 <= c.ttl && 0 <= c.tail
    ensures ClaimedAbsorbs(c) <==> c.ttl <= c.window
  {
    if c.ttl <= c.window {
      forall s, es, es', x |
        Restarted(c, s) && IsRun(c, Timed, s, es) && Has(Final(c, s, es), x, Claimed) && IsRun(c, Timed, Final(c, s, es), es')
        ensures x in Final(c, Final(c, s, es), es').rows && Final(c, Final(c, s, es), es').rows[x] == Final(c, s, es).rows[x]
      {
        ClaimedStays(c, Timed, s, es, es', x);
      }
    } else {
      var es, es' := DualClaimDelivers(c);
      assert Restarted(c, Start());
      assert Has(Final(c, Start(), es), X, Claimed);
    }
  }
}
