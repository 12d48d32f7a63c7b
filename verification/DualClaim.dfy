/**
  Exactly when a dual claim of the first window keeps the payload back.  From then on a device,
  whichever it is, is never sent the payload if and only if the window's timer could still be
  stopped, or the row could no longer be delivered.
 */
module DualClaims {
  import opened Types
  import opened Tables
  import opened Protocol
  import opened Lifecycle
  import opened Provenance
  import opened Delivery
  import opened Sharpness

  /** Call `h`, by a second device, is about to end the open window of `x`. */
  ghost predicate EndsWindow(s: State, h: CallId, x: OtpId) {
    && CallOf(h) in s.threads && s.threads[CallOf(h)].otp == x && s.threads[CallOf(h)].pc.Locking?
    && x in s.pending && !HasClaimed(s.pending[x].claimants, s.threads[CallOf(h)].device)
  }

  /** That window is the first of `x`. */
  ghost predicate EndsFirst(s: State, h: CallId, x: OtpId) {
    EndsWindow(s, h, x) && x in s.first && s.pending[x].window == s.first[x]
  }

  // ---- A dead row stays undelivered ------------------------------------------------

  ghost predicate Unpaying(s: State, x: OtpId, th: Thread) {
    th.otp == x ==>
      && !th.pc.Marking?
      && (th.pc.Rechecking? ==> Dead(th.pc.row, s.now))
      && (th.pc.Sending? ==> forall i :: 0 <= i < |th.pc.mail| ==> !IsPayload(th.pc.mail[i], x))
  }

  /** The row of `x` is dead, and no handler has a payload of `x` in hand. */
  ghost predicate Spoiled(s: State, x: OtpId) {
    && RowDead(s, x)
    && (forall t {:trigger Unpaying(s, x, s.threads[t])} | t in s.threads :: Unpaying(s, x, s.threads[t]))
    && (forall i | 0 <= i < |s.outbox| :: !IsPayload(s.outbox[i], x))
  }

  lemma UnpayingStays(s: State, s': State, x: OtpId, th: Thread)
    requires s.now <= s'.now && Unpaying(s, x, th)
    ensures Unpaying(s', x, th)
  {
  }

  lemma LocalSpoiled(s: State, s': State, t: Tid, ok: bool, x: OtpId)
    requires Spoiled(s, x) && t in s.threads && ThreadOk(s, t) && Local(s.threads[t].pc)
    requires s' == LocalStep(s, t, s.threads[t], ok)
    ensures RowDead(s', x) && Unpaying(s', x, s'.threads[t])
    ensures forall i | 0 <= i < |s'.outbox| :: !IsPayload(s'.outbox[i], x)
  {
    assert Unpaying(s, x, s.threads[t]);
  }

  /** A locked section hands out no payload. */
  lemma LockedUnpaying(s: State, s': State, t: Tid, ok: bool, u: Tid, x: OtpId)
    requires Spoiled(s, x) && t in s.threads && ThreadOk(s, t) && Runnable(s.threads[t].pc) && !Local(s.threads[t].pc)
    requires s' == StepThread(s, t, ok) && u in s'.threads
    ensures Unpaying(s', x, s'.threads[u])
  {
    if u in s.threads {
      assert Unpaying(s, x, s.threads[u]);
    }
  }

  lemma MovedUnpaying(s: State, s': State, t: Tid, ok: bool, u: Tid, x: OtpId)
    requires WellFormed(s) && Spoiled(s, x) && t in s.threads && Runnable(s.threads[t].pc)
    requires s' == StepThread(s, t, ok) && u in s'.threads
    ensures Unpaying(s', x, s'.threads[u])
  {
    assert ThreadOk(s, t);
    if !Local(s.threads[t].pc) {
      LockedUnpaying(s, s', t, ok, u, x);
    } else if u == t {
      LocalSpoiled(s, s', t, ok, x);
    } else {
      UnpayingStays(s, s', x, s.threads[u]);
    }
  }

  lemma StepSpoiled(s: State, t: Tid, ok: bool, x: OtpId)
    requires WellFormed(s) && Spoiled(s, x) && t in s.threads && Runnable(s.threads[t].pc)
    ensures Spoiled(StepThread(s, t, ok), x)
  {
    var s' := StepThread(s, t, ok);
    assert ThreadOk(s, t);
    forall u | u in s'.threads ensures Unpaying(s', x, s'.threads[u]) { MovedUnpaying(s, s', t, ok, u, x); }
    if Local(s.threads[t].pc) {
      LocalSpoiled(s, s', t, ok, x);
    }
  }

  lemma NextSpoiled(c: Config, s: State, e: Event, x: OtpId)
    requires WellFormed(s) && Spoiled(s, x) && Enabled(c, s, e)
    ensures Spoiled(Next(c, s, e), x)
  {
    if e.Step? {
      StepSpoiled(s, e.tid, e.ok, x);
    } else {
      var s' := Next(c, s, e);
      forall u | u in s'.threads ensures Unpaying(s', x, s'.threads[u]) {
        if u in s.threads { UnpayingStays(s, s', x, s.threads[u]); }
      }
    }
  }

  /** Under every rule: once no payload is in hand and the row is dead, none is ever sent. */
  lemma {:induction false} SpoiledForGood(c: Config, rule: Rule, s: State, es: seq<Event>, x: OtpId)
    requires WellFormed(s) && Spoiled(s, x) && IsRun(c, rule, s, es)
    ensures PayloadsOf(Final(c, s, es).outbox, x) == []
    decreases es
  {
    if es == [] {
      FewPayloads(s.outbox, x);
    } else {
      NextSpoiled(c, s, es[0], x);
      StepKeeps(c, s, es[0]);
      SpoiledForGood(c, rule, Next(c, s, es[0]), es[1..], x);
    }
  }

  // ---- At the dual claim ---------------------------------------------------------------

  /** While the first window is open, nobody has taken one, and no payload is in hand. */
  lemma NothingTaken(s: State, x: OtpId, w: CallId)
    requires WellFormed(s) && FirstOk(s, x) && x in s.first && x in s.pending && s.pending[x].window == s.first[x]
    ensures w in s.windows && s.windows[w].otp == x ==> !s.windows[w].end.Taken?
  {
    assert EntryOk(s, x);
  }

  lemma NoPayloadYet(c: Config, s: State, x: OtpId, m: Sent)
    requires WellFormed(s) && FirstOk(s, x) && x in s.first && x in s.pending && s.pending[x].window == s.first[x]
    requires PayloadOk(c, s, m)
    ensures !IsPayload(m, x)
  {
    NothingTaken(s, x, m.call);
  }

  lemma UnpayingYet(c: Config, s: State, x: OtpId, t: Tid)
    requires Sound(c, s) && FirstOk(s, x) && x in s.first && x in s.pending && s.pending[x].window == s.first[x]
    requires t in s.threads
    ensures Unpaying(s, x, s.threads[t])
  {
    var th := s.threads[t];
    assert ThreadOk(s, t) && PcGrounded(c, s, t, th);
    if th.otp == x {
      if th.pc.Marking? || th.pc.Rechecking? {
        NothingTaken(s, x, th.pc.winner.call);
      } else if th.pc.Sending? {
        forall i | 0 <= i < |th.pc.mail| ensures !IsPayload(th.pc.mail[i], x) {
          NoPayloadYet(c, s, x, th.pc.mail[i]);
        }
      }
    }
  }

  lemma SpoiledIfDead(c: Config, s: State, x: OtpId)
    requires Sound(c, s) && FirstOk(s, x) && x in s.first && x in s.pending && s.pending[x].window == s.first[x]
    requires RowDead(s, x)
    ensures Spoiled(s, x)
  {
    forall t | t in s.threads ensures Unpaying(s, x, s.threads[t]) { UnpayingYet(c, s, x, t); }
    forall i | 0 <= i < |s.outbox| ensures !IsPayload(s.outbox[i], x) {
      assert PayloadOk(c, s, s.outbox[i]);
      NoPayloadYet(c, s, x, s.outbox[i]);
    }
  }

  /** A number above all those in use. */
  lemma {:induction false} Above(ids: set<nat>) returns (k: nat)
    ensures forall i | i in ids :: i < k
  {
    if ids == {} {
      k := 0;
    } else {
      var i :| i in ids;
      var k' := Above(ids - {i});
      k := if i < k' then k' else i + 1;
      assert forall j | j in ids :: j == i || j in ids - {i};
    }
  }

  lemma FreshCall(s: State) returns (k: CallId)
    ensures CallOf(k) !in s.threads && TimerOf(k) !in s.threads
  {
    k := Above(set t | t in s.threads :: if t.CallOf? then t.call else t.window);
    var ids := set t | t in s.threads :: if t.CallOf? then t.call else t.window;
    assert CallOf(k) in s.threads ==> k in ids;
    assert TimerOf(k) in s.threads ==> k in ids;
  }

  /** Device `d` has been sent the payload of `x`. */
  ghost predicate Reached(s: State, x: OtpId, d: DeviceId) {
    exists m :: m in PayloadsOf(s.outbox, x) && m.env.to == d
  }

  /** In no continuation of the run, nor already, has `d` been sent the payload of `x`. */
  ghost predicate NeverReached(c: Config, s: State, x: OtpId, d: DeviceId) {
    forall es | IsRun(c, Timed, s, es) :: !Reached(Final(c, s, es), x, d)
  }

  lemma {:induction false} InPayloads(outbox: seq<Sent>, m: Sent, x: OtpId)
    requires m in outbox && IsPayload(m, x)
    ensures m in PayloadsOf(outbox, x)
  {
    if outbox[0] != m {
      InPayloads(outbox[1..], m, x);
    }
  }

  /** From `s` to `s'` the timer of `w` has come to be about to deliver `x`, and nothing else that was
      in flight has moved, nor any row. */
  ghost predicate ComesToMark(s: State, s': State, w: CallId, x: OtpId) {
    && s'.rows == s.rows && s'.now == s.now
    && TimerOf(w) in s'.threads && s'.threads[TimerOf(w)].otp == x && s'.threads[TimerOf(w)].pc.Marking?
    && forall t | t in s.threads && t != TimerOf(w) :: t in s'.threads && s'.threads[t] == s.threads[t]
  }

  /** The first window's timer has fired, its callback has not run, and nothing is pending: a call
      of `d` that arrives now opens a window which the callback takes. */
  lemma LateCallbackTakes(c: Config, s: State, w: CallId, x: OtpId, d: DeviceId) returns (es: seq<Event>, s': State)
    requires WellFormed(s) && TimerOf(w) in s.threads && s.threads[TimerOf(w)].otp == x && s.threads[TimerOf(w)].pc == Fired
    requires x !in s.pending && x in s.rows && !Dead(s.rows[x], s.now)
    ensures IsRun(c, Timed, s, es) && s' == Final(c, s, es) && ComesToMark(s, s', w, x)
    ensures s'.threads[TimerOf(w)].pc.winner.device == d
  {
    var k := FreshCall(s);
    es, s' := Arrive(c, s, [], s, k, d, x);
    es, s' := Do(c, s, es, s', Step(CallOf(k), true));
    assert s'.pending[x] == Entry([Claimant(d, k)], k);
    es, s' := Check(c, s, es, s', w, k, d, x);
  }

  lemma MarkingPays(c: Config, start: State, es: seq<Event>, s: State, w: CallId, x: OtpId) returns (es': seq<Event>)
    requires IsRun(c, Timed, start, es) && s == Final(c, start, es) && x in s.rows
    requires TimerOf(w) in s.threads && s.threads[TimerOf(w)].otp == x && s.threads[TimerOf(w)].pc.Marking?
    ensures IsRun(c, Timed, start, es') && Reached(Final(c, start, es'), x, s.threads[TimerOf(w)].pc.winner.device)
  {
    var pc := s.threads[TimerOf(w)].pc;
    var s';
    es', s' := Deliver(c, start, es, s, w, x, pc);
    InPayloads(s'.outbox, LetterOf(x, w, pc), x);
  }

  /** The state in which a dual claim is about to happen, and the one after it. */
  lemma AtDualClaim(c: Config, s: State, es: seq<Event>, h: CallId, x: OtpId)
    requires c.Valid() && Initial(s) && IsRun(c, Timed, s, es) && EndsFirst(Final(c, s, es), h, x)
    ensures var s1 := Final(c, s, es);
            && Sound(c, s1) && FirstOk(s1, x) && x in s1.rows
            && TimerOf(s1.first[x]) in s1.threads && s1.threads[TimerOf(s1.first[x])].otp == x
            && (s1.threads[TimerOf(s1.first[x])].pc.Armed? || s1.threads[TimerOf(s1.first[x])].pc.Fired?)
            && CallOf(h) != TimerOf(s1.first[x])
            && Next(c, s1, Step(CallOf(h), true)) == KillWindow(s1, h, s1.threads[CallOf(h)])
  {
    RunSafe(c, Timed, s, es, x);
    var s1 := Final(c, s, es);
    FirstWindowRow(c, s1, x);
    assert EntryOk(s1, x) && WindowOk(s1, s1.first[x]) && ThreadOk(s1, TimerOf(s1.first[x]));
  }

  /** Exactly when a dual claim keeps the payload from a device `d`, either claimant or any other, in
      all that can follow: when the timer has not fired, so that stopping it works, or the row is
      decided or expired already. */
  lemma DualClaimExactly(c: Config, s: State, es: seq<Event>, h: CallId, x: OtpId, d: DeviceId)
    requires c.Valid() && Initial(s) && IsRun(c, Timed, s, es) && EndsFirst(Final(c, s, es), h, x)
    ensures var s1 := Final(c, s, es); x in s1.rows && TimerOf(s1.first[x]) in s1.threads
    ensures var s1 := Final(c, s, es);
            var s2 := Next(c, s1, Step(CallOf(h), true));
            NeverReached(c, s2, x, d) <==>
              s1.threads[TimerOf(s1.first[x])].pc.Armed? || Dead(s1.rows[x], s1.now)
  {
    AtDualClaim(c, s, es, h, x);
    var s1 := Final(c, s, es);
    var e := Step(CallOf(h), true);
    var s2 := Next(c, s1, e);
    StepKeeps(c, s1, e);
    if s1.threads[TimerOf(s1.first[x])].pc.Armed? {
      forall es' | IsRun(c, Timed, s2, es') ensures !Reached(Final(c, s2, es'), x, d) {
        StoppedThere(c, s, es, e, es', x);
      }
    } else if Dead(s1.rows[x], s1.now) {
      SpoiledIfDead(c, s1, x);
      NextSpoiled(c, s1, e, x);
      forall es' | IsRun(c, Timed, s2, es') ensures !Reached(Final(c, s2, es'), x, d) {
        SpoiledForGood(c, Timed, s2, es', x);
      }
    } else {
      var es', s3 := LateCallbackTakes(c, s2, s1.first[x], x, d);
      es' := MarkingPays(c, s2, es', s3, s1.first[x], x);
    }
  }

  lemma StoppedThere(c: Config, s: State, es: seq<Event>, e: Event, es': seq<Event>, x: OtpId)
    requires c.Valid() && Initial(s) && IsRun(c, Timed, s, es) && Allowed(c, Timed, Final(c, s, es), e)
    requires FirstTimerStopped(Next(c, Final(c, s, es), e), x) && IsRun(c, Timed, Next(c, Final(c, s, es), e), es')
    ensures PayloadsOf(Final(c, Next(c, Final(c, s, es), e), es').outbox, x) == []
  {
    var es1, s2 := Do(c, s, es, Final(c, s, es), e);
    CancelledNeverDelivers(c, s, es1, es', x);
  }
}
