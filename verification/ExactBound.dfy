/**
  The exact condition under which the relay sends at most one payload per OTP: a handler's tail
  is shorter than the window, or an OTP does not outlive two windows.  The second half needs no
  hypothesis on handlers at all: a timer that was not cancelled has held its OTP for a whole
  window, so any other such timer fires a second window later.
 */
module ExactBound {
  import opened Types
  import opened Protocol
  import opened Lifecycle
  import opened Provenance
  import opened Delivery
  import opened Sharpness

  /** The first instant at which a window of `x` can have run its course. */
  ghost predicate AfterOneWindow(c: Config, s: State, x: OtpId, at: Millis) {
    x in s.rows && s.rows[x].createdAt + c.window <= at
  }

  /** The timer of window `w` was stopped before it fired. */
  ghost predicate Cancelled(s: State, w: CallId) {
    TimerOf(w) in s.threads && s.threads[TimerOf(w)].pc.Stopped?
  }

  ghost predicate Late(c: Config, s: State, x: OtpId, w: CallId)
    requires w in s.windows
  {
    s.windows[w].otp == x ==>
      && x in s.rows && s.rows[x].createdAt <= s.windows[w].openedAt
      && (s.windows[w].end.StillOpen? || Cancelled(s, w) || AfterOneWindow(c, s, x, s.windows[w].end.at))
  }

  /** Of two windows of `x` whose timers were not cancelled, one opened a whole window late. */
  ghost predicate Apart(c: Config, s: State, x: OtpId, w: CallId, v: CallId)
    requires w in s.windows && v in s.windows
  {
    s.windows[w].otp == s.windows[v].otp == x && w != v && !Cancelled(s, w) && !Cancelled(s, v) ==>
      AfterOneWindow(c, s, x, s.windows[w].openedAt) || AfterOneWindow(c, s, x, s.windows[v].openedAt)
  }

  ghost predicate OnePerTimer(s: State) {
    && (forall i {:trigger s.outbox[i]} | 0 <= i < |s.outbox| && s.outbox[i].sender.TimerOf? ::
          s.outbox[i].sender in s.threads && s.threads[s.outbox[i].sender].pc.Done?)
    && (forall i, j | 0 <= i < j < |s.outbox| && s.outbox[i].sender.TimerOf? :: s.outbox[i].sender != s.outbox[j].sender)
  }

  ghost predicate Spread(c: Config, s: State, x: OtpId) {
    && (forall y | y in s.rows :: s.rows[y].createdAt <= s.now)
    && (forall w {:trigger Late(c, s, x, w)} | w in s.windows :: Late(c, s, x, w))
    && (forall w, v {:trigger Apart(c, s, x, w, v)} | w in s.windows && v in s.windows :: Apart(c, s, x, w, v))
    && OnePerTimer(s)
  }

  // ---- Preservation ---------------------------------------------------------------

  lemma LateStays(c: Config, s: State, s': State, x: OtpId, w: CallId)
    requires Evolves(s, s') && w in s.windows && Late(c, s, x, w) && s'.windows[w] == s.windows[w]
    requires Cancelled(s, w) ==> Cancelled(s', w)
    ensures Late(c, s', x, w)
  {
  }

  lemma ApartStays(c: Config, s: State, s': State, x: OtpId, w: CallId, v: CallId)
    requires Evolves(s, s') && WellFormed(s) && w in s.windows && v in s.windows && Apart(c, s, x, w, v)
    requires s.windows[w].otp == x ==> x in s.rows
    requires forall u | u == w || u == v :: Cancelled(s, u) ==> Cancelled(s', u)
    ensures Apart(c, s', x, w, v)
  {
    assert WindowOk(s, w) && WindowOk(s, v);
  }

  lemma StaysCancelled(s: State, t: Tid, ok: bool, u: CallId)
    requires WellFormed(s) && t in s.threads && Runnable(s.threads[t].pc)
    ensures Cancelled(s, u) ==> Cancelled(StepThread(s, t, ok), u)
  {
    assert ThreadOk(s, t);
    if Cancelled(s, u) {
      assert ThreadOk(s, TimerOf(u));
    }
  }

  lemma FreshTimer(s: State, h: CallId)
    requires WellFormed(s) && CallOf(h) in s.threads && !s.threads[CallOf(h)].pc.Opened?
    ensures TimerOf(h) !in s.threads
  {
    assert ThreadOk(s, CallOf(h));
    TimerHasWindow(s, h);
  }

  lemma TimerHasWindow(s: State, w: CallId)
    requires WellFormed(s)
    ensures TimerOf(w) in s.threads ==> w in s.windows
  {
    if TimerOf(w) in s.threads {
      assert ThreadOk(s, TimerOf(w));
    }
  }

  lemma KilledLate(c: Config, s: State, s': State, x: OtpId, h: CallId, w: CallId)
    requires Sound(c, s) && Spread(c, s, x) && CallOf(h) in s.threads && s.threads[CallOf(h)].pc.Locking?
    requires s.threads[CallOf(h)].otp in s.pending && w == s.pending[s.threads[CallOf(h)].otp].window
    requires s' == KillWindow(s, h, s.threads[CallOf(h)]) && Evolves(s, s')
    ensures w in s'.windows && Late(c, s', x, w)
  {
    assert EntryOk(s, s.threads[CallOf(h)].otp) && WindowOk(s, w) && Late(c, s, x, w);
    assert PcGrounded(c, s, TimerOf(w), s.threads[TimerOf(w)]);
  }

  lemma TakenLate(c: Config, s: State, s': State, x: OtpId, t: CallId, w: CallId)
    requires Sound(c, s) && Spread(c, s, x) && TimerOf(t) in s.threads && s.threads[TimerOf(t)].pc.Fired?
    requires s.threads[TimerOf(t)].otp in s.pending && w == s.pending[s.threads[TimerOf(t)].otp].window
    requires s' == ResolveLocked(s, t, s.threads[TimerOf(t)]) && Evolves(s, s')
    ensures w in s'.windows && Late(c, s', x, w)
  {
    assert EntryOk(s, s.threads[TimerOf(t)].otp) && ThreadOk(s, TimerOf(t)) && Late(c, s, x, w) && Late(c, s, x, t);
    assert PcGrounded(c, s, TimerOf(t), s.threads[TimerOf(t)]);
  }

  lemma OpenedLate(c: Config, s: State, s': State, x: OtpId, h: CallId, v: CallId)
    requires Sound(c, s) && Spread(c, s, x) && CallOf(h) in s.threads && s.threads[CallOf(h)].pc.Locking?
    requires s.threads[CallOf(h)].otp !in s.pending
    requires s' == ClaimLocked(s, h, s.threads[CallOf(h)]) && Evolves(s, s')
    requires v in s'.windows
    ensures Late(c, s', x, h) && Apart(c, s', x, h, v) && Apart(c, s', x, v, h)
  {
    assert ThreadOk(s, CallOf(h)) && PcGrounded(c, s, CallOf(h), s.threads[CallOf(h)]);
    if v in s.windows {
      assert WindowOk(s, v) && Late(c, s, x, v) && WindowGrounded(s, v);
    }
  }

  lemma StepLate(c: Config, s: State, s': State, x: OtpId, t: Tid, ok: bool, w: CallId)
    requires Sound(c, s) && Spread(c, s, x) && t in s.threads && Runnable(s.threads[t].pc)
    requires s' == StepThread(s, t, ok) && Evolves(s, s')
    requires w in s'.windows
    ensures Late(c, s', x, w)
  {
    var th := s.threads[t];
    assert ThreadOk(s, t);
    if w !in s.windows {
      OpenedLate(c, s, s', x, t.call, w);
    } else if s'.windows[w] != s.windows[w] {
      assert th.otp in s.pending ==> EntryOk(s, th.otp);
      if th.pc.Locking? {
        KilledLate(c, s, s', x, t.call, w);
      } else {
        TakenLate(c, s, s', x, t.window, w);
      }
    } else {
      assert Late(c, s, x, w);
      StaysCancelled(s, t, ok, w);
      LateStays(c, s, s', x, w);
    }
  }

  lemma StepApart(c: Config, s: State, s': State, x: OtpId, t: Tid, ok: bool, w: CallId, v: CallId)
    requires Sound(c, s) && Spread(c, s, x) && t in s.threads && Runnable(s.threads[t].pc)
    requires s' == StepThread(s, t, ok) && Evolves(s, s')
    requires w in s'.windows && v in s'.windows
    ensures Apart(c, s', x, w, v)
  {
    assert ThreadOk(s, t);
    if w !in s.windows {
      OpenedLate(c, s, s', x, t.call, v);
    } else if v !in s.windows {
      OpenedLate(c, s, s', x, t.call, w);
    } else {
      assert Apart(c, s, x, w, v) && Late(c, s, x, w);
      StaysCancelled(s, t, ok, w);
      StaysCancelled(s, t, ok, v);
      ApartStays(c, s, s', x, w, v);
    }
  }

  lemma StepOnePerTimer(s: State, t: Tid, ok: bool)
    requires WellFormed(s) && OnePerTimer(s) && t in s.threads && Runnable(s.threads[t].pc)
    ensures OnePerTimer(StepThread(s, t, ok))
  {
    var s' := StepThread(s, t, ok);
    assert ThreadOk(s, t);
    if s.threads[t].pc.Locking? {
      FreshTimer(s, t.call);
      assert s'.outbox == s.outbox;
    } else if s.threads[t].pc.Fired? {
      assert s'.outbox == s.outbox;
    } else {
      LocalOnePerTimer(s, t, ok);
    }
  }

  lemma LocalOnePerTimer(s: State, t: Tid, ok: bool)
    requires ThreadOkHere(s, t) && OnePerTimer(s) && Local(s.threads[t].pc)
    ensures OnePerTimer(LocalStep(s, t, s.threads[t], ok))
  {
    var s' := LocalStep(s, t, s.threads[t], ok);
    if s.threads[t].pc.Sending? {
      assert s'.outbox == s.outbox + [s.threads[t].pc.mail[0]] && s.threads[t].pc.mail[0].sender == t;
    }
  }

  ghost predicate ThreadOkHere(s: State, t: Tid) {
    t in s.threads && ThreadOk(s, t)
  }

  lemma StepSpread(c: Config, s: State, t: Tid, ok: bool, x: OtpId)
    requires Sound(c, s) && Spread(c, s, x) && t in s.threads && Runnable(s.threads[t].pc)
    ensures Spread(c, StepThread(s, t, ok), x)
  {
    var s' := StepThread(s, t, ok);
    StepEvolves(s, t, ok);
    StepOnePerTimer(s, t, ok);
    CreatedStays(s, t, ok);
    forall w | w in s'.windows ensures Late(c, s', x, w) { StepLate(c, s, s', x, t, ok, w); }
    forall w, v | w in s'.windows && v in s'.windows ensures Apart(c, s', x, w, v) {
      StepApart(c, s, s', x, t, ok, w, v);
    }
  }

  lemma CreatedStays(s: State, t: Tid, ok: bool)
    requires t in s.threads && forall y | y in s.rows :: s.rows[y].createdAt <= s.now
    ensures var s' := StepThread(s, t, ok); forall y | y in s'.rows :: s'.rows[y].createdAt <= s'.now
  {
  }

  lemma NextSpread(c: Config, s: State, e: Event, x: OtpId)
    requires Sound(c, s) && Spread(c, s, x) && Enabled(c, s, e)
    ensures Spread(c, Next(c, s, e), x)
  {
    if e.Step? {
      StepSpread(c, s, e.tid, e.ok, x);
    } else {
      SharedSpread(c, s, e, x);
    }
  }

  lemma SharedSpread(c: Config, s: State, e: Event, x: OtpId)
    requires Sound(c, s) && Spread(c, s, x) && Enabled(c, s, e) && !e.Step?
    ensures Spread(c, Next(c, s, e), x)
  {
    var s' := Next(c, s, e);
    NextEvolves(c, s, e);
    forall w | w in s'.windows ensures Late(c, s', x, w) {
      assert Late(c, s, x, w);
      LateStays(c, s, s', x, w);
    }
    forall w, v | w in s'.windows && v in s'.windows ensures Apart(c, s', x, w, v) {
      assert Apart(c, s, x, w, v) && Late(c, s, x, w);
      ApartStays(c, s, s', x, w, v);
    }
  }

  lemma {:induction false} RunSpread(c: Config, rule: Rule, s: State, es: seq<Event>, x: OtpId)
    requires Sound(c, s) && Spread(c, s, x) && IsRun(c, rule, s, es)
    ensures Sound(c, Final(c, s, es)) && Spread(c, Final(c, s, es), x)
    decreases es
  {
    if es != [] {
      NextSpread(c, s, es[0], x);
      StepKeeps(c, s, es[0]);
      NextGrounded(c, s, es[0]);
      RunSpread(c, rule, Next(c, s, es[0]), es[1..], x);
    }
  }

  /** A process started on a table written by the same relay. */
  ghost predicate Restarted(c: Config, s: State) {
    Initial(s) && TableOk(c, s) && forall x | x in s.rows :: s.rows[x].createdAt <= s.now
  }

  /** When an OTP does not outlive two windows, at most one payload is sent, whatever the
      interleaving, however long handlers take, and with database calls failing or not. */
  lemma ShortLivedOnce(c: Config, rule: Rule, s: State, es: seq<Event>, x: OtpId)
    requires c.ttl <= 2 * c.window && Restarted(c, s) && IsRun(c, rule, s, es)
    ensures |PayloadsOf(Final(c, s, es).outbox, x)| <= 1
  {
    RunSpread(c, rule, s, es, x);
    RunTable(c, rule, s, es);
    var s' := Final(c, s, es);
    forall i, j | 0 <= i < j < |s'.outbox| ensures !(IsPayload(s'.outbox[i], x) && IsPayload(s'.outbox[j], x)) {
      NotBoth(c, s', x, i, j);
    }
    FewPayloads(s'.outbox, x);
  }

  lemma NotBoth(c: Config, s: State, x: OtpId, i: nat, j: nat)
    requires c.ttl <= 2 * c.window && Sound(c, s) && Spread(c, s, x) && TableOk(c, s) && i < j < |s.outbox|
    ensures !(IsPayload(s.outbox[i], x) && IsPayload(s.outbox[j], x))
  {
    var m, m' := s.outbox[i], s.outbox[j];
    assert PayloadOk(c, s, m) && PayloadOk(c, s, m');
    SendersApart(c, s, x, m, m');
    assert x in s.rows ==> RowOk(c, s.rows[x]);
  }

  lemma SendersApart(c: Config, s: State, x: OtpId, m: Sent, m': Sent)
    requires Spread(c, s, x)
    ensures m.sender.TimerOf? && m.sender.window in s.windows && m'.sender.TimerOf? && m'.sender.window in s.windows ==>
              Apart(c, s, x, m.sender.window, m'.sender.window)
  {
  }

  /** The exact condition, for all configurations the relay accepts. */
  lemma OnceIffShort(c: Config)
    requires 0 < c.window && 30_000 <= c.ttl && 0 <= c.tail
    ensures (forall s, es, x | Restarted(c, s) && IsRun(c, Timed, s, es) :: |PayloadsOf(Final(c, s, es).outbox, x)| <= 1)
            <==> c.tail < c.window || c.ttl <= 2 * c.window
  {
    if c.tail < c.window || c.ttl <= 2 * c.window {
      forall s, es, x | Restarted(c, s) && IsRun(c, Timed, s, es) ensures |PayloadsOf(Final(c, s, es).outbox, x)| <= 1 {
        if c.tail < c.window {
          AtMostOnePayload(c, s, es, x);
        } else {
          ShortLivedOnce(c, Timed, s, es, x);
        }
      }
    } else {
      var es := TwoPayloads(c);
      assert Restarted(c, Start());
      assert |PayloadsOf(Final(c, Start(), es).outbox, X)| == 2;
    }
  }

  // ---- The cancelled timer ----------------------------------------------------------

  /** An OTP that does not outlive one window is never delivered. */
  lemma TooShortLived(c: Config, rule: Rule, s: State, es: seq<Event>, x: OtpId)
    requires c.ttl <= c.window && Restarted(c, s) && IsRun(c, rule, s, es)
    ensures PayloadsOf(Final(c, s, es).outbox, x) == []
  {
    RunSpread(c, rule, s, es, x);
    RunTable(c, rule, s, es);
    var s' := Final(c, s, es);
    forall m | m in s'.outbox ensures !IsPayload(m, x) {
      NoTimeLeft(c, s', x, m);
    }
    FewPayloads(s'.outbox, x);
  }

  lemma NoTimeLeft(c: Config, s: State, x: OtpId, m: Sent)
    requires c.ttl <= c.window && Sound(c, s) && Spread(c, s, x) && TableOk(c, s) && m in s.outbox
    ensures !IsPayload(m, x)
  {
    assert PayloadOk(c, s, m);
    assert m.sender.TimerOf? && m.sender.window in s.windows ==> Late(c, s, x, m.sender.window);
    assert x in s.rows ==> RowOk(c, s.rows[x]);
  }

  /** The exact condition under which a cancelled first window means that nobody is ever sent the
      payload: a handler's tail is shorter than the window, or no OTP is delivered at all. */
  lemma NeverIffShort(c: Config)
    requires 0 < c.window && 30_000 <= c.ttl && 0 <= c.tail
    ensures (forall s, es, x | Restarted(c, s) && IsRun(c, Timed, s, es) && FirstTimerStopped(Final(c, s, es), x) ::
               PayloadsOf(Final(c, s, es).outbox, x) == [])
            <==> c.tail < c.window || c.ttl <= c.window
  {
    if c.tail < c.window || c.ttl <= c.window {
      forall s, es, x | Restarted(c, s) && IsRun(c, Timed, s, es) && FirstTimerStopped(Final(c, s, es), x)
        ensures PayloadsOf(Final(c, s, es).outbox, x) == []
      {
        if c.tail < c.window {
          CancelledNeverDelivers(c, s, es, [], x);
        } else {
          TooShortLived(c, Timed, s, es, x);
        }
      }
    } else {
      var es := CancelledDelivers(c);
      assert Restarted(c, Start());
      assert PayloadsOf(Final(c, Start(), es).outbox, X) != [];
    }
  }

  // ---- Failing calls -----------------------------------------------------------------

  /** With database calls that may fail, handlers being prompt is of no help: the exact conditions are
      those on the lifetime alone. */
  lemma LossyOnceIffShort(c: Config)
    requires 0 < c.window && 30_000 <= c.ttl && 0 <= c.tail
    ensures (forall s, es, x | Restarted(c, s) && IsRun(c, Lossy, s, es) :: |PayloadsOf(Final(c, s, es).outbox, x)| <= 1)
            <==> c.ttl <= 2 * c.window
  {
    if c.ttl <= 2 * c.window {
      forall s, es, x | Restarted(c, s) && IsRun(c, Lossy, s, es) ensures |PayloadsOf(Final(c, s, es).outbox, x)| <= 1 {
        ShortLivedOnce(c, Lossy, s, es, x);
      }
    } else {
      var es := FailedWritePaysTwice(c);
      assert Restarted(c, Start());
      assert |PayloadsOf(Final(c, Start(), es).outbox, X)| == 2;
    }
  }

  lemma LossyNeverIffShort(c: Config)
    requires 0 < c.window && 30_000 <= c.ttl && 0 <= c.tail
    ensures (forall s, es, x | Restarted(c, s) && IsRun(c, Lossy, s, es) && FirstTimerStopped(Final(c, s, es), x) ::
               PayloadsOf(Final(c, s, es).outbox, x) == [])
            <==> c.ttl <= c.window
  {
    if c.ttl <= c.window {
      forall s, es, x | Restarted(c, s) && IsRun(c, Lossy, s, es) && FirstTimerStopped(Final(c, s, es), x)
        ensures PayloadsOf(Final(c, s, es).outbox, x) == []
      {
        TooShortLived(c, Lossy, s, es, x);
      }
    } else {
      var es := FailedWriteDelivers(c);
      assert Restarted(c, Start());
      assert PayloadsOf(Final(c, Start(), es).outbox, X) != [];
    }
  }
}
