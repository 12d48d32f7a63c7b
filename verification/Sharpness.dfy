/**
  Why the hypotheses are there: runs in which one of them fails, and the conclusion with it.
 */
module Sharpness {
  import opened Types
  import opened Tables
  import opened Protocol
  import opened Delivery

  /** The run so far, one event longer. */
  lemma Do(c: Config, start: State, es: seq<Event>, s: State, e: Event) returns (es': seq<Event>, s': State)
    requires IsRun(c, Timed, start, es) && s == Final(c, start, es) && Allowed(c, Timed, s, e)
    ensures es' == es + [e] && s' == Next(c, s, e)
    ensures IsRun(c, Timed, start, es') && s' == Final(c, start, es')
  {
    es', s' := es + [e], Next(c, s, e);
    assert IsRun(c, Timed, s, [e]);
    RunsAppend(c, Timed, start, es, [e]);
    assert Final(c, s, [e]) == s' by { assert [e][1..] == []; }
  }

  function Start(): State {
    State(0, map[], map[], map[], map[], map[], [])
  }

  const X := "x"

  /** The row of `X`, ingested at instant 0. */
  function RowX(c: Config): Row {
    FreshRow(c.ttl, 0, "src", "ct", "iv")
  }

  predicate PcIs(s: State, t: Tid, device: DeviceId, pc: Pc) {
    t in s.threads && s.threads[t] == Thread(device, X, pc)
  }

  /** `X` is in the table, pending; nobody has the lock; nothing has been sent; and each call has
      seen the row live. */
  ghost predicate Poised(c: Config, s: State, calls: map<CallId, DeviceId>) {
    && s == State(0, map[X := RowX(c)], map[], s.threads, map[], map[], [])
    && (forall t :: t in s.threads <==> t.CallOf? && t.call in calls)
    && forall h | h in calls :: PcIs(s, CallOf(h), calls[h], Locking(RowX(c), 0))
  }

  /** A call arrives, reads its row pending and unexpired, and waits for the lock. */
  lemma Arrive(c: Config, start: State, es: seq<Event>, s: State, h: CallId, d: DeviceId, x: OtpId)
    returns (es': seq<Event>, s': State)
    requires IsRun(c, Timed, start, es) && s == Final(c, start, es)
    requires CallOf(h) !in s.threads && x in s.rows && !Dead(s.rows[x], s.now)
    ensures IsRun(c, Timed, start, es') && s' == Final(c, start, es')
    ensures s' == s.(threads := s.threads[CallOf(h) := Thread(d, x, Locking(s.rows[x], s.now))])
  {
    es', s' := Do(c, start, es, s, Claim(h, d, x));
    es', s' := Do(c, start, es', s', Step(CallOf(h), true));
    assert s'.threads[CallOf(h)] == Thread(d, x, Checking(s.rows[x]));
    es', s' := Do(c, start, es', s', Step(CallOf(h), true));
  }

  lemma Poise(c: Config, start: State, es: seq<Event>, s: State, calls: map<CallId, DeviceId>, h: CallId, d: DeviceId)
    returns (es': seq<Event>, s': State)
    requires 0 < c.ttl && IsRun(c, Timed, start, es) && s == Final(c, start, es) && Poised(c, s, calls) && h !in calls
    ensures IsRun(c, Timed, start, es') && s' == Final(c, start, es') && Poised(c, s', calls[h := d])
  {
    es', s' := Arrive(c, start, es, s, h, d, X);
  }

  lemma Ingested(c: Config) returns (es: seq<Event>, s: State)
    ensures IsRun(c, Timed, Start(), es) && s == Final(c, Start(), es) && Poised(c, s, map[])
  {
    es, s := Do(c, Start(), [], Start(), Ingest(X, "src", "ct", "iv"));
  }

  // ---- The tail bound -----------------------------------------------------------

  /** The callback of timer `w` takes window `u`, and checks row and clock. */
  lemma Check(c: Config, start: State, es: seq<Event>, s: State, w: CallId, u: CallId, d: DeviceId, x: OtpId)
    returns (es': seq<Event>, s': State)
    requires IsRun(c, Timed, start, es) && s == Final(c, start, es)
    requires TimerOf(w) in s.threads && s.threads[TimerOf(w)].otp == x && s.threads[TimerOf(w)].pc == Fired
    requires x in s.pending && s.pending[x] == Entry([Claimant(d, u)], u)
    requires x in s.rows && !Dead(s.rows[x], s.now)
    ensures IsRun(c, Timed, start, es') && s' == Final(c, start, es')
    ensures s' == s.(
              pending := s.pending - {x},
              windows := Close(s.windows, u, Taken(w, s.now)),
              threads := s.threads[TimerOf(w) := s.threads[TimerOf(w)].(pc := Marking(Claimant(d, u), s.now, s.rows[x], s.now))])
  {
    es', s' := Do(c, start, es, s, Step(TimerOf(w), true));
    assert s'.threads[TimerOf(w)].pc == Reloading(Claimant(d, u), s.now);
    es', s' := Do(c, start, es', s', Step(TimerOf(w), true));
    assert s'.threads[TimerOf(w)].pc == Rechecking(Claimant(d, u), s.now, s.rows[x]);
    es', s' := Do(c, start, es', s', Step(TimerOf(w), true));
  }

  /** What a callback of `x` that has checked is going to send. */
  function LetterOf(x: OtpId, t: CallId, pc: Pc): Sent
    requires pc.Marking?
  {
    Sent(Envelope(pc.winner.device, x, Payload(pc.row.ciphertext, pc.row.iv)), pc.winner.call, TimerOf(t), pc.checkedAt)
  }

  function Paid(d: DeviceId, w: CallId, t: CallId, at: Millis): Sent {
    Sent(Envelope(d, X, Payload("ct", "iv")), w, TimerOf(t), at)
  }

  /** A callback that has checked marks the row, whatever has become of it, and sends. */
  lemma Deliver(c: Config, start: State, es: seq<Event>, s: State, t: CallId, x: OtpId, pc: Pc) returns (es': seq<Event>, s': State)
    requires IsRun(c, Timed, start, es) && s == Final(c, start, es)
    requires TimerOf(t) in s.threads && s.threads[TimerOf(t)].otp == x && s.threads[TimerOf(t)].pc == pc
    requires pc.Marking? && x in s.rows
    ensures IsRun(c, Timed, start, es') && s' == Final(c, start, es')
    ensures s' == s.(
              rows := SetStatus(s.rows, x, Claimed, Some(pc.winner.device)),
              threads := s.threads[TimerOf(t) := s.threads[TimerOf(t)].(pc := Done)],
              outbox := s.outbox + [LetterOf(x, t, pc)])
  {
    es', s' := Do(c, start, es, s, Step(TimerOf(t), true));
    assert s'.threads[TimerOf(t)].pc == Sending([LetterOf(x, t, pc)]);
    es', s' := Do(c, start, es', s', Step(TimerOf(t), true));
  }

  /** A poised call opens a window, and its timer fires as soon as it may. */
  lemma OpenAndFire(c: Config, start: State, es: seq<Event>, s: State, h: CallId, d: DeviceId) returns (es': seq<Event>, s': State)
    requires 0 < c.window && IsRun(c, Timed, start, es) && s == Final(c, start, es)
    requires PcIs(s, CallOf(h), d, Locking(RowX(c), 0)) && X !in s.pending && TimerOf(h) !in s.threads
    requires forall t | t in s.threads && OwesWrite(s.threads[t].pc) :: s.now + c.window <= s.threads[t].pc.since + c.tail
    ensures IsRun(c, Timed, start, es') && s' == Final(c, start, es')
    ensures s'.now == s.now + c.window && s'.rows == s.rows && s'.outbox == s.outbox
    ensures s'.pending == s.pending[X := Entry([Claimant(d, h)], h)]
    ensures s'.windows == s.windows[h := Window(X, d, RowX(c), 0, s.now, StillOpen)]
    ensures s'.first == if X in s.first then s.first else s.first[X := h]
    ensures s'.threads == s.threads[CallOf(h) := Thread(d, X, Opened)][TimerOf(h) := Thread(d, X, Fired)]
  {
    es', s' := Do(c, start, es, s, Step(CallOf(h), true));
    assert PcIs(s', TimerOf(h), d, Armed);
    es', s' := Do(c, start, es', s', Tick(s.now + c.window));
    es', s' := Do(c, start, es', s', Fire(h));
  }

  /** "a" has claimed `X`, "b" has claimed it and retried, and all three calls are poised. */
  lemma AllPoised(c: Config) returns (es: seq<Event>, s: State)
    requires 0 < c.window < c.ttl
    ensures IsRun(c, Timed, Start(), es) && s == Final(c, Start(), es)
    ensures Poised(c, s, map[0 := "a", 1 := "b", 2 := "b"])
  {
    es, s := Ingested(c);
    es, s := Poise(c, Start(), es, s, map[], 0, "a");
    es, s := Poise(c, Start(), es, s, map[0 := "a"], 1, "b");
    es, s := Poise(c, Start(), es, s, map[0 := "a", 1 := "b"], 2, "b");
    assert map[0 := "a", 1 := "b"][2 := "b"] == map[0 := "a", 1 := "b", 2 := "b"];
  }

  /** "a" has opened the window, and its timer has just fired. */
  ghost predicate AFired(c: Config, s: State) {
    && s.now == c.window && s.rows == map[X := RowX(c)] && s.outbox == []
    && s.pending == map[X := Entry([Claimant("a", 0)], 0)]
    && s.windows == map[0 := Window(X, "a", RowX(c), 0, 0, StillOpen)]
    && s.first == map[X := 0]
    && s.threads == map[
         CallOf(0) := Thread("a", X, Opened),
         CallOf(1) := Thread("b", X, Locking(RowX(c), 0)),
         CallOf(2) := Thread("b", X, Locking(RowX(c), 0)),
         TimerOf(0) := Thread("a", X, Fired)]
  }

  lemma ReachAFired(c: Config) returns (es: seq<Event>, s: State)
    requires 0 < c.window < c.ttl
    ensures IsRun(c, Timed, Start(), es) && s == Final(c, Start(), es) && AFired(c, s)
  {
    es, s := AllPoised(c);
    var calls := map[0 := "a", 1 := "b", 2 := "b"];
    assert forall h | h in calls :: PcIs(s, CallOf(h), calls[h], Locking(RowX(c), 0));
    assert PcIs(s, CallOf(0), calls[0], Locking(RowX(c), 0));
    assert PcIs(s, CallOf(1), calls[1], Locking(RowX(c), 0));
    assert PcIs(s, CallOf(2), calls[2], Locking(RowX(c), 0));
    es, s := OpenAndFire(c, Start(), es, s, 0, "a");
  }

  /** "b" and "a" have both checked, a window apart, and both still owe their write. */
  lemma BothChecked(c: Config) returns (es: seq<Event>, s: State)
    requires 0 < c.window <= c.tail && 2 * c.window < c.ttl
    ensures IsRun(c, Timed, Start(), es) && s == Final(c, Start(), es)
    ensures s.rows == map[X := RowX(c)] && s.outbox == []
    ensures PcIs(s, TimerOf(0), "a", Marking(Claimant("a", 0), c.window, RowX(c), c.window))
    ensures PcIs(s, TimerOf(1), "b", Marking(Claimant("b", 1), 2 * c.window, RowX(c), 2 * c.window))
  {
    es, s := ACheckedBFired(c);
    es, s := Check(c, Start(), es, s, 1, 1, "b", X);
  }

  /** "a" has checked and owes its write; the window that "b" then opened has run its course. */
  lemma ACheckedBFired(c: Config) returns (es: seq<Event>, s: State)
    requires 0 < c.window <= c.tail && 2 * c.window < c.ttl
    ensures IsRun(c, Timed, Start(), es) && s == Final(c, Start(), es)
    ensures s.now == 2 * c.window && s.rows == map[X := RowX(c)] && s.outbox == []
    ensures s.pending == map[X := Entry([Claimant("b", 1)], 1)]
    ensures PcIs(s, TimerOf(0), "a", Marking(Claimant("a", 0), c.window, RowX(c), c.window))
    ensures PcIs(s, TimerOf(1), "b", Fired)
  {
    es, s := AChecked(c);
    es, s := OpenAndFire(c, Start(), es, s, 1, "b");
  }

  lemma AChecked(c: Config) returns (es: seq<Event>, s: State)
    requires 0 < c.window < c.ttl
    ensures IsRun(c, Timed, Start(), es) && s == Final(c, Start(), es)
    ensures s.now == c.window && s.rows == map[X := RowX(c)] && s.outbox == [] && s.pending == map[]
    ensures PcIs(s, TimerOf(0), "a", Marking(Claimant("a", 0), c.window, RowX(c), c.window))
    ensures PcIs(s, CallOf(1), "b", Locking(RowX(c), 0)) && TimerOf(1) !in s.threads
    ensures CallOf(3) !in s.threads && TimerOf(3) !in s.threads
    ensures forall t | t in s.threads && OwesWrite(s.threads[t].pc) :: s.threads[t].pc.since == c.window
  {
    es, s := ReachAFired(c);
    es, s := Check(c, Start(), es, s, 0, 0, "a", X);
  }

  /** The bound on the tail is sharp: once handlers may owe their write for a whole window, two
      devices can be sent the payload of one OTP, if it lives for two windows. */
  lemma TwoPayloads(c: Config) returns (es: seq<Event>)
    requires 0 < c.window <= c.tail && 2 * c.window < c.ttl
    ensures Initial(Start()) && IsRun(c, Timed, Start(), es)
    ensures PayloadsOf(Final(c, Start(), es).outbox, X) == [Paid("b", 1, 1, 2 * c.window), Paid("a", 0, 0, c.window)]
  {
    var s;
    es, s := BothChecked(c);
    es, s := Deliver(c, Start(), es, s, 1, X, s.threads[TimerOf(1)].pc);
    es, s := Deliver(c, Start(), es, s, 0, X, s.threads[TimerOf(0)].pc);
    BothPayloads(Paid("b", 1, 1, 2 * c.window), Paid("a", 0, 0, c.window));
  }

  lemma BothPayloads(m: Sent, m': Sent)
    requires IsPayload(m, X) && IsPayload(m', X)
    ensures PayloadsOf([] + [m] + [m'], X) == [m, m']
  {
    assert [m, m'][1..] == [m'] && [m'][1..] == [];
    assert [] + [m] + [m'] == [m, m'];
    assert PayloadsOf([m'], X) == [m'];
  }

  // ---- The cancelled timer ----------------------------------------------------------

  /** "b" has ended the window of "a" at once, cancelling its timer, and owes its write; its retry
      is poised. */
  ghost predicate Cut(c: Config, s: State) {
    && s.now == 0 && s.rows == map[X := RowX(c)] && s.outbox == [] && s.pending == map[]
    && s.first == map[X := 0]
    && s.threads == map[
         CallOf(0) := Thread("a", X, Opened),
         CallOf(1) := Thread("b", X, Invalidating([Claimant("a", 0), Claimant("b", 1)], 0)),
         CallOf(2) := Thread("b", X, Locking(RowX(c), 0)),
         TimerOf(0) := Thread("a", X, Stopped)]
  }

  lemma ReachCut(c: Config) returns (es: seq<Event>, s: State)
    requires 0 < c.window < c.ttl
    ensures IsRun(c, Timed, Start(), es) && s == Final(c, Start(), es) && Cut(c, s)
  {
    es, s := ReachOpen(c);
    es, s := Do(c, Start(), es, s, Step(CallOf(1), true));
    assert [Claimant("a", 0)] + [Claimant("b", 1)] == [Claimant("a", 0), Claimant("b", 1)];
  }

  /** "a" has opened the window at once. */
  lemma ReachOpen(c: Config) returns (es: seq<Event>, s: State)
    requires 0 < c.window < c.ttl
    ensures IsRun(c, Timed, Start(), es) && s == Final(c, Start(), es)
    ensures s.now == 0 && s.rows == map[X := RowX(c)] && s.outbox == [] && s.first == map[X := 0]
    ensures s.pending == map[X := Entry([Claimant("a", 0)], 0)]
    ensures s.threads == map[
              CallOf(0) := Thread("a", X, Opened),
              CallOf(1) := Thread("b", X, Locking(RowX(c), 0)),
              CallOf(2) := Thread("b", X, Locking(RowX(c), 0)),
              TimerOf(0) := Thread("a", X, Armed)]
  {
    es, s := AllPoised(c);
    var calls := map[0 := "a", 1 := "b", 2 := "b"];
    assert PcIs(s, CallOf(0), calls[0], Locking(RowX(c), 0));
    assert PcIs(s, CallOf(1), calls[1], Locking(RowX(c), 0));
    assert PcIs(s, CallOf(2), calls[2], Locking(RowX(c), 0));
    es, s := Do(c, Start(), es, s, Step(CallOf(0), true));
  }

  /** Once a handler may owe its write for a whole window, a cancelled first window no longer keeps
      the payload back: the very device that cancelled it can
      open a window by a retry, hold it, and be paid. */
  lemma CancelledDelivers(c: Config) returns (es: seq<Event>)
    requires 0 < c.window <= c.tail && c.window < c.ttl
    ensures Initial(Start()) && IsRun(c, Timed, Start(), es)
    ensures FirstTimerStopped(Final(c, Start(), es), X)
    ensures Final(c, Start(), es).outbox == [Paid("b", 2, 2, c.window)]
  {
    var s;
    es, s := ReachCut(c);
    assert PcIs(s, CallOf(2), "b", Locking(RowX(c), 0));
    es, s := OpenAndFire(c, Start(), es, s, 2, "b");
    es, s := Check(c, Start(), es, s, 2, 2, "b", X);
    es, s := Deliver(c, Start(), es, s, 2, X, s.threads[TimerOf(2)].pc);
  }

  /** "b" has ended the window of "a", whose timer had fired, and owes its write. */
  ghost predicate Killing(c: Config, s: State) {
    && s.now == c.window && s.rows == map[X := RowX(c)] && s.outbox == []
    && s.first == map[X := 0] && 0 in s.windows && s.windows[0].end == Killed(1, c.window)
    && PcIs(s, TimerOf(0), "a", Fired)
    && PcIs(s, CallOf(1), "b", Invalidating([Claimant("a", 0), Claimant("b", 1)], c.window))
  }

  lemma Kill(c: Config, es: seq<Event>, s: State) returns (es': seq<Event>, s': State)
    requires 0 < c.window < c.ttl && IsRun(c, Timed, Start(), es) && s == Final(c, Start(), es) && AFired(c, s)
    ensures IsRun(c, Timed, Start(), es') && s' == Final(c, Start(), es') && Killing(c, s')
    ensures s'.pending == map[] && PcIs(s', CallOf(2), "b", Locking(RowX(c), 0))
    ensures s'.threads.Keys == s.threads.Keys && s'.threads[CallOf(0)].pc == Opened
  {
    assert PcIs(s, CallOf(1), "b", Locking(RowX(c), 0));
    es', s' := Do(c, Start(), es, s, Step(CallOf(1), true));
    assert s' == KillWindow(s, 1, s.threads[CallOf(1)]);
    assert s'.threads[CallOf(1)].pc.claimants == [Claimant("a", 0), Claimant("b", 1)];
  }

  /** The retry of "b" opens the next window before the callback of the first has run. */
  lemma Reopen(c: Config, es: seq<Event>, s: State) returns (es': seq<Event>, s': State)
    requires IsRun(c, Timed, Start(), es) && s == Final(c, Start(), es) && Killing(c, s)
    requires s.pending == map[] && PcIs(s, CallOf(2), "b", Locking(RowX(c), 0))
    ensures IsRun(c, Timed, Start(), es') && s' == Final(c, Start(), es') && Killing(c, s')
    ensures s'.pending == map[X := Entry([Claimant("b", 2)], 2)]
  {
    es', s' := Do(c, Start(), es, s, Step(CallOf(2), true));
  }

  /** That the first window's timer be cancelled is needed, however short the tail: when it has
      already fired, its callback can take the next window before the dual claim's write lands.  The
      second claimant opens that window by a retry, and is sent the payload although the first
      window ended in a dual claim.  The row then goes from claimed to invalidated: interleaved,
      claimed is not absorbing. */
  lemma DualClaimDelivers(c: Config) returns (es: seq<Event>, es': seq<Event>)
    requires 0 < c.window < c.ttl
    ensures Initial(Start()) && IsRun(c, Timed, Start(), es) && IsRun(c, Timed, Final(c, Start(), es), es')
    ensures var s := Final(c, Start(), es);
            && s.first == map[X := 0] && 0 in s.windows && s.windows[0].end == Killed(1, c.window)
            && s.outbox == [Paid("b", 2, 0, c.window)]
            && X in s.rows && s.rows[X].status == Claimed && s.rows[X].claimedBy == Some("b")
    ensures var s := Final(c, Final(c, Start(), es), es');
            X in s.rows && s.rows[X].status == Invalidated && s.rows[X].claimedBy == None
  {
    var s;
    es, s := ReachAFired(c);
    es, s := Kill(c, es, s);
    es, s := Reopen(c, es, s);
    es, s := Check(c, Start(), es, s, 0, 2, "b", X);
    es, s := Deliver(c, Start(), es, s, 0, X, s.threads[TimerOf(0)].pc);
    es', s := Do(c, s, [], s, Step(CallOf(1), true));
  }

  /** Nor is it enough that the timer of the window which the dual claim ends be cancelled, when that
      is a later window: the callback of the first one has checked, "a" opens a window by a retry, "b"
      ends it and cancels its timer, and "a" is paid none the less. */
  lemma LaterDualClaimDelivers(c: Config) returns (es: seq<Event>, es': seq<Event>)
    requires 0 < c.window < c.ttl
    ensures Initial(Start()) && IsRun(c, Timed, Start(), es) && IsRun(c, Timed, Final(c, Start(), es), es')
    ensures var s := Final(c, Start(), es);
            && s.pending == map[X := Entry([Claimant("a", 3)], 3)] && s.outbox == []
            && PcIs(s, TimerOf(3), "a", Armed) && PcIs(s, CallOf(1), "b", Locking(RowX(c), 0))
            && s.rows == map[X := RowX(c)] && s.now < c.ttl
    ensures var s := Final(c, Final(c, Start(), es), es');
            PcIs(s, TimerOf(3), "a", Stopped) && s.outbox == [Paid("a", 0, 0, c.window)]
  {
    var s, s';
    es, s := AReopened(c);
    es', s' := Do(c, s, [], s, Step(CallOf(1), true));
    es', s' := Deliver(c, s, es', s', 0, X, s.threads[TimerOf(0)].pc);
  }

  lemma AReopened(c: Config) returns (es: seq<Event>, s: State)
    requires 0 < c.window < c.ttl
    ensures IsRun(c, Timed, Start(), es) && s == Final(c, Start(), es)
    ensures s.now == c.window && s.rows == map[X := RowX(c)] && s.outbox == []
    ensures s.pending == map[X := Entry([Claimant("a", 3)], 3)]
    ensures PcIs(s, TimerOf(0), "a", Marking(Claimant("a", 0), c.window, RowX(c), c.window))
    ensures PcIs(s, TimerOf(3), "a", Armed) && PcIs(s, CallOf(1), "b", Locking(RowX(c), 0))
  {
    es, s := AChecked(c);
    es, s := Arrive(c, Start(), es, s, 3, "a", X);
    es, s := Do(c, Start(), es, s, Step(CallOf(3), true));
  }

  // ---- Failing calls --------------------------------------------------------------------

  /** A run whose one failing call is the invalidation of a dual claim, and a run that goes on from there. */
  lemma AfterFailedWrite(c: Config, es: seq<Event>, s: State, es': seq<Event>) returns (whole: seq<Event>)
    requires IsRun(c, Timed, Start(), es) && s == Final(c, Start(), es)
    requires CallOf(1) in s.threads && s.threads[CallOf(1)].pc.Invalidating?
    requires IsRun(c, Timed, Next(c, s, Step(CallOf(1), false)), es')
    ensures IsRun(c, Lossy, Start(), whole)
    ensures Final(c, Start(), whole) == Final(c, Next(c, s, Step(CallOf(1), false)), es')
  {
    var e := Step(CallOf(1), false);
    var s' := Next(c, s, e);
    TimedRunsAreLossy(c, Start(), es);
    TimedRunsAreLossy(c, s', es');
    assert ([e] + es')[1..] == es';
    RunsAppend(c, Lossy, Start(), es, [e] + es');
    whole := es + ([e] + es');
  }

  /** "b" has ended the window of "a", whose timer had fired, and failed to write; its retry is poised. */
  ghost predicate Lost(c: Config, s: State, at: Millis) {
    && s.now == at && s.rows == map[X := RowX(c)] && s.outbox == [] && s.pending == map[]
    && s.threads.Keys == {CallOf(0), CallOf(1), CallOf(2), TimerOf(0)}
    && s.threads[CallOf(0)].pc == Opened && s.threads[CallOf(1)].pc.Sending?
    && PcIs(s, CallOf(2), "b", Locking(RowX(c), 0))
  }

  lemma WriteFails(c: Config) returns (es: seq<Event>, s: State)
    requires 0 < c.window < c.ttl
    ensures IsRun(c, Timed, Start(), es) && s == Final(c, Start(), es)
    ensures CallOf(1) in s.threads && s.threads[CallOf(1)].pc.Invalidating?
    ensures var s' := Next(c, s, Step(CallOf(1), false)); Lost(c, s', c.window) && PcIs(s', TimerOf(0), "a", Fired)
  {
    es, s := AboutToFail(c);
  }

  lemma AboutToFail(c: Config) returns (es: seq<Event>, s: State)
    requires 0 < c.window < c.ttl
    ensures IsRun(c, Timed, Start(), es) && s == Final(c, Start(), es)
    ensures s.now == c.window && s.rows == map[X := RowX(c)] && s.outbox == [] && s.pending == map[]
    ensures s.threads.Keys == {CallOf(0), CallOf(1), CallOf(2), TimerOf(0)}
    ensures s.threads[CallOf(0)].pc == Opened && PcIs(s, TimerOf(0), "a", Fired)
    ensures PcIs(s, CallOf(1), "b", Invalidating([Claimant("a", 0), Claimant("b", 1)], c.window))
    ensures PcIs(s, CallOf(2), "b", Locking(RowX(c), 0))
  {
    es, s := ReachAFired(c);
    assert s.threads.Keys == {CallOf(0), CallOf(1), CallOf(2), TimerOf(0)};
    es, s := Kill(c, es, s);
  }

  /** The fired timer of the first window takes the window which "b" then held; at the same instant
      that window's own timer takes a third one; and both check before either writes. */
  lemma BothCheckLate(c: Config, s: State) returns (es: seq<Event>, s': State)
    requires 0 < c.window && 2 * c.window < c.ttl && Lost(c, s, c.window) && PcIs(s, TimerOf(0), "a", Fired)
    ensures IsRun(c, Timed, s, es) && s' == Final(c, s, es) && s'.rows == map[X := RowX(c)] && s'.outbox == []
    ensures PcIs(s', TimerOf(0), "a", Marking(Claimant("b", 2), 2 * c.window, RowX(c), 2 * c.window))
    ensures PcIs(s', TimerOf(2), "b", Marking(Claimant("a", 3), 2 * c.window, RowX(c), 2 * c.window))
  {
    es, s' := BTaken(c, s);
    es, s' := Arrive(c, s, es, s', 3, "a", X);
    es, s' := Do(c, s, es, s', Step(CallOf(3), true));
    assert s'.pending[X] == Entry([Claimant("a", 3)], 3);
    es, s' := Check(c, s, es, s', 2, 3, "a", X);
  }

  lemma BTaken(c: Config, s: State) returns (es: seq<Event>, s': State)
    requires 0 < c.window && 2 * c.window < c.ttl && Lost(c, s, c.window) && PcIs(s, TimerOf(0), "a", Fired)
    ensures IsRun(c, Timed, s, es) && s' == Final(c, s, es) && s'.rows == map[X := RowX(c)] && s'.outbox == []
    ensures s'.now == 2 * c.window && s'.pending == map[] && CallOf(3) !in s'.threads
    ensures PcIs(s', TimerOf(0), "a", Marking(Claimant("b", 2), 2 * c.window, RowX(c), 2 * c.window))
    ensures PcIs(s', TimerOf(2), "b", Fired)
  {
    es, s' := OpenAndFire(c, s, [], s, 2, "b");
    es, s' := Check(c, s, es, s', 0, 2, "b", X);
  }

  /** That calls succeed is needed for at most one payload, at any tail: one failed write of an
      invalidation is enough for two devices to be paid, if the OTP lives for two windows. */
  lemma FailedWritePaysTwice(c: Config) returns (es: seq<Event>)
    requires 0 < c.window && 2 * c.window < c.ttl
    ensures IsRun(c, Lossy, Start(), es)
    ensures PayloadsOf(Final(c, Start(), es).outbox, X) == [Paid("b", 2, 0, 2 * c.window), Paid("a", 3, 2, 2 * c.window)]
  {
    var s;
    es, s := WriteFails(c);
    var s1 := Next(c, s, Step(CallOf(1), false));
    var es', s' := BothCheckLate(c, s1);
    es', s' := Deliver(c, s1, es', s', 0, X, s'.threads[TimerOf(0)].pc);
    es', s' := Deliver(c, s1, es', s', 2, X, s'.threads[TimerOf(2)].pc);
    es := AfterFailedWrite(c, es, s, es');
    BothPayloads(Paid("b", 2, 0, 2 * c.window), Paid("a", 3, 2, 2 * c.window));
  }

  /** And for a cancelled first window: when the write of the invalidation fails, the next claim is paid. */
  lemma FailedWriteDelivers(c: Config) returns (es: seq<Event>)
    requires 0 < c.window < c.ttl
    ensures IsRun(c, Lossy, Start(), es)
    ensures FirstTimerStopped(Final(c, Start(), es), X)
    ensures Final(c, Start(), es).outbox == [Paid("b", 2, 2, c.window)]
  {
    var s;
    es, s := CutFails(c);
    var es' := RetryPaid(c, Next(c, s, Step(CallOf(1), false)));
    es := AfterFailedWrite(c, es, s, es');
  }

  lemma CutFails(c: Config) returns (es: seq<Event>, s: State)
    requires 0 < c.window < c.ttl
    ensures IsRun(c, Timed, Start(), es) && s == Final(c, Start(), es)
    ensures CallOf(1) in s.threads && s.threads[CallOf(1)].pc.Invalidating?
    ensures var s' := Next(c, s, Step(CallOf(1), false));
            Lost(c, s', 0) && PcIs(s', TimerOf(0), "a", Stopped) && s'.first == map[X := 0]
  {
    es, s := ReachCut(c);
    assert s.threads.Keys == {CallOf(0), CallOf(1), CallOf(2), TimerOf(0)};
  }

  lemma RetryPaid(c: Config, s: State) returns (es: seq<Event>)
    requires 0 < c.window < c.ttl && Lost(c, s, 0) && PcIs(s, TimerOf(0), "a", Stopped) && s.first == map[X := 0]
    ensures IsRun(c, Timed, s, es) && FirstTimerStopped(Final(c, s, es), X)
    ensures Final(c, s, es).outbox == [Paid("b", 2, 2, c.window)]
  {
    var s';
    es, s' := OpenAndFire(c, s, [], s, 2, "b");
    es, s' := Check(c, s, es, s', 2, 2, "b", X);
    es, s' := Deliver(c, s, es, s', 2, X, s'.threads[TimerOf(2)].pc);
  }
}
