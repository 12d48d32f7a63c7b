/**
  The claim coordinator as a transition system over its in-flight handlers.

  A handler is a thread with a program counter.  `CallOf(h)` is the h-th call of `Claim`;
  `TimerOf(h)` is the timer (and, once fired, the `resolve` callback) of the window which
  that call opened.  A window, its timer and its opening call therefore share one id.

  `windows`, `first`, and the tags in `Sent` are history: no branch reads them.
 */
module Protocol {
  import opened Types
  import opened Tables

  type CallId = nat

  /** `window` and `ttl` are the configured durations; `tail` bounds how long a handler that has
      left the lock may still owe its status write (used by the `Lossy` and `Timed` rules only). */
  datatype Config = Config(window: int, ttl: int, tail: int) {
    predicate Valid() {
      0 < window && 30_000 <= ttl && 0 <= tail < window
    }
  }

  datatype Tid = CallOf(call: CallId) | TimerOf(window: CallId)

  datatype Claimant = Claimant(device: DeviceId, call: CallId)

  /** An envelope with the call it answers, the thread that sent it, and the instant of the
      clock check or table read that decided it. */
  datatype Sent = Sent(env: Envelope, call: CallId, sender: Tid, at: Millis)

  datatype Pc =
    // a call of Claim
    | Begin                                // about to read the row
    | Checking(row: Row)                   // about to look at the clock
    | Locking(row: Row, liveAt: Millis)    // about to enter the locked section
    | Opened                               // returned; its window answers for it
    | Repeated                             // returned; a retry of the window's claimant
    // a timer and its callback
    | Armed
    | Stopped
    | Fired                                // about to enter the locked section
    | Reloading(winner: Claimant, since: Millis)
    | Rechecking(winner: Claimant, since: Millis, row: Row)
    | Marking(winner: Claimant, since: Millis, row: Row, checkedAt: Millis)
    // either
    | Invalidating(claimants: seq<Claimant>, since: Millis)
    | Sending(mail: seq<Sent>)
    | Done

  datatype Thread = Thread(device: DeviceId, otp: OtpId, pc: Pc)

  /** The value of `pending[otp]`: a `claimState`. */
  datatype Entry = Entry(claimants: seq<Claimant>, window: CallId)

  datatype Ending = StillOpen | Taken(timer: CallId, at: Millis) | Killed(call: CallId, at: Millis)

  datatype Window = Window(otp: OtpId, opener: DeviceId, seen: Row, liveAt: Millis, openedAt: Millis, end: Ending)

  datatype State = State(
    now: Millis,
    rows: map<OtpId, Row>,
    pending: map<OtpId, Entry>,
    threads: map<Tid, Thread>,
    windows: map<CallId, Window>,
    first: map<OtpId, CallId>,
    outbox: seq<Sent>)

  /** `ok` says whether the database call of that step succeeds. */
  datatype Event =
    | Tick(to: Millis)
    | Ingest(id: OtpId, source: DeviceId, ciphertext: string, iv: string)
    | Claim(call: CallId, device: DeviceId, otp: OtpId)
    | Fire(window: CallId)
    | Step(tid: Tid, ok: bool)
    | Sweep

  // ---- Building blocks ------------------------------------------------------

  function Become(s: State, t: Tid, pc: Pc): State
    requires t in s.threads
  {
    s.(threads := s.threads[t := s.threads[t].(pc := pc)])
  }

  function Reject(s: State, to: Claimant, otp: OtpId, reason: Reason, sender: Tid): Pc {
    Sending([Sent(Envelope(to.device, otp, Rejection(reason)), to.call, sender, s.now)])
  }

  function Notice(to: Claimant, otp: OtpId, sender: Tid, at: Millis): Sent {
    Sent(Envelope(to.device, otp, InvalidatedNotice), to.call, sender, at)
  }

  function Notices(claimants: seq<Claimant>, otp: OtpId, sender: Tid, at: Millis): (mail: seq<Sent>)
    ensures |mail| == |claimants|
    ensures forall i :: 0 <= i < |mail| ==> mail[i] == Notice(claimants[i], otp, sender, at)
  {
    seq(|claimants|, i requires 0 <= i < |claimants| => Notice(claimants[i], otp, sender, at))
  }

  predicate HasClaimed(claimants: seq<Claimant>, device: DeviceId) {
    exists i :: 0 <= i < |claimants| && claimants[i].device == device
  }

  function Close(windows: map<CallId, Window>, w: CallId, end: Ending): map<CallId, Window> {
    if w in windows then windows[w := windows[w].(end := end)] else windows
  }

  /** `timer.Stop()`: cancels a timer that has not fired, and does nothing to one that has. */
  function StopTimer(threads: map<Tid, Thread>, w: CallId): map<Tid, Thread> {
    if TimerOf(w) in threads && threads[TimerOf(w)].pc == Armed
    then threads[TimerOf(w) := threads[TimerOf(w)].(pc := Stopped)]
    else threads
  }

  // ---- The locked sections ---------------------------------------------------

  function OpenWindow(s: State, h: CallId, th: Thread, row: Row, liveAt: Millis): State {
    s.(
      threads := s.threads[CallOf(h) := th.(pc := Opened)][TimerOf(h) := th.(pc := Armed)],
      pending := s.pending[th.otp := Entry([Claimant(th.device, h)], h)],
      windows := s.windows[h := Window(th.otp, th.device, row, liveAt, s.now, StillOpen)],
      first := if th.otp in s.first then s.first else s.first[th.otp := h])
  }

  function KillWindow(s: State, h: CallId, th: Thread): State
    requires th.otp in s.pending
  {
    var entry := s.pending[th.otp];
    var claimants := entry.claimants + [Claimant(th.device, h)];
    s.(
      threads := StopTimer(s.threads, entry.window)[CallOf(h) := th.(pc := Invalidating(claimants, s.now))],
      pending := s.pending - {th.otp},
      windows := Close(s.windows, entry.window, Killed(h, s.now)))
  }

  function ClaimLocked(s: State, h: CallId, th: Thread): State
    requires CallOf(h) in s.threads && th.pc.Locking?
  {
    if th.otp !in s.pending then OpenWindow(s, h, th, th.pc.row, th.pc.liveAt)
    else if HasClaimed(s.pending[th.otp].claimants, th.device) then Become(s, CallOf(h), Repeated)
    else KillWindow(s, h, th)
  }

  function ResolveLocked(s: State, w: CallId, th: Thread): State
    requires TimerOf(w) in s.threads
  {
    if th.otp !in s.pending then Become(s, TimerOf(w), Done)
    else
      var entry := s.pending[th.otp];
      var pc := if |entry.claimants| != 1 then Invalidating(entry.claimants, s.now)
                else Reloading(entry.claimants[0], s.now);
      Become(s, TimerOf(w), pc).(
        pending := s.pending - {th.otp},
        windows := Close(s.windows, entry.window, Taken(w, s.now)))
  }

  // ---- Steps outside the lock: one thread moves, and may write its row or send ----

  function AfterRead(s: State, h: CallId, th: Thread, ok: bool): Pc {
    var me := Claimant(th.device, h);
    if !ok then Reject(s, me, th.otp, InternalError, CallOf(h))
    else if th.otp !in s.rows then Reject(s, me, th.otp, OtpNotFound, CallOf(h))
    else Checking(s.rows[th.otp])
  }

  function AfterCheck(s: State, h: CallId, th: Thread, row: Row): Pc {
    var me := Claimant(th.device, h);
    if row.status == Expired || (row.status == Pending && row.expiresAt <= s.now) then
      Reject(s, me, th.otp, OtpExpired, CallOf(h))
    else match row.status
      case Claimed => Reject(s, me, th.otp, AlreadyClaimed, CallOf(h))
      case Invalidated => Sending([Notice(me, th.otp, CallOf(h), s.now)])
      case _ => Locking(row, s.now)
  }

  function AfterReload(s: State, t: Tid, th: Thread, winner: Claimant, since: Millis, ok: bool): Pc {
    if !ok || th.otp !in s.rows then Reject(s, winner, th.otp, InternalError, t)
    else Rechecking(winner, since, s.rows[th.otp])
  }

  function AfterRecheck(s: State, t: Tid, th: Thread, winner: Claimant, since: Millis, row: Row): Pc {
    if Dead(row, s.now) then Reject(s, winner, th.otp, OtpExpired, t)
    else Marking(winner, since, row, s.now)
  }

  function AfterMark(s: State, t: Tid, th: Thread, winner: Claimant, row: Row, checkedAt: Millis, ok: bool): Pc {
    if !ok || th.otp !in s.rows then Reject(s, winner, th.otp, InternalError, t)
    else
      var payload := Envelope(winner.device, th.otp, Payload(row.ciphertext, row.iv));
      Sending([Sent(payload, winner.call, t, checkedAt)])
  }

  function AfterSend(mail: seq<Sent>): Pc {
    if |mail| <= 1 then Done else Sending(mail[1..])
  }

  function NextPc(s: State, t: Tid, th: Thread, ok: bool): Pc {
    match th.pc
    case Begin => if t.CallOf? then AfterRead(s, t.call, th, ok) else th.pc
    case Checking(row) => if t.CallOf? then AfterCheck(s, t.call, th, row) else th.pc
    case Reloading(winner, since) => AfterReload(s, t, th, winner, since, ok)
    case Rechecking(winner, since, row) => AfterRecheck(s, t, th, winner, since, row)
    case Marking(winner, _, row, checkedAt) => AfterMark(s, t, th, winner, row, checkedAt, ok)
    case Invalidating(claimants, _) => Sending(Notices(claimants, th.otp, t, s.now))
    case Sending(mail) => AfterSend(mail)
    case _ => th.pc
  }

  /** The status writes; a call that fails changes nothing. */
  function NextRows(rows: map<OtpId, Row>, th: Thread, ok: bool): map<OtpId, Row> {
    if !ok then rows
    else if th.pc.Marking? then SetStatus(rows, th.otp, Claimed, Some(th.pc.winner.device))
    else if th.pc.Invalidating? then SetStatus(rows, th.otp, Invalidated, None)
    else rows
  }

  function NextOutbox(outbox: seq<Sent>, pc: Pc): seq<Sent> {
    if pc.Sending? && pc.mail != [] then outbox + [pc.mail[0]] else outbox
  }

  function LocalStep(s: State, t: Tid, th: Thread, ok: bool): State {
    s.(
      threads := s.threads[t := th.(pc := NextPc(s, t, th, ok))],
      rows := NextRows(s.rows, th, ok),
      outbox := NextOutbox(s.outbox, th.pc))
  }

  function StepThread(s: State, t: Tid, ok: bool): State
    requires t in s.threads
  {
    var th := s.threads[t];
    if t.CallOf? && th.pc.Locking? then ClaimLocked(s, t.call, th)
    else if t.TimerOf? && th.pc.Fired? then ResolveLocked(s, t.window, th)
    else LocalStep(s, t, th, ok)
  }

  // ---- The transition relation ----------------------------------------------

  predicate Runnable(pc: Pc) {
    !(pc.Opened? || pc.Repeated? || pc.Armed? || pc.Stopped? || pc.Done?)
  }

  /** Has left the lock and not yet written the status it decided on. */
  predicate OwesWrite(pc: Pc) {
    pc.Reloading? || pc.Rechecking? || pc.Marking? || pc.Invalidating?
  }

  predicate Enabled(c: Config, s: State, e: Event) {
    match e
    case Tick(to) => s.now <= to
    case Ingest(_, _, _, _) => true
    case Claim(h, _, _) => CallOf(h) !in s.threads
    case Fire(w) =>
      && TimerOf(w) in s.threads && s.threads[TimerOf(w)].pc == Armed
      && w in s.windows && s.windows[w].openedAt + c.window <= s.now
    case Step(t, _) => t in s.threads && Runnable(s.threads[t].pc)
    case Sweep => true
  }

  function Next(c: Config, s: State, e: Event): State
    requires Enabled(c, s, e)
  {
    match e
    case Tick(to) => s.(now := to)
    case Ingest(id, source, ciphertext, iv) =>
      if id in s.rows then s else s.(rows := s.rows[id := FreshRow(c.ttl, s.now, source, ciphertext, iv)])
    case Claim(h, device, otp) => s.(threads := s.threads[CallOf(h) := Thread(device, otp, Begin)])
    case Fire(w) => Become(s, TimerOf(w), Fired)
    case Step(t, ok) => StepThread(s, t, ok)
    case Sweep => s.(rows := SweptRows(s.rows, s.now))
  }

  /** A freshly started process: an arbitrary table, nothing in memory. */
  predicate Initial(s: State) {
    s.pending == map[] && s.threads == map[] && s.windows == map[] && s.first == map[] && s.outbox == []
  }

  // ---- Scheduling rules -------------------------------------------------------

  /**
    Free: every interleaving, and any database call may fail.
    Lossy: a handler that has left the lock is done with its status write, landed or failed, within
      `tail`, which blocks the clock from passing that deadline.
    Timed: as Lossy, and database calls succeed.
    Atomic: database calls succeed; the read-and-check of a call is one step, and so is
      everything a handler does from the locked section on.
   */
  datatype Rule = Free | Lossy | Timed | Atomic

  predicate CallsSucceed(e: Event) {
    e.Step? ==> e.ok
  }

  predicate Punctual(c: Config, s: State, e: Event) {
    e.Tick? ==> forall t | t in s.threads && OwesWrite(s.threads[t].pc) :: e.to <= s.threads[t].pc.since + c.tail
  }

  /** Between two of its atomic steps. */
  predicate Resting(pc: Pc) {
    !Runnable(pc) || pc.Locking? || pc.Fired?
  }

  predicate Exclusive(s: State, e: Event) {
    forall t | t in s.threads && !Resting(s.threads[t].pc) :: e == Step(t, true)
  }

  predicate Allowed(c: Config, rule: Rule, s: State, e: Event) {
    && Enabled(c, s, e)
    && (rule == Timed || rule == Atomic ==> CallsSucceed(e))
    && (rule == Lossy || rule == Timed ==> Punctual(c, s, e))
    && (rule == Atomic ==> Exclusive(s, e))
  }

  predicate IsRun(c: Config, rule: Rule, s: State, es: seq<Event>)
    decreases es
  {
    es == [] || (Allowed(c, rule, s, es[0]) && IsRun(c, rule, Next(c, s, es[0]), es[1..]))
  }

  /** The state after the events, cut short at one that is not enabled. */
  function Final(c: Config, s: State, es: seq<Event>): State
    decreases es
  {
    if es == [] || !Enabled(c, s, es[0]) then s else Final(c, Next(c, s, es[0]), es[1..])
  }

  // ---- Runs, put together ---------------------------------------------------------

  lemma RunCons(c: Config, s: State, e: Event, es: seq<Event>)
    requires Enabled(c, s, e)
    ensures IsRun(c, Free, s, [e] + es) <==> IsRun(c, Free, Next(c, s, e), es)
    ensures Final(c, s, [e] + es) == Final(c, Next(c, s, e), es)
  {
    assert ([e] + es)[1..] == es;
  }

  lemma {:induction false} RunsAppend(c: Config, rule: Rule, s: State, es: seq<Event>, es': seq<Event>)
    requires IsRun(c, rule, s, es) && IsRun(c, rule, Final(c, s, es), es')
    ensures IsRun(c, rule, s, es + es') && Final(c, s, es + es') == Final(c, Final(c, s, es), es')
    decreases es
  {
    if es == [] {
      assert es + es' == es';
    } else {
      assert (es + es')[1..] == es[1..] + es';
      RunsAppend(c, rule, Next(c, s, es[0]), es[1..], es');
    }
  }

  lemma TimedRunsAreLossy(c: Config, s: State, es: seq<Event>)
    requires IsRun(c, Timed, s, es)
    ensures IsRun(c, Lossy, s, es)
    decreases es
  {
    if es != [] {
      TimedRunsAreLossy(c, Next(c, s, es[0]), es[1..]);
    }
  }

  lemma RunsAreFree(c: Config, rule: Rule, s: State, es: seq<Event>)
    requires IsRun(c, rule, s, es)
    ensures IsRun(c, Free, s, es)
    decreases es
  {
    if es != [] {
      RunsAreFree(c, rule, Next(c, s, es[0]), es[1..]);
    }
  }
}
