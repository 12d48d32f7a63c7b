/**
  The coordinator with every call of `Claim` and every timer firing as one step: the state it
  works on, as a value, and the effect of each step.
 */
module Serial {
  import opened Types
  import opened Tables

  datatype Phase = Ticking | Stopped | Rung

  datatype Timer = Timer(otp: OtpId, armedAt: Millis, phase: Phase)

  datatype ClaimState = ClaimState(claimants: seq<DeviceId>, timer: nat)

  /** `faults` foretells the coming database calls: the next one fails when its head is true.
      Past its end every call succeeds. */
  datatype Mem = Mem(
    now: Millis,
    rows: map<OtpId, Row>,
    faults: seq<bool>,
    pending: map<OtpId, ClaimState>,
    timers: map<nat, Timer>,
    outbox: seq<Envelope>)

  predicate Faulty(faults: seq<bool>) {
    faults != [] && faults[0]
  }

  function Rest(faults: seq<bool>): seq<bool> {
    if faults == [] then [] else faults[1..]
  }

  function Send(m: Mem, to: DeviceId, otp: OtpId, body: Body): Mem {
    m.(outbox := m.outbox + [Envelope(to, otp, body)])
  }

  function NoticesTo(claimants: seq<DeviceId>, otp: OtpId): (mail: seq<Envelope>)
    ensures |mail| == |claimants|
    ensures forall i :: 0 <= i < |mail| ==> mail[i] == Envelope(claimants[i], otp, InvalidatedNotice)
  {
    seq(|claimants|, i requires 0 <= i < |claimants| => Envelope(claimants[i], otp, InvalidatedNotice))
  }

  function IngestEffect(m: Mem, ttl: int, id: OtpId, source: DeviceId, ciphertext: string, iv: string): Mem {
    var after := m.(faults := Rest(m.faults));
    if Faulty(m.faults) || id in m.rows then after
    else after.(rows := m.rows[id := FreshRow(ttl, m.now, source, ciphertext, iv)])
  }

  function InvalidateEffect(m: Mem, otp: OtpId, claimants: seq<DeviceId>): Mem {
    m.(
      rows := if Faulty(m.faults) then m.rows else SetStatus(m.rows, otp, Invalidated, None),
      faults := Rest(m.faults),
      outbox := m.outbox + NoticesTo(claimants, otp))
  }

  function StopTimer(timers: map<nat, Timer>, t: nat): map<nat, Timer> {
    if t in timers && timers[t].phase == Ticking then timers[t := timers[t].(phase := Stopped)] else timers
  }

  /** The locked section of a claim; `t` is the id of the timer it may arm. */
  function JoinEffect(m: Mem, t: nat, device: DeviceId, otp: OtpId): Mem {
    if otp !in m.pending then
      m.(timers := m.timers[t := Timer(otp, m.now, Ticking)], pending := m.pending[otp := ClaimState([device], t)])
    else if device in m.pending[otp].claimants then m
    else
      var st := m.pending[otp];
      InvalidateEffect(m.(timers := StopTimer(m.timers, st.timer), pending := m.pending - {otp}), otp, st.claimants + [device])
  }

  function ClaimEffect(m: Mem, t: nat, device: DeviceId, otp: OtpId): Mem {
    var after := m.(faults := Rest(m.faults));
    if Faulty(m.faults) then Send(after, device, otp, Rejection(InternalError))
    else if otp !in m.rows then Send(after, device, otp, Rejection(OtpNotFound))
    else
      var row := m.rows[otp];
      if row.status == Expired || (row.status == Pending && row.expiresAt <= m.now) then
        Send(after, device, otp, Rejection(OtpExpired))
      else match row.status
        case Claimed => Send(after, device, otp, Rejection(AlreadyClaimed))
        case Invalidated => Send(after, device, otp, InvalidatedNotice)
        case _ => JoinEffect(after, t, device, otp)
  }

  /** Delivery to the sole claimant, once its window has been taken. */
  function DeliverEffect(m: Mem, otp: OtpId, winner: DeviceId): Mem {
    var after := m.(faults := Rest(m.faults));
    if Faulty(m.faults) || otp !in m.rows then Send(after, winner, otp, Rejection(InternalError))
    else if Dead(m.rows[otp], m.now) then Send(after, winner, otp, Rejection(OtpExpired))
    else
      var last := after.(faults := Rest(after.faults));
      if Faulty(after.faults) then Send(last, winner, otp, Rejection(InternalError))
      else
        Send(last.(rows := SetStatus(m.rows, otp, Claimed, Some(winner))), winner, otp,
             Payload(m.rows[otp].ciphertext, m.rows[otp].iv))
  }

  function ResolveEffect(m: Mem, otp: OtpId): Mem {
    if otp !in m.pending then m
    else
      var claimants := m.pending[otp].claimants;
      var after := m.(pending := m.pending - {otp});
      if |claimants| != 1 then InvalidateEffect(after, otp, claimants)
      else DeliverEffect(after, otp, claimants[0])
  }

  predicate CanFire(m: Mem, window: int, t: nat) {
    t in m.timers && m.timers[t].phase == Ticking && m.timers[t].armedAt + window <= m.now
  }

  /** The timer goes off and runs its callback. */
  function FireEffect(m: Mem, t: nat): Mem
    requires t in m.timers
  {
    ResolveEffect(m.(timers := m.timers[t := m.timers[t].(phase := Rung)]), m.timers[t].otp)
  }

  function SweepEffect(m: Mem): Mem {
    m.(
      rows := if Faulty(m.faults) then m.rows else SweptRows(m.rows, m.now),
      faults := Rest(m.faults))
  }

  // ---- Traces ---------------------------------------------------------------------

  datatype Event =
    | Clock(to: Millis)
    | Push(id: OtpId, source: DeviceId, ciphertext: string, iv: string)
    | Call(call: nat, device: DeviceId, otp: OtpId)
    | Ring(timer: nat)
    | Clean

  function Next(ttl: int, m: Mem, e: Event): Mem {
    match e
    case Clock(to) => m.(now := to)
    case Push(id, source, ciphertext, iv) => IngestEffect(m, ttl, id, source, ciphertext, iv)
    case Call(call, device, otp) => ClaimEffect(m, call, device, otp)
    case Ring(timer) => if timer in m.timers then FireEffect(m, timer) else m
    case Clean => SweepEffect(m)
  }

  /** Calls are numbered apart; a timer rings once, and only when it has run its course. */
  datatype Trace = Trace(window: int, ttl: int, start: Mem, events: seq<Event>) {
    /** The state in which event `n` happens. */
    function At(n: nat): Mem
      requires n <= |events|
    {
      if n == 0 then start else Next(ttl, At(n - 1), events[n - 1])
    }

    predicate Possible(n: nat)
      requires n < |events|
    {
      match events[n]
      case Clock(to) => At(n).now <= to
      case Call(call, _, _) => call !in At(n).timers && forall i | 0 <= i < n && events[i].Call? :: events[i].call != call
      case Ring(timer) => CanFire(At(n), window, timer)
      case _ => true
    }

    /** A run of a coordinator that starts with nothing in memory. */
    predicate IsRun() {
      && start.pending == map[] && start.timers == map[] && start.outbox == []
      && forall n | 0 <= n < |events| :: Possible(n)
    }
  }
}
