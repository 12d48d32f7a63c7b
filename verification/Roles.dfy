/**
  Roles across the whole system: devices are registered with a kind that never changes, sockets
  copy it when they connect, and the two entry routes (WebSocket and REST) check it.
 */
module Roles {
  import opened Types
  import P = Protocol
  import L = Lifecycle
  import V = Provenance
  import R = Registries
  import W = Connections

  type SocketId = nat

  datatype Socket = Socket(device: DeviceId, kind: DeviceKind)

  datatype Site = Site(devices: map<DeviceId, Device>, sockets: map<SocketId, Socket>, relay: P.State)

  /** `id` and `call` are the fresh random id of a new OTP and the number of a new call, used when
      the request leads to one. */
  datatype Event =
    | Enroll(device: DeviceId, row: Device)
    | Revoke(device: DeviceId)
    | Connect(socket: SocketId, token: string, device: DeviceId)
    | Disconnect(socket: SocketId)
    | Receive(socket: SocketId, message: W.Message, id: OtpId, call: P.CallId)
    | RestPush(token: string, device: DeviceId, ciphertext: string, iv: string, id: OtpId)
    | RestClaim(token: string, device: DeviceId, otp: OtpId, call: P.CallId)
    | Inside(e: P.Event)

  /** What the routed message makes the coordinator do; empty fields are dropped. */
  function Dispatch(r: W.Routed, id: OtpId, call: P.CallId): Option<P.Event> {
    match r
    case OnPush(source, ciphertext, iv) =>
      if ciphertext == "" || iv == "" then None else Some(P.Ingest(id, source, ciphertext, iv))
    case OnClaim(claimant, otp) => if otp == "" then None else Some(P.Claim(call, claimant, otp))
    case Reply(_) => None
  }

  /** The coordinator event an event of the site gives rise to. */
  function Effect(s: Site, e: Event): Option<P.Event> {
    match e
    case Receive(k, message, id, call) =>
      if k !in s.sockets then None
      else Dispatch(W.Route(s.sockets[k].device, s.sockets[k].kind, message), id, call)
    case RestPush(_, device, ciphertext, iv, id) =>
      if device !in s.devices || s.devices[device].kind != Source || ciphertext == "" || iv == "" then None
      else Some(P.Ingest(id, device, ciphertext, iv))
    case RestClaim(_, device, otp, call) =>
      if device !in s.devices || s.devices[device].kind != Destination || otp == "" then None
      else Some(P.Claim(call, device, otp))
    case Inside(p) => Some(p)
    case _ => None
  }

  /** A device is enrolled under a fresh id, and enters by its live token; the coordinator's own
      events are the clock, its handlers, its timers and the janitor. */
  predicate Possible(c: P.Config, s: Site, e: Event) {
    && (match e
        case Enroll(d, _) => d !in s.devices
        case Revoke(d) => d in s.devices
        case Connect(k, token, d) => k !in s.sockets && R.LiveToken(s.devices, d, token)
        case Disconnect(k) => k in s.sockets
        case Receive(k, _, _, _) => k in s.sockets
        case RestPush(token, d, _, _, _) => R.LiveToken(s.devices, d, token)
        case RestClaim(token, d, _, _) => R.LiveToken(s.devices, d, token)
        case Inside(p) => !p.Ingest? && !p.Claim?)
    && (Effect(s, e).Some? ==> P.Enabled(c, s.relay, Effect(s, e).value))
  }

  function Next(c: P.Config, s: Site, e: Event): Site
    requires Possible(c, s, e)
  {
    var relay := match Effect(s, e)
      case None => s.relay
      case Some(p) => P.Next(c, s.relay, p);
    match e
    case Enroll(d, row) => s.(devices := s.devices[d := row])
    case Revoke(d) => s.(devices := s.devices[d := s.devices[d].(revoked := true)])
    case Connect(k, _, d) => s.(sockets := s.sockets[k := Socket(d, s.devices[d].kind)])
    case Disconnect(k) => s.(sockets := s.sockets - {k})
    case _ => s.(relay := relay)
  }

  predicate IsRun(c: P.Config, s: Site, es: seq<Event>)
    decreases es
  {
    es == [] || (Possible(c, s, es[0]) && IsRun(c, Next(c, s, es[0]), es[1..]))
  }

  function Final(c: P.Config, s: Site, es: seq<Event>): Site
    decreases es
  {
    if es == [] || !Possible(c, s, es[0]) then s else Final(c, Next(c, s, es[0]), es[1..])
  }

  // ---- Invariant -------------------------------------------------------------------

  predicate Is(devices: map<DeviceId, Device>, d: DeviceId, kind: DeviceKind) {
    d in devices && devices[d].kind == kind
  }

  ghost predicate RowRoles(devices: map<DeviceId, Device>, row: Row) {
    && Is(devices, row.source, Source)
    && (row.claimedBy.Some? ==> Is(devices, row.claimedBy.value, Destination))
  }

  ghost predicate RelayRoles(devices: map<DeviceId, Device>, s: P.State) {
    && (forall x {:trigger s.rows[x]} | x in s.rows :: RowRoles(devices, s.rows[x]))
    && (forall t {:trigger s.threads[t]} | t in s.threads && t.CallOf? :: Is(devices, s.threads[t].device, Destination))
  }

  ghost predicate RolesOk(s: Site) {
    && (forall k | k in s.sockets :: Is(s.devices, s.sockets[k].device, s.sockets[k].kind))
    && RelayRoles(s.devices, s.relay)
  }

  lemma WinnerIsDestination(devices: map<DeviceId, Device>, s: P.State, t: P.Tid)
    requires L.WellFormed(s) && RelayRoles(devices, s) && t in s.threads && s.threads[t].pc.Marking?
    ensures Is(devices, s.threads[t].pc.winner.device, Destination)
  {
    assert L.ThreadOk(s, t);
    assert L.WindowOk(s, s.threads[t].pc.winner.call);
  }

  lemma RowKeepsRoles(devices: map<DeviceId, Device>, s: P.State, t: P.Tid, ok: bool, x: OtpId)
    requires L.WellFormed(s) && RelayRoles(devices, s) && t in s.threads && x in s.rows
    ensures x in P.NextRows(s.rows, s.threads[t], ok) && RowRoles(devices, P.NextRows(s.rows, s.threads[t], ok)[x])
  {
    assert RowRoles(devices, s.rows[x]);
    if s.threads[t].pc.Marking? {
      WinnerIsDestination(devices, s, t);
    }
  }

  lemma CallerKeepsRole(c: P.Config, devices: map<DeviceId, Device>, s: P.State, p: P.Event, h: P.CallId)
    requires L.WellFormed(s) && RelayRoles(devices, s) && P.Enabled(c, s, p) && !p.Claim?
    requires P.CallOf(h) in P.Next(c, s, p).threads
    ensures Is(devices, P.Next(c, s, p).threads[P.CallOf(h)].device, Destination)
  {
    V.CallsStay(c, s, p, h);
  }

  lemma StepRoles(c: P.Config, devices: map<DeviceId, Device>, s: P.State, t: P.Tid, ok: bool)
    requires L.WellFormed(s) && RelayRoles(devices, s) && t in s.threads && P.Runnable(s.threads[t].pc)
    ensures RelayRoles(devices, P.StepThread(s, t, ok))
  {
    var s' := P.StepThread(s, t, ok);
    forall x | x in s'.rows ensures RowRoles(devices, s'.rows[x]) {
      if x in s.rows { RowKeepsRoles(devices, s, t, ok, x); }
    }
    forall u | u in s'.threads && u.CallOf? ensures Is(devices, s'.threads[u].device, Destination) {
      CallerKeepsRole(c, devices, s, P.Step(t, ok), u.call);
    }
  }

  lemma RelayKeepsRoles(c: P.Config, devices: map<DeviceId, Device>, s: P.State, p: P.Event)
    requires L.WellFormed(s) && RelayRoles(devices, s) && P.Enabled(c, s, p)
    requires p.Ingest? ==> Is(devices, p.source, Source)
    requires p.Claim? ==> Is(devices, p.device, Destination)
    ensures RelayRoles(devices, P.Next(c, s, p))
  {
    if p.Step? {
      StepRoles(c, devices, s, p.tid, p.ok);
    }
  }

  lemma DevicesKeepRoles(devices: map<DeviceId, Device>, devices': map<DeviceId, Device>, s: P.State)
    requires RelayRoles(devices, s)
    requires forall d | d in devices :: d in devices' && devices'[d].kind == devices[d].kind
    ensures RelayRoles(devices', s)
  {
    forall x | x in s.rows ensures RowRoles(devices', s.rows[x]) {
      assert RowRoles(devices, s.rows[x]);
    }
  }

  lemma NextRoles(c: P.Config, s: Site, e: Event)
    requires RolesOk(s) && V.Sound(c, s.relay) && Possible(c, s, e)
    ensures RolesOk(Next(c, s, e)) && V.Sound(c, Next(c, s, e).relay)
  {
    var p := Effect(s, e);
    if p.Some? {
      RelayKeepsRoles(c, s.devices, s.relay, p.value);
      L.StepKeeps(c, s.relay, p.value);
      V.NextGrounded(c, s.relay, p.value);
    } else {
      DevicesKeepRoles(s.devices, Next(c, s, e).devices, s.relay);
    }
  }

  lemma {:induction false} RunRoles(c: P.Config, s: Site, es: seq<Event>)
    requires RolesOk(s) && V.Sound(c, s.relay) && IsRun(c, s, es)
    ensures RolesOk(Final(c, s, es)) && V.Sound(c, Final(c, s, es).relay)
    decreases es
  {
    if es != [] {
      NextRoles(c, s, es[0]);
      RunRoles(c, Next(c, s, es[0]), es[1..]);
    }
  }

  /** Every caller, every claimant a handler is about to notify, and every opener of a window,
      open or ended, is a registered destination. */
  ghost predicate ClaimRoles(devices: map<DeviceId, Device>, s: P.State) {
    && (forall t | t in s.threads && t.CallOf? :: Is(devices, s.threads[t].device, Destination))
    && (forall t | t in s.threads && s.threads[t].pc.Invalidating? ::
          forall i | 0 <= i < |s.threads[t].pc.claimants| ::
            Is(devices, s.threads[t].pc.claimants[i].device, Destination))
    && (forall w | w in s.windows :: Is(devices, s.windows[w].opener, Destination))
    && (forall x | x in s.pending :: forall i | 0 <= i < |s.pending[x].claimants| ::
          Is(devices, s.pending[x].claimants[i].device, Destination))
  }

  lemma OpenerIsDestination(devices: map<DeviceId, Device>, s: P.State, w: P.CallId)
    requires L.WellFormed(s) && RelayRoles(devices, s) && w in s.windows
    ensures Is(devices, s.windows[w].opener, Destination)
  {
    assert L.WindowOk(s, w);
    assert P.CallOf(w) in s.threads && s.threads[P.CallOf(w)].device == s.windows[w].opener;
  }

  lemma NotifiedAreDestinations(devices: map<DeviceId, Device>, s: P.State, t: P.Tid, i: nat)
    requires L.WellFormed(s) && RelayRoles(devices, s) && t in s.threads && s.threads[t].pc.Invalidating?
    requires i < |s.threads[t].pc.claimants|
    ensures Is(devices, s.threads[t].pc.claimants[i].device, Destination)
  {
    assert L.ThreadOk(s, t);
    OpenerIsDestination(devices, s, s.threads[t].pc.claimants[0].call);
  }

  lemma ClaimantsAreDestinations(devices: map<DeviceId, Device>, s: P.State)
    requires L.WellFormed(s) && RelayRoles(devices, s)
    ensures ClaimRoles(devices, s)
  {
    forall w | w in s.windows ensures Is(devices, s.windows[w].opener, Destination) {
      OpenerIsDestination(devices, s, w);
    }
    forall t, i | t in s.threads && s.threads[t].pc.Invalidating? && 0 <= i < |s.threads[t].pc.claimants|
      ensures Is(devices, s.threads[t].pc.claimants[i].device, Destination)
    {
      NotifiedAreDestinations(devices, s, t, i);
    }
    forall x | x in s.pending
      ensures |s.pending[x].claimants| == 1 && Is(devices, s.pending[x].claimants[0].device, Destination)
    {
      assert L.EntryOk(s, x);
      OpenerIsDestination(devices, s, s.pending[x].window);
    }
  }

  /** Role invariant.  Over both entry routes, all reconnections and revocations: the source of
      every row is a registered source device; every caller, every claimant of a window, open or
      ended, every `claimed_by` and every recipient of a payload is a registered destination. */
  lemma RolesHold(c: P.Config, s: Site, es: seq<Event>)
    requires P.Initial(s.relay) && s.sockets == map[] && IsRun(c, s, es)
    requires forall x | x in s.relay.rows :: RowRoles(s.devices, s.relay.rows[x])
    ensures var s' := Final(c, s, es);
            && (forall x | x in s'.relay.rows :: RowRoles(s'.devices, s'.relay.rows[x]))
            && ClaimRoles(s'.devices, s'.relay)
            && (forall m | m in s'.relay.outbox && m.env.body.Payload? :: Is(s'.devices, m.env.to, Destination))
  {
    RunRoles(c, s, es);
    var s' := Final(c, s, es);
    ClaimantsAreDestinations(s'.devices, s'.relay);
    forall m | m in s'.relay.outbox && m.env.body.Payload? ensures Is(s'.devices, m.env.to, Destination) {
      var i :| 0 <= i < |s'.relay.outbox| && s'.relay.outbox[i] == m;
      assert V.PayloadOk(c, s'.relay, m);
      OpenerIsDestination(s'.devices, s'.relay, m.call);
    }
  }

  // ---- What each request does -----------------------------------------------------------

  /** After the request the coordinator has a new call of `device` for `otp`, about to read its row. */
  ghost predicate Called(s: Site, s': Site, call: P.CallId, device: DeviceId, otp: OtpId) {
    s'.relay == s.relay.(threads := s.relay.threads[P.CallOf(call) := P.Thread(device, otp, P.Begin)])
  }

  /** After the request the table has a new pending row of `device` under `id`, unless the id is taken. */
  ghost predicate Pushed(c: P.Config, s: Site, s': Site, id: OtpId, device: DeviceId, ciphertext: string, iv: string) {
    if id in s.relay.rows then s'.relay == s.relay
    else
      s'.relay == s.relay.(rows := s.relay.rows[id :=
        Row(ciphertext, iv, device, s.relay.now, s.relay.now + c.ttl, None, Pending)])
  }

  /** A claim by a socket becomes a call exactly when the socket is a destination's and names an OTP. */
  lemma SocketClaims(c: P.Config, s: Site, k: SocketId, otp: OtpId, id: OtpId, call: P.CallId)
    requires k in s.sockets && P.CallOf(call) !in s.relay.threads
    ensures var e := Receive(k, W.OtpClaim(otp), id, call);
            && Possible(c, s, e)
            && Next(c, s, e).devices == s.devices && Next(c, s, e).sockets == s.sockets
            && (if s.sockets[k].kind == Destination && otp != ""
                then Called(s, Next(c, s, e), call, s.sockets[k].device, otp)
                else Next(c, s, e).relay == s.relay)
  {
  }

  /** A claim by REST becomes a call exactly when its token is a destination's and it names an OTP. */
  lemma RestClaims(c: P.Config, s: Site, token: string, d: DeviceId, otp: OtpId, call: P.CallId)
    requires d in s.devices && s.devices[d].token == token && !s.devices[d].revoked
    requires P.CallOf(call) !in s.relay.threads
    ensures var e := RestClaim(token, d, otp, call);
            && Possible(c, s, e)
            && Next(c, s, e).devices == s.devices && Next(c, s, e).sockets == s.sockets
            && (if s.devices[d].kind == Destination && otp != ""
                then Called(s, Next(c, s, e), call, d, otp)
                else Next(c, s, e).relay == s.relay)
  {
  }

  /** A push by a socket becomes a row exactly when the socket is a source's and neither text is empty. */
  lemma SocketPushes(c: P.Config, s: Site, k: SocketId, ciphertext: string, iv: string, id: OtpId, call: P.CallId)
    requires k in s.sockets
    ensures var e := Receive(k, W.OtpPush(ciphertext, iv), id, call);
            && Possible(c, s, e)
            && Next(c, s, e).devices == s.devices && Next(c, s, e).sockets == s.sockets
            && (if s.sockets[k].kind == Source && ciphertext != "" && iv != ""
                then Pushed(c, s, Next(c, s, e), id, s.sockets[k].device, ciphertext, iv)
                else Next(c, s, e).relay == s.relay)
  {
  }

  /** A push by REST becomes a row exactly when its token is a source's and neither text is empty. */
  lemma RestPushes(c: P.Config, s: Site, token: string, d: DeviceId, ciphertext: string, iv: string, id: OtpId)
    requires d in s.devices && s.devices[d].token == token && !s.devices[d].revoked
    ensures var e := RestPush(token, d, ciphertext, iv, id);
            && Possible(c, s, e)
            && Next(c, s, e).devices == s.devices && Next(c, s, e).sockets == s.sockets
            && (if s.devices[d].kind == Source && ciphertext != "" && iv != ""
                then Pushed(c, s, Next(c, s, e), id, d, ciphertext, iv)
                else Next(c, s, e).relay == s.relay)
  {
  }

  /** No other request reaches the coordinator; a connect copies the device's kind, and is granted to
      the holder of a live token only. */
  lemma OtherRequests(c: P.Config, s: Site, e: Event)
    requires e.Connect? || e.Enroll? || e.Revoke? || e.Disconnect?
             || (e.Receive? && (e.message.Ping? || e.message.Unknown?))
    ensures e.Enroll? ==> (Possible(c, s, e) <==> e.device !in s.devices)
    ensures e.Revoke? ==> (Possible(c, s, e) <==> e.device in s.devices)
    ensures e.Disconnect? ==> (Possible(c, s, e) <==> e.socket in s.sockets)
    ensures e.Connect? ==>
              (Possible(c, s, e) <==> && e.socket !in s.sockets && e.device in s.devices
                                      && s.devices[e.device].token == e.token && !s.devices[e.device].revoked)
    ensures e.Receive? ==> (Possible(c, s, e) <==> e.socket in s.sockets)
    ensures Possible(c, s, e) ==>
              && Next(c, s, e).relay == s.relay
              && Next(c, s, e).devices ==
                   (if e.Enroll? then s.devices[e.device := e.row]
                    else if e.Revoke? then s.devices[e.device := s.devices[e.device].(revoked := true)]
                    else s.devices)
              && Next(c, s, e).sockets ==
                   (if e.Connect? then s.sockets[e.socket := Socket(e.device, s.devices[e.device].kind)]
                    else if e.Disconnect? then s.sockets - {e.socket}
                    else s.sockets)
  {
  }
}
