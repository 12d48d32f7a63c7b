/**
  The connection hub as a state machine over connections.  `C` identifies a connection, `F` is
  what travels on it.
 */
module HubModel {
  import opened Types

  /** Queued outbound frames per connection. */
  const SEND_BUFFER := 16

  /** The write pump: running, ended by the closed channel, or ended by a failed write. */
  datatype Pump = Running | Finished | Broken

  /** `closes` counts how often the channel was closed; `accepted` and `written` are history. */
  datatype Conn<F> = Conn(
    device: DeviceId,
    open: bool,
    closes: nat,
    queue: seq<F>,
    accepted: seq<F>,
    written: seq<F>,
    pump: Pump)

  datatype Hub<C(==), F> = Hub(clients: map<DeviceId, C>, conns: map<C, Conn<F>>)

  datatype Event<C, F> =
    | Register(conn: C, device: DeviceId)
    | Unregister(conn: C)
    | SendToDevice(device: DeviceId, frame: F)
    | TrySend(conn: C, frame: F)
    | Write(conn: C, ok: bool)
    | PingFails(conn: C)

  function Fresh<F>(device: DeviceId): Conn<F> {
    Conn(device, true, 0, [], [], [], Running)
  }

  function CloseConn<F>(k: Conn<F>): Conn<F> {
    k.(open := false, closes := k.closes + 1)
  }

  /** The non-blocking send: a full queue drops the frame. */
  function Enqueue<F>(k: Conn<F>, f: F): Conn<F> {
    if |k.queue| < SEND_BUFFER then k.(queue := k.queue + [f], accepted := k.accepted + [f]) else k
  }

  /** One turn of the write pump that does not block.  A closed channel yields what is still queued
      before it yields its end. */
  function PumpOnce<F>(k: Conn<F>, ok: bool): Conn<F> {
    if k.queue == [] then k.(pump := Finished)
    else if ok then k.(queue := k.queue[1..], written := k.written + [k.queue[0]])
    else k.(queue := k.queue[1..], pump := Broken)
  }

  function DoRegister<C(==), F>(h: Hub<C, F>, c: C, device: DeviceId): Hub<C, F> {
    var conns := if device in h.clients && h.clients[device] in h.conns
                 then h.conns[h.clients[device] := CloseConn(h.conns[h.clients[device]])] else h.conns;
    Hub(h.clients[device := c], conns[c := Fresh(device)])
  }

  function DoUnregister<C(==), F>(h: Hub<C, F>, c: C): Hub<C, F>
    requires c in h.conns
  {
    var d := h.conns[c].device;
    if d in h.clients && h.clients[d] == c
    then Hub(h.clients - {d}, h.conns[c := CloseConn(h.conns[c])])
    else h
  }

  function DoSend<C(==), F>(h: Hub<C, F>, device: DeviceId, f: F): Hub<C, F> {
    if device in h.clients && h.clients[device] in h.conns
    then h.(conns := h.conns[h.clients[device] := Enqueue(h.conns[h.clients[device]], f)])
    else h
  }

  /** A connection is made and registered once, by the upgrade; it may unregister at any later
      time, also when it has been displaced.  The pump does not turn on an empty open channel. */
  predicate Possible<C(==), F>(h: Hub<C, F>, e: Event<C, F>) {
    match e
    case Register(c, _) => c !in h.conns
    case Unregister(c) => c in h.conns
    case SendToDevice(_, _) => true
    case TrySend(c, _) => c in h.conns && h.conns[c].open
    case Write(c, _) => c in h.conns && h.conns[c].pump == Running && (h.conns[c].queue != [] || !h.conns[c].open)
    case PingFails(c) => c in h.conns && h.conns[c].pump == Running
  }

  function Next<C(==), F>(h: Hub<C, F>, e: Event<C, F>): Hub<C, F>
    requires Possible(h, e)
  {
    match e
    case Register(c, device) => DoRegister(h, c, device)
    case Unregister(c) => DoUnregister(h, c)
    case SendToDevice(device, f) => DoSend(h, device, f)
    case TrySend(c, f) => h.(conns := h.conns[c := Enqueue(h.conns[c], f)])
    case Write(c, ok) => h.(conns := h.conns[c := PumpOnce(h.conns[c], ok)])
    case PingFails(c) => h.(conns := h.conns[c := h.conns[c].(pump := Broken)])
  }

  predicate IsRun<C(==), F>(h: Hub<C, F>, es: seq<Event<C, F>>)
    decreases es
  {
    es == [] || (Possible(h, es[0]) && IsRun(Next(h, es[0]), es[1..]))
  }

  function Final<C(==), F>(h: Hub<C, F>, es: seq<Event<C, F>>): Hub<C, F>
    decreases es
  {
    if es == [] || !Possible(h, es[0]) then h else Final(Next(h, es[0]), es[1..])
  }

  function Empty<C(==), F>(): Hub<C, F> {
    Hub(map[], map[])
  }

  // ---- Invariant -----------------------------------------------------------------

  ghost predicate IsEntry<C, F>(h: Hub<C, F>, c: C)
    requires c in h.conns
  {
    h.conns[c].device in h.clients && h.clients[h.conns[c].device] == c
  }

  /** Queue, acceptance and writing of one connection fit together. */
  ghost predicate ConnOk<F>(k: Conn<F>) {
    && |k.queue| <= SEND_BUFFER
    && (k.closes == if k.open then 0 else 1)
    && (k.pump != Broken ==> k.accepted == k.written + k.queue)
    && (k.pump == Finished ==> !k.open && k.queue == [])
    && k.written <= k.accepted
  }

  ghost predicate Ok<C, F>(h: Hub<C, F>) {
    && (forall d | d in h.clients :: h.clients[d] in h.conns && h.conns[h.clients[d]].device == d)
    && (forall c | c in h.conns :: ConnOk(h.conns[c]) && (h.conns[c].open <==> IsEntry(h, c)))
  }

  lemma RegisterOk<C, F>(h: Hub<C, F>, c: C, device: DeviceId)
    requires Ok(h) && c !in h.conns
    ensures Ok(DoRegister(h, c, device))
  {
  }

  lemma UnregisterOk<C, F>(h: Hub<C, F>, c: C)
    requires Ok(h) && c in h.conns
    ensures Ok(DoUnregister(h, c))
  {
  }

  lemma TurnOk<C, F>(h: Hub<C, F>, c: C, k: Conn<F>)
    requires Ok(h) && c in h.conns && ConnOk(k)
    requires k.device == h.conns[c].device && k.open == h.conns[c].open
    ensures Ok(h.(conns := h.conns[c := k]))
  {
  }

  lemma NextOk<C, F>(h: Hub<C, F>, e: Event<C, F>)
    requires Ok(h) && Possible(h, e)
    ensures Ok(Next(h, e))
  {
    match e
    case Register(c, device) => RegisterOk(h, c, device);
    case Unregister(c) => UnregisterOk(h, c);
    case SendToDevice(device, f) =>
      if device in h.clients {
        TurnOk(h, h.clients[device], Enqueue(h.conns[h.clients[device]], f));
      }
    case TrySend(c, f) => TurnOk(h, c, Enqueue(h.conns[c], f));
    case Write(c, ok) =>
      PumpOk(h.conns[c], ok);
      TurnOk(h, c, PumpOnce(h.conns[c], ok));
    case PingFails(c) => TurnOk(h, c, h.conns[c].(pump := Broken));
  }

  lemma PumpOk<F>(k: Conn<F>, ok: bool)
    requires ConnOk(k) && k.pump == Running && (k.queue != [] || !k.open)
    ensures ConnOk(PumpOnce(k, ok))
  {
    if k.queue != [] {
      assert k.queue == [k.queue[0]] + k.queue[1..];
    }
  }

  lemma {:induction false} RunOk<C, F>(h: Hub<C, F>, es: seq<Event<C, F>>)
    requires Ok(h) && IsRun(h, es)
    ensures Ok(Final(h, es))
    decreases es
  {
    if es != [] {
      NextOk(h, es[0]);
      RunOk(Next(h, es[0]), es[1..]);
    }
  }

  /** For every order of registrations, displacements and stale unregistrations: a channel is open
      exactly while its connection is the map entry of its device, and is closed exactly once. */
  lemma OpenWhileEntry<C, F>(es: seq<Event<C, F>>, c: C)
    requires IsRun(Empty<C, F>(), es) && c in Final(Empty<C, F>(), es).conns
    ensures var h := Final(Empty<C, F>(), es);
            && (h.conns[c].open <==> IsEntry(h, c))
            && h.conns[c].closes == if h.conns[c].open then 0 else 1
  {
    RunOk(Empty<C, F>(), es);
  }

  /** What is written is a prefix, in order, of what was accepted; the queue never exceeds its
      bound; and a pump that ended because the channel was closed had written everything. */
  lemma WrittenInOrder<C, F>(es: seq<Event<C, F>>, c: C)
    requires IsRun(Empty<C, F>(), es) && c in Final(Empty<C, F>(), es).conns
    ensures var k := Final(Empty<C, F>(), es).conns[c];
            && k.written <= k.accepted && |k.queue| <= 16
            && (k.pump == Running ==> k.accepted == k.written + k.queue)
            && (k.pump == Finished ==> !k.open && k.written == k.accepted)
  {
    RunOk(Empty<C, F>(), es);
  }

  // ---- History ------------------------------------------------------------------------

  /** No event displaces `c` as the connection of `d`, nor unregisters it. */
  ghost predicate Undisturbed<C, F>(es: seq<Event<C, F>>, d: DeviceId, c: C) {
    forall j | 0 <= j < |es| :: !(es[j].Register? && es[j].device == d) && es[j] != Unregister(c)
  }

  /** `c` is the most recently registered connection of `d`, and has not unregistered since. */
  ghost predicate IsCurrent<C, F>(es: seq<Event<C, F>>, d: DeviceId, c: C) {
    exists i :: 0 <= i < |es| && es[i] == Register(c, d) && Undisturbed(es[i + 1..], d, c)
  }

  predicate EntryIs<C(==), F>(h: Hub<C, F>, d: DeviceId, c: C) {
    d in h.clients && h.clients[d] == c
  }

  lemma EntryStep<C, F>(h: Hub<C, F>, e: Event<C, F>, d: DeviceId, c: C)
    requires Ok(h) && Possible(h, e)
    ensures EntryIs(Next(h, e), d, c) <==>
              e == Register(c, d) || (EntryIs(h, d, c) && !(e.Register? && e.device == d) && e != Unregister(c))
  {
  }

  lemma CurrentCons<C, F>(es: seq<Event<C, F>>, d: DeviceId, c: C)
    requires es != []
    ensures IsCurrent(es, d, c) <==> IsCurrent(es[1..], d, c) || (es[0] == Register(c, d) && Undisturbed(es[1..], d, c))
    ensures Undisturbed(es, d, c) <==> Undisturbed(es[1..], d, c) && !(es[0].Register? && es[0].device == d) && es[0] != Unregister(c)
  {
    var rest := es[1..];
    assert forall j | 0 < j < |es| :: es[j] == rest[j - 1];
    if i :| 0 <= i < |es| && es[i] == Register(c, d) && Undisturbed(es[i + 1..], d, c) {
      if i > 0 {
        assert rest[i..] == es[i + 1..] && rest[i - 1] == Register(c, d);
        assert rest[(i - 1) + 1..] == es[i + 1..];
      }
    }
    if i :| 0 <= i < |rest| && rest[i] == Register(c, d) && Undisturbed(rest[i + 1..], d, c) {
      assert es[i + 1] == Register(c, d) && es[(i + 1) + 1..] == rest[i + 1..];
    }
  }

  lemma {:induction false} EntryByHistory<C, F>(h: Hub<C, F>, es: seq<Event<C, F>>, d: DeviceId, c: C)
    requires Ok(h) && IsRun(h, es)
    ensures EntryIs(Final(h, es), d, c) <==> IsCurrent(es, d, c) || (EntryIs(h, d, c) && Undisturbed(es, d, c))
    decreases es
  {
    if es != [] {
      NextOk(h, es[0]);
      EntryStep(h, es[0], d, c);
      CurrentCons(es, d, c);
      EntryByHistory(Next(h, es[0]), es[1..], d, c);
    }
  }

  /** The hub refines its history: the map entry of `d` is the most recently registered connection
      of `d` if that one has not unregistered, and is otherwise absent. */
  lemma HubFollowsHistory<C, F>(es: seq<Event<C, F>>, d: DeviceId, c: C)
    requires IsRun(Empty<C, F>(), es)
    ensures EntryIs(Final(Empty<C, F>(), es), d, c) <==> IsCurrent(es, d, c)
  {
    EntryByHistory(Empty<C, F>(), es, d, c);
  }

  // ---- What a send does ---------------------------------------------------------------

  /** A frame sent to a device with an entry is queued there, as the last one, if fewer than 16 are;
      and nothing else changes. */
  lemma SendIsAccepted<C, F>(h: Hub<C, F>, device: DeviceId, f: F)
    requires Ok(h)
    ensures var h' := Next(h, SendToDevice(device, f));
            && h'.clients == h.clients && h'.conns.Keys == h.conns.Keys
            && (forall c | c in h.conns && !EntryIs(h, device, c) :: h'.conns[c] == h.conns[c])
            && (device in h.clients ==>
                  var k, k' := h.conns[h.clients[device]], h'.conns[h.clients[device]];
                  if |k.queue| < 16
                  then k' == k.(queue := k.queue + [f], accepted := k.accepted + [f])
                  else k' == k)
  {
  }

  /** A run of the hub: a frame is queued and written, the device connects again, which displaces the
      first connection, and its pump ends. */
  lemma DisplacedAfterWriting<C, F>(c: C, c': C, d: DeviceId, f: F) returns (es: seq<Event<C, F>>)
    requires c != c'
    ensures |es| == 5 && es[0] == Register(c, d) && es[3] == Register(c', d)
    ensures IsRun(Empty<C, F>(), es)
    ensures var h := Final(Empty<C, F>(), es);
            && EntryIs(h, d, c') && c in h.conns && c' in h.conns
            && h.conns[c].written == h.conns[c].accepted == [f] && h.conns[c].pump == Finished && !h.conns[c].open
            && h.conns[c'] == Conn(d, true, 0, [], [], [], Running)
  {
    es := [Register(c, d), SendToDevice(d, f), Write(c, true), Register(c', d), Write(c, true)];
    var h := Empty<C, F>();
    var h1 := Next(h, es[0]);
    var h2 := Next(h1, es[1]);
    var h3 := Next(h2, es[2]);
    var h4 := Next(h3, es[3]);
    assert es[1..][0] == es[1] && es[1..][1..] == es[2..] && es[2..][1..] == es[3..] && es[3..][1..] == es[4..] && es[4..][1..] == [];
    assert IsRun(h4, es[4..]) && Final(h4, es[4..]) == Next(h4, es[4]);
    assert IsRun(h3, es[3..]) && Final(h3, es[3..]) == Final(h4, es[4..]);
    assert IsRun(h2, es[2..]) && Final(h2, es[2..]) == Final(h3, es[3..]);
    assert IsRun(h1, es[1..]) && Final(h1, es[1..]) == Final(h2, es[2..]);
  }

  // ---- Between lookup and send -------------------------------------------------------------

  lemma {:induction false} RegisteredOnce<C, F>(h: Hub<C, F>, es: seq<Event<C, F>>, c: C, j: nat)
    requires c in h.conns && IsRun(h, es) && j < |es|
    ensures !(es[j].Register? && es[j].conn == c)
    decreases es
  {
    if j > 0 {
      assert c in Next(h, es[0]).conns;
      RegisteredOnce(Next(h, es[0]), es[1..], c, j - 1);
    }
  }

  /** A connection that was looked up stays open exactly until its device registers another or it
      unregisters: so a send after the lookup, outside the lock, meets an open channel if and only
      if neither has happened in between. */
  lemma LookupStaysOpen<C, F>(es: seq<Event<C, F>>, es': seq<Event<C, F>>, d: DeviceId, c: C)
    requires IsRun(Empty<C, F>(), es) && EntryIs(Final(Empty<C, F>(), es), d, c)
    requires IsRun(Final(Empty<C, F>(), es), es')
    ensures var h := Final(Final(Empty<C, F>(), es), es');
            c in h.conns && (h.conns[c].open <==> Undisturbed(es', d, c))
  {
    RunOk(Empty<C, F>(), es);
    var h := Final(Empty<C, F>(), es);
    RunOk(h, es');
    StaysKnown(h, es', c);
    EntryByHistory(h, es', d, c);
    forall i | 0 <= i < |es'| ensures es'[i] != Register(c, d) {
      RegisteredOnce(h, es', c, i);
    }
  }

  lemma {:induction false} StaysKnown<C, F>(h: Hub<C, F>, es: seq<Event<C, F>>, c: C)
    requires Ok(h) && c in h.conns && IsRun(h, es)
    ensures c in Final(h, es).conns && Final(h, es).conns[c].device == h.conns[c].device
    decreases es
  {
    if es != [] {
      NextOk(h, es[0]);
      StaysKnown(Next(h, es[0]), es[1..], c);
    }
  }
}
