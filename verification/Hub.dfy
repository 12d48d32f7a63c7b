/**
  The hub and its clients as they are written: a map of live connections updated in place, and
  per connection a bounded channel which the hub closes and the write pump drains.  Each method
  is proved against the hub's state machine.
 */
module Connections {
  import opened Types
  import Model = HubModel

  /** An outbound frame: a coordinator's envelope, or one of the transport's own. */
  datatype Frame = Answer(env: Envelope) | Pong | Refusal(reason: string)

  /** An inbound envelope, by its type field. */
  datatype Message = Ping | OtpPush(ciphertext: string, iv: string) | OtpClaim(otp: OtpId) | Unknown(kind: string)

  /** What routing a message leads to: a reply on the same connection, or a call of the dispatcher. */
  datatype Routed =
    | Reply(frame: Frame)
    | OnPush(source: DeviceId, ciphertext: string, iv: string)
    | OnClaim(claimant: DeviceId, otp: OtpId)

  /** Capability by device kind: only sources push, only destinations claim. */
  function Route(device: DeviceId, kind: DeviceKind, e: Message): (r: Routed)
    ensures r.OnPush? <==> e.OtpPush? && kind == Source
    ensures r.OnClaim? <==> e.OtpClaim? && kind == Destination
    ensures r.OnPush? ==> r == OnPush(device, e.ciphertext, e.iv)
    ensures r.OnClaim? ==> r == OnClaim(device, e.otp)
    ensures e.Ping? ==> r == Reply(Pong)
    ensures r.Reply? && e.OtpPush? ==> r.frame == Refusal("only source devices may push")
    ensures r.Reply? && e.OtpClaim? ==> r.frame == Refusal("only destination devices may claim")
    ensures e.Unknown? ==> r == Reply(Refusal("unknown message type: " + e.kind))
  {
    match e
    case Ping => Reply(Pong)
    case OtpPush(ciphertext, iv) =>
      if kind != Source then Reply(Refusal("only source devices may push")) else OnPush(device, ciphertext, iv)
    case OtpClaim(otp) =>
      if kind != Destination then Reply(Refusal("only destination devices may claim")) else OnClaim(device, otp)
    case Unknown(other) => Reply(Refusal("unknown message type: " + other))
  }

  /** What becomes of a send that does not block: a full queue drops the frame, and a closed
      channel panics. */
  datatype SendResult = Queued | Dropped | Panicked

  /** One turn of the write pump's select: the next frame, or a ping; and whether its write works. */
  datatype Turn = Frame(ok: bool) | Ping(ok: bool)

  class Client {
    const deviceId: DeviceId
    const kind: DeviceKind
    var send: seq<Frame>
    var open: bool
    var pump: Model.Pump
    ghost var closes: nat
    ghost var accepted: seq<Frame>
    ghost var written: seq<Frame>

    ghost function View(): Model.Conn<Frame>
      reads this
    {
      Model.Conn(deviceId, open, closes, send, accepted, written, pump)
    }

    constructor (deviceId: DeviceId, kind: DeviceKind)
      ensures this.deviceId == deviceId && this.kind == kind && View() == Model.Fresh(deviceId)
      ensures open && pump == Model.Running && send == accepted == written == [] && closes == 0
    {
      this.deviceId, this.kind := deviceId, kind;
      send, open, pump := [], true, Model.Running;
      closes, accepted, written := 0, [], [];
    }

    /** Closing a closed channel panics. */
    method Close()
      requires open
      modifies this`open, this`closes
      ensures View() == Model.CloseConn(old(View()))
      ensures !open && closes == old(closes) + 1
    {
      open := false;
      closes := closes + 1;
    }

    /** The select with a default: a frame is queued, as the last one, if the channel is open and holds
        fewer than 16. */
    method TrySend(f: Frame) returns (r: SendResult)
      modifies this`send, this`accepted
      ensures r == if !open then Panicked else if |old(send)| < 16 then Queued else Dropped
      ensures r == Queued ==> send == old(send) + [f] && accepted == old(accepted) + [f]
      ensures r != Queued ==> send == old(send) && accepted == old(accepted)
      ensures View() == if open then Model.Enqueue(old(View()), f) else old(View())
    {
      if !open { return Panicked; }
      if |send| >= Model.SEND_BUFFER { return Dropped; }
      send := send + [f];
      accepted := accepted + [f];
      r := Queued;
    }

    /** A displaced connection goes on reading: its calls reach the dispatcher, and its replies panic. */
    method Handle(e: Message) returns (call: Option<Routed>, panicked: bool)
      modifies this`send, this`accepted
      ensures var r := Route(deviceId, kind, e);
              && call == (if r.Reply? then None else Some(r))
              && panicked == (r.Reply? && !open)
              && (if r.Reply? && open && |old(send)| < 16
                  then send == old(send) + [r.frame] && accepted == old(accepted) + [r.frame]
                  else send == old(send) && accepted == old(accepted))
              && View() == if r.Reply? && open then Model.Enqueue(old(View()), r.frame) else old(View())
    {
      var r := Route(deviceId, kind, e);
      if r.Reply? {
        var sent := TrySend(r.frame);
        call, panicked := None, sent == Panicked;
      } else {
        call, panicked := Some(r), false;
      }
    }

    /** The write pump, until it would block or ends.  `turns` tells what its select picks, and
        which writes fail; past its end it takes frames, and writes succeed.  If the first failing
        write is reached, the pump ends there, having written the frames before it; otherwise all
        that was queued is written, and the pump ends if the channel is closed. */
    method WritePump(turns: seq<Turn>)
      modifies this`send, this`written, this`pump
      ensures View() == Pumped(old(View()), turns)
      ensures old(pump) != Model.Running ==> send == old(send) && written == old(written) && pump == old(pump)
      ensures old(pump) == Model.Running && (forall i :: 0 <= i < |turns| ==> turns[i].ok) ==>
                && send == [] && written == old(written) + old(send)
                && pump == (if open then Model.Running else Model.Finished)
      ensures old(pump) == Model.Running ==> forall i: nat | FirstFailure(turns, i) ::
                var sent := FrameTurns(turns[..i]);
                if sent < |old(send)| || (turns[i].Ping? && sent == |old(send)|) then
                  && pump == Model.Broken && written == old(written) + old(send)[..sent]
                  && send == old(send)[if turns[i].Ping? then sent else sent + 1..]
                else
                  && send == [] && written == old(written) + old(send)
                  && pump == (if open then Model.Running else Model.Finished)
    {
      ghost var before := View();
      var rest := turns;
      while pump == Model.Running && (send != [] || !open || NextTurn(rest).Ping?)
        invariant open == old(open)
        invariant Pumped(View(), rest) == Pumped(old(View()), turns)
        decreases |send| + |rest|, pump == Model.Running
      {
        var turn := NextTurn(rest);
        if turn.Ping? {
          rest := rest[1..];
          if !turn.ok {
            pump := Model.Broken;
          }
        } else if send == [] {
          pump := Model.Finished;
        } else {
          var payload := send[0];
          send := send[1..];
          rest := if rest == [] then [] else rest[1..];
          if turn.ok {
            written := written + [payload];
          } else {
            pump := Model.Broken;
          }
        }
      }
      PumpedAlready(View(), rest);
      if before.pump == Model.Running {
        if forall i :: 0 <= i < |turns| ==> turns[i].ok {
          PumpWritesAll(before, turns);
        }
        forall i: nat | FirstFailure(turns, i) ensures FailedAt(before, Pumped(before, turns), turns, i) {
          PumpStopsAt(before, turns, i);
        }
      }
    }
  }

  /** How many of the turns take a frame. */
  function FrameTurns(turns: seq<Turn>): nat {
    if turns == [] then 0 else FrameTurns(turns[1..]) + if turns[0].Frame? then 1 else 0
  }

  predicate FirstFailure(turns: seq<Turn>, i: nat) {
    i < |turns| && !turns[i].ok && forall j :: 0 <= j < i ==> turns[j].ok
  }

  /** All queued frames are written, and the pump ends if the channel is closed. */
  ghost predicate Drained(k: Model.Conn<Frame>, k': Model.Conn<Frame>) {
    && k'.queue == [] && k'.written == k.written + k.queue
    && k'.pump == (if k.open then Model.Running else Model.Finished)
  }

  /** What the pump has done when turn `i` is the first to fail: its queue may run out before. */
  ghost predicate FailedAt(k: Model.Conn<Frame>, k': Model.Conn<Frame>, turns: seq<Turn>, i: nat)
    requires i < |turns|
  {
    var sent := FrameTurns(turns[..i]);
    if sent < |k.queue| || (turns[i].Ping? && sent == |k.queue|) then
      && k'.pump == Model.Broken && k'.written == k.written + k.queue[..sent]
      && k'.queue == k.queue[if turns[i].Ping? then sent else sent + 1..]
    else Drained(k, k')
  }

  lemma PumpedAlready(k: Model.Conn<Frame>, turns: seq<Turn>)
    ensures k.pump != Model.Running || (k.queue == [] && k.open && !NextTurn(turns).Ping?) ==> Pumped(k, turns) == k
  {
  }

  /** With an empty queue and no ping next there is nothing to write. */
  lemma PumpIdles(k: Model.Conn<Frame>, turns: seq<Turn>)
    requires k.pump == Model.Running && k.queue == [] && !NextTurn(turns).Ping?
    ensures Drained(k, Pumped(k, turns))
  {
    PumpedAlready(Model.PumpOnce(k, true), turns);
  }

  /** One frame written, and the rest drained. */
  lemma DrainedAfter(k: Model.Conn<Frame>, k': Model.Conn<Frame>)
    requires k.queue != [] && Drained(Model.PumpOnce(k, true), k')
    ensures Drained(k, k')
  {
    assert k.queue == [k.queue[0]] + k.queue[1..];
  }

  lemma {:induction false} PumpWritesAll(k: Model.Conn<Frame>, turns: seq<Turn>)
    requires k.pump == Model.Running && forall i :: 0 <= i < |turns| ==> turns[i].ok
    ensures Drained(k, Pumped(k, turns))
    decreases |k.queue| + |turns|
  {
    if NextTurn(turns).Ping? {
      PumpWritesAll(k, turns[1..]);
    } else if k.queue == [] {
      PumpIdles(k, turns);
    } else {
      PumpWritesAll(Model.PumpOnce(k, true), if turns == [] then [] else turns[1..]);
      DrainedAfter(k, Pumped(k, turns));
    }
  }

  lemma {:induction false} PumpStopsAt(k: Model.Conn<Frame>, turns: seq<Turn>, i: nat)
    requires k.pump == Model.Running && FirstFailure(turns, i)
    ensures FailedAt(k, Pumped(k, turns), turns, i)
    decreases i
  {
    if i == 0 {
      FailsNow(k, turns);
    } else {
      assert FirstFailure(turns[1..], i - 1) && turns[..i][1..] == turns[1..][..i - 1];
      if turns[0].Ping? {
        PumpStopsAt(k, turns[1..], i - 1);
      } else if k.queue == [] {
        PumpIdles(k, turns);
      } else {
        PumpStopsAt(Model.PumpOnce(k, true), turns[1..], i - 1);
        FailedAfter(k, Pumped(k, turns), turns, i);
      }
    }
  }

  lemma FailsNow(k: Model.Conn<Frame>, turns: seq<Turn>)
    requires k.pump == Model.Running && FirstFailure(turns, 0)
    ensures FailedAt(k, Pumped(k, turns), turns, 0)
  {
    assert turns[..0] == [];
    if turns[0].Ping? {
      PumpedAlready(k.(pump := Model.Broken), turns[1..]);
    } else if k.queue == [] {
      PumpIdles(k, turns);
    } else {
      PumpedAlready(Model.PumpOnce(k, false), turns[1..]);
    }
  }

  /** One frame written, and the rest as it fails. */
  lemma FailedAfter(k: Model.Conn<Frame>, k': Model.Conn<Frame>, turns: seq<Turn>, i: nat)
    requires k.queue != [] && 0 < i < |turns| && turns[0].Frame?
    requires FailedAt(Model.PumpOnce(k, true), k', turns[1..], i - 1)
    ensures FailedAt(k, k', turns, i)
  {
    assert turns[..i][1..] == turns[1..][..i - 1];
    assert k.queue == [k.queue[0]] + k.queue[1..];
    var sent := FrameTurns(turns[..i]);
    if sent <= |k.queue| {
      assert k.queue[..sent] == [k.queue[0]] + k.queue[1..][..sent - 1];
    }
  }

  /** The pump's turns, one after the other, until it would block or ends. */
  ghost function Pumped(k: Model.Conn<Frame>, turns: seq<Turn>): Model.Conn<Frame>
    decreases |k.queue| + |turns|, k.pump == Model.Running
  {
    var turn := NextTurn(turns);
    if k.pump != Model.Running then k
    else if turn.Ping? then Pumped(if turn.ok then k else k.(pump := Model.Broken), turns[1..])
    else if k.queue == [] then if k.open then k else Pumped(Model.PumpOnce(k, true), turns)
    else Pumped(Model.PumpOnce(k, turn.ok), if turns == [] then [] else turns[1..])
  }

  function NextTurn(turns: seq<Turn>): (turn: Turn)
    ensures turn.Ping? ==> turns != []
  {
    if turns == [] then Frame(true) else turns[0]
  }

  /** On a closed channel and a sound socket the pump writes all that was accepted, however pings
      come in between, and then ends. */
  lemma {:induction false} PumpDrains(k: Model.Conn<Frame>, turns: seq<Turn>)
    requires Model.ConnOk(k) && k.pump == Model.Running && !k.open
    requires forall i :: 0 <= i < |turns| ==> turns[i].ok
    ensures Pumped(k, turns).pump == Model.Finished && Pumped(k, turns).written == k.accepted
    decreases |k.queue| + |turns|
  {
    if NextTurn(turns).Ping? {
      PumpDrains(k, turns[1..]);
    } else if k.queue != [] {
      Model.PumpOk(k, true);
      PumpDrains(Model.PumpOnce(k, true), if turns == [] then [] else turns[1..]);
    }
  }

  class Hub {
    var clients: map<DeviceId, Client>
    ghost var all: set<Client>

    /** The hub's state, over every client it has ever registered. */
    ghost function View(): Model.Hub<Client, Frame>
      reads this, all
    {
      Model.Hub(clients, map c | c in all :: c.View())
    }

    ghost predicate Valid()
      reads this, all
    {
      Model.Ok(View())
    }

    constructor ()
      ensures Valid() && View() == Model.Empty<Client, Frame>() && all == {}
    {
      clients, all := map[], {};
    }

    method Register(c: Client)
      requires Valid() && c !in all && c.View() == Model.Fresh(c.deviceId)
      modifies this, all
      ensures Valid() && all == old(all) + {c}
      ensures View() == Model.DoRegister(old(View()), c, c.deviceId)
      ensures clients == old(clients)[c.deviceId := c] && c.open
      ensures c.deviceId in old(clients) ==> !old(clients)[c.deviceId].open
      ensures forall k | k in old(all) && !(c.deviceId in old(clients) && k == old(clients)[c.deviceId]) ::
                k.View() == old(k.View())
    {
      ghost var before := View();
      if c.deviceId in clients {
        var stale := clients[c.deviceId];
        assert stale in before.conns;
        stale.Close();
      }
      clients := clients[c.deviceId := c];
      all := all + {c};
      assert View().conns == Model.DoRegister(before, c, c.deviceId).conns;
      Model.RegisterOk(before, c, c.deviceId);
    }

    method Unregister(c: Client)
      requires Valid() && c in all
      modifies this, all
      ensures Valid() && all == old(all)
      ensures View() == Model.DoUnregister(old(View()), c)
      ensures if c.deviceId in old(clients) && old(clients)[c.deviceId] == c
              then clients == old(clients) - {c.deviceId} && !c.open
              else clients == old(clients) && c.View() == old(c.View())
      ensures forall k | k in all && k != c :: k.View() == old(k.View())
    {
      ghost var before := View();
      assert before.conns[c] == c.View();
      if c.deviceId in clients && clients[c.deviceId] == c {
        clients := clients - {c.deviceId};
        c.Close();
      }
      assert View().conns == Model.DoUnregister(before, c).conns;
      Model.UnregisterOk(before, c);
    }

    /** The part of `SendToDevice` under the lock.  How long the connection stays open after it is
        what `LookupStaysOpen` says. */
    method Lookup(deviceId: DeviceId) returns (c: Option<Client>)
      requires Valid()
      ensures c == if deviceId in clients then Some(clients[deviceId]) else None
      ensures c.Some? ==> c.value in all && c.value.open && c.value.deviceId == deviceId
    {
      ghost var h := View();
      if deviceId !in clients { return None; }
      assert clients[deviceId] in h.conns && h.conns[clients[deviceId]] == clients[deviceId].View();
      c := Some(clients[deviceId]);
    }

    method SendToDevice(deviceId: DeviceId, env: Envelope) returns (queued: bool)
      requires Valid()
      modifies all
      ensures Valid() && all == old(all)
      ensures View() == Model.DoSend(old(View()), deviceId, Answer(env))
      ensures queued <==> deviceId in clients && |old(clients[deviceId].send)| < 16
      ensures clients == old(clients)
      ensures queued ==>
                && clients[deviceId].send == old(clients[deviceId].send) + [Answer(env)]
                && clients[deviceId].accepted == old(clients[deviceId].accepted) + [Answer(env)]
      ensures forall k | k in all && !(queued && k == clients[deviceId]) :: k.View() == old(k.View())
    {
      ghost var before := View();
      var found := Lookup(deviceId);
      if found.None? { return false; }
      var c := found.value;
      var r := c.TrySend(Answer(env));
      queued := r == Queued;
      assert View().conns == Model.DoSend(before, deviceId, Answer(env)).conns;
      Model.NextOk(before, Model.SendToDevice(deviceId, Answer(env)));
    }

    method IsConnected(deviceId: DeviceId) returns (connected: bool)
      requires Valid()
      ensures connected <==> exists c | c in all :: c.open && c.deviceId == deviceId
    {
      connected := deviceId in clients;
      ghost var h := View();
      if connected {
        assert clients[deviceId] in h.conns;
      }
      assert forall c | c in all :: c in h.conns && h.conns[c] == c.View();
    }
  }
}
