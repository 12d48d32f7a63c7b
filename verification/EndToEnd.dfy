/**
  Coordinator and hub together: every envelope the coordinator sends is handed to the hub, which
  queues it on the recipient's connection, if there is one and its queue has room.
 */
module EndToEnd {
  import opened Types
  import P = Protocol
  import V = Provenance
  import D = Delivery
  import H = HubModel

  type ConnId = nat

  /** A frame on a connection: the coordinator's k-th envelope, or one of the transport's own. */
  datatype Parcel = Letter(k: nat, env: Envelope) | Own

  datatype Joint = Joint(relay: P.State, hub: H.Hub<ConnId, Parcel>)

  datatype Event = Relay(r: P.Event) | Transport(t: H.Event<ConnId, Parcel>)

  /** The transport sends only its own frames of its own accord. */
  predicate Allowed(c: P.Config, rule: P.Rule, j: Joint, e: Event) {
    match e
    case Relay(r) => P.Allowed(c, rule, j.relay, r)
    case Transport(t) => H.Possible(j.hub, t) && !t.SendToDevice? && (t.TrySend? ==> t.frame == Own)
  }

  /** Hands over the envelope which a step of the coordinator has just sent. */
  function HandOver(hub: H.Hub<ConnId, Parcel>, before: seq<P.Sent>, after: seq<P.Sent>): H.Hub<ConnId, Parcel> {
    if |after| == |before| + 1 then
      H.DoSend(hub, after[|before|].env.to, Letter(|before|, after[|before|].env))
    else hub
  }

  function Next(c: P.Config, rule: P.Rule, j: Joint, e: Event): Joint
    requires Allowed(c, rule, j, e)
  {
    match e
    case Relay(r) =>
      var relay := P.Next(c, j.relay, r);
      Joint(relay, HandOver(j.hub, j.relay.outbox, relay.outbox))
    case Transport(t) => Joint(j.relay, H.Next(j.hub, t))
  }

  predicate IsRun(c: P.Config, rule: P.Rule, j: Joint, es: seq<Event>)
    decreases es
  {
    es == [] || (Allowed(c, rule, j, es[0]) && IsRun(c, rule, Next(c, rule, j, es[0]), es[1..]))
  }

  function Final(c: P.Config, rule: P.Rule, j: Joint, es: seq<Event>): Joint
    requires IsRun(c, rule, j, es)
    decreases es
  {
    if es == [] then j else Final(c, rule, Next(c, rule, j, es[0]), es[1..])
  }

  function Relayed(es: seq<Event>): seq<P.Event> {
    if es == [] then [] else if es[0].Relay? then [es[0].r] + Relayed(es[1..]) else Relayed(es[1..])
  }

  lemma {:induction false} RelayedIsRun(c: P.Config, rule: P.Rule, j: Joint, es: seq<Event>)
    requires IsRun(c, rule, j, es)
    ensures P.IsRun(c, rule, j.relay, Relayed(es))
    ensures Final(c, rule, j, es).relay == P.Final(c, j.relay, Relayed(es))
    decreases es
  {
    if es != [] {
      RelayedIsRun(c, rule, Next(c, rule, j, es[0]), es[1..]);
      if es[0].Relay? {
        assert Relayed(es)[1..] == Relayed(es[1..]);
      }
    }
  }

  // ---- Where letters are ------------------------------------------------------------

  /** The frame is the coordinator's k-th envelope, on a connection of its recipient. */
  ghost predicate LetterOk(outbox: seq<P.Sent>, device: DeviceId, f: Parcel) {
    f.Letter? ==> f.k < |outbox| && outbox[f.k].env == f.env && f.env.to == device
  }

  ghost predicate Lettered(outbox: seq<P.Sent>, hub: H.Hub<ConnId, Parcel>) {
    forall c | c in hub.conns :: forall i | 0 <= i < |hub.conns[c].accepted| ::
      LetterOk(outbox, hub.conns[c].device, hub.conns[c].accepted[i])
  }

  /** No letter is accepted twice, on whatever connections. */
  ghost predicate Once(hub: H.Hub<ConnId, Parcel>) {
    forall c, i, c', i' ::
      c in hub.conns && 0 <= i < |hub.conns[c].accepted| &&
      c' in hub.conns && 0 <= i' < |hub.conns[c'].accepted| &&
      hub.conns[c].accepted[i].Letter? && hub.conns[c].accepted[i] == hub.conns[c'].accepted[i']
      ==> c == c' && i == i'
  }

  ghost predicate Routed(j: Joint) {
    H.Ok(j.hub) && Lettered(j.relay.outbox, j.hub) && Once(j.hub)
  }

  /** Since `hub`, nothing was accepted but `f`, once, on a connection of `to`. */
  ghost predicate OnceMore(hub: H.Hub<ConnId, Parcel>, hub': H.Hub<ConnId, Parcel>, to: DeviceId, f: Parcel) {
    && (forall k :: k in hub'.conns <==> k in hub.conns)
    && (forall k | k in hub.conns ::
          && hub'.conns[k].device == hub.conns[k].device
          && (hub'.conns[k].accepted == hub.conns[k].accepted
              || (hub'.conns[k].accepted == hub.conns[k].accepted + [f] && EntryOf(hub, to) == Some(k))))
  }

  function EntryOf(hub: H.Hub<ConnId, Parcel>, to: DeviceId): Option<ConnId> {
    if to in hub.clients then Some(hub.clients[to]) else None
  }

  lemma SendOnce(hub: H.Hub<ConnId, Parcel>, to: DeviceId, f: Parcel)
    requires H.Ok(hub)
    ensures H.Ok(H.DoSend(hub, to, f)) && OnceMore(hub, H.DoSend(hub, to, f), to, f)
  {
    H.NextOk(hub, H.SendToDevice(to, f));
  }

  lemma OnceLettered(outbox: seq<P.Sent>, outbox': seq<P.Sent>, hub: H.Hub<ConnId, Parcel>, hub': H.Hub<ConnId, Parcel>)
    requires H.Ok(hub) && Lettered(outbox, hub) && outbox <= outbox' && |outbox'| == |outbox| + 1
    requires OnceMore(hub, hub', outbox'[|outbox|].env.to, Letter(|outbox|, outbox'[|outbox|].env))
    ensures Lettered(outbox', hub')
  {
  }

  lemma OnceStays(outbox: seq<P.Sent>, hub: H.Hub<ConnId, Parcel>, hub': H.Hub<ConnId, Parcel>, to: DeviceId, env: Envelope)
    requires Lettered(outbox, hub) && Once(hub) && OnceMore(hub, hub', to, Letter(|outbox|, env))
    ensures Once(hub')
  {
    forall c, i | c in hub.conns && 0 <= i < |hub.conns[c].accepted| ensures hub.conns[c].accepted[i] != Letter(|outbox|, env) {
      assert LetterOk(outbox, hub.conns[c].device, hub.conns[c].accepted[i]);
    }
  }

  lemma SendRouted(j: Joint, relay: P.State)
    requires Routed(j) && |relay.outbox| == |j.relay.outbox| + 1 && j.relay.outbox <= relay.outbox
    ensures Routed(Joint(relay, HandOver(j.hub, j.relay.outbox, relay.outbox)))
  {
    var env := relay.outbox[|j.relay.outbox|].env;
    var hub' := HandOver(j.hub, j.relay.outbox, relay.outbox);
    SendOnce(j.hub, env.to, Letter(|j.relay.outbox|, env));
    OnceLettered(j.relay.outbox, relay.outbox, j.hub, hub');
    OnceStays(j.relay.outbox, j.hub, hub', env.to, env);
  }

  /** `hub'` accepted nothing since `hub` but frames of the transport's own. */
  ghost predicate OwnOnly(hub: H.Hub<ConnId, Parcel>, hub': H.Hub<ConnId, Parcel>) {
    forall k | k in hub'.conns ::
      if k in hub.conns then
        && hub'.conns[k].device == hub.conns[k].device
        && (hub'.conns[k].accepted == hub.conns[k].accepted || hub'.conns[k].accepted == hub.conns[k].accepted + [Own])
      else hub'.conns[k].accepted == []
  }

  lemma TransportOwn(hub: H.Hub<ConnId, Parcel>, t: H.Event<ConnId, Parcel>)
    requires H.Ok(hub) && H.Possible(hub, t) && !t.SendToDevice? && (t.TrySend? ==> t.frame == Own)
    ensures OwnOnly(hub, H.Next(hub, t))
  {
  }

  lemma OwnRouted(j: Joint, hub': H.Hub<ConnId, Parcel>)
    requires Routed(j) && H.Ok(hub') && OwnOnly(j.hub, hub')
    ensures Routed(Joint(j.relay, hub'))
  {
  }

  lemma TransportRouted(j: Joint, t: H.Event<ConnId, Parcel>)
    requires Routed(j) && H.Possible(j.hub, t) && !t.SendToDevice? && (t.TrySend? ==> t.frame == Own)
    ensures Routed(Joint(j.relay, H.Next(j.hub, t)))
  {
    H.NextOk(j.hub, t);
    TransportOwn(j.hub, t);
    OwnRouted(j, H.Next(j.hub, t));
  }

  lemma OutboxGrows(c: P.Config, s: P.State, e: P.Event)
    requires P.Enabled(c, s, e)
    ensures var s' := P.Next(c, s, e); s'.outbox == s.outbox || (|s'.outbox| == |s.outbox| + 1 && s.outbox <= s'.outbox)
  {
  }

  lemma {:induction false} RunRouted(c: P.Config, rule: P.Rule, j: Joint, es: seq<Event>)
    requires Routed(j) && IsRun(c, rule, j, es)
    ensures Routed(Final(c, rule, j, es))
    decreases es
  {
    if es != [] {
      match es[0] {
        case Relay(r) =>
          OutboxGrows(c, j.relay, r);
          if P.Next(c, j.relay, r).outbox != j.relay.outbox {
            SendRouted(j, P.Next(c, j.relay, r));
          }
        case Transport(t) => TransportRouted(j, t);
      }
      RunRouted(c, rule, Next(c, rule, j, es[0]), es[1..]);
    }
  }

  /** Frame `i` written on connection `k` is a payload of `x`. */
  predicate WritesPayload(hub: H.Hub<ConnId, Parcel>, k: ConnId, i: nat, x: OtpId) {
    && k in hub.conns && i < |hub.conns[k].written|
    && hub.conns[k].written[i].Letter?
    && hub.conns[k].written[i].env.otp == x && hub.conns[k].written[i].env.body.Payload?
  }

  /** End to end: through coordinator and hub together, over all connections and reconnections, at
      most one payload frame per OTP is ever written to a socket; and the socket belongs to the
      device whose claim opened the window which the coordinator delivered. */
  lemma AtMostOneFrame(c: P.Config, s: P.State, es: seq<Event>, x: OtpId, k: ConnId, i: nat, k': ConnId, i': nat)
    requires c.Valid() && P.Initial(s)
    requires IsRun(c, P.Timed, Joint(s, H.Empty()), es)
    requires var j := Final(c, P.Timed, Joint(s, H.Empty()), es);
             WritesPayload(j.hub, k, i, x) && WritesPayload(j.hub, k', i', x)
    ensures k == k' && i == i'
    ensures var j := Final(c, P.Timed, Joint(s, H.Empty()), es);
            exists m | m in j.relay.outbox ::
              && D.IsPayload(m, x) && m.env == j.hub.conns[k].written[i].env
              && m.call in j.relay.windows
              && j.hub.conns[k].device == m.env.to == j.relay.windows[m.call].opener
  {
    var j0 := Joint(s, H.Empty<ConnId, Parcel>());
    var j := Final(c, P.Timed, j0, es);
    RelayedIsRun(c, P.Timed, j0, es);
    RunRouted(c, P.Timed, j0, es);
    D.RunSafe(c, P.Timed, s, Relayed(es), x);
    WrittenLetter(j, k, i);
    WrittenLetter(j, k', i');
    var m := j.relay.outbox[j.hub.conns[k].written[i].k];
    assert m in j.relay.outbox && V.PayloadOk(c, j.relay, m);
  }

  lemma WrittenLetter(j: Joint, k: ConnId, i: nat)
    requires Routed(j) && k in j.hub.conns && i < |j.hub.conns[k].written| && j.hub.conns[k].written[i].Letter?
    ensures i < |j.hub.conns[k].accepted| && j.hub.conns[k].accepted[i] == j.hub.conns[k].written[i]
    ensures LetterOk(j.relay.outbox, j.hub.conns[k].device, j.hub.conns[k].written[i])
  {
    assert H.ConnOk(j.hub.conns[k]);
  }

  function Relays(es: seq<P.Event>): seq<Event> {
    if es == [] then [] else [Relay(es[0])] + Relays(es[1..])
  }

  /** Every run of the coordinator is one of the joint system: the hub never holds it up. */
  lemma {:induction false} HubNeverBlocks(c: P.Config, rule: P.Rule, j: Joint, es: seq<P.Event>)
    requires P.IsRun(c, rule, j.relay, es)
    ensures IsRun(c, rule, j, Relays(es)) && Final(c, rule, j, Relays(es)).relay == P.Final(c, j.relay, es)
    decreases es
  {
    if es != [] {
      HubNeverBlocks(c, rule, Next(c, rule, j, Relay(es[0])), es[1..]);
      assert Relays(es)[1..] == Relays(es[1..]);
    }
  }

  // ---- Every envelope is handed over ------------------------------------------------------

  /** The joint state after the first `n` events. */
  ghost function At(c: P.Config, rule: P.Rule, j: Joint, es: seq<Event>, n: nat): Joint
    requires IsRun(c, rule, j, es) && n <= |es|
    decreases n
  {
    if n == 0 then j else At(c, rule, Next(c, rule, j, es[0]), es[1..], n - 1)
  }

  /** The recipient has an entry, with fewer than 16 frames queued. */
  ghost predicate HasRoom(hub: H.Hub<ConnId, Parcel>, to: DeviceId) {
    to in hub.clients && hub.clients[to] in hub.conns && |hub.conns[hub.clients[to]].queue| < 16
  }

  /** The k-th envelope, sent in this step, is queued on the recipient's connection if that has room. */
  lemma HandedOver(c: P.Config, rule: P.Rule, j: Joint, e: Event)
    requires Routed(j) && Allowed(c, rule, j, e)
    ensures var j' := Next(c, rule, j, e);
            var n := |j.relay.outbox|;
            |j'.relay.outbox| > n ==>
              var env := j'.relay.outbox[n].env;
              && |j'.relay.outbox| == n + 1
              && (HasRoom(j.hub, env.to) ==>
                    var k := j.hub.clients[env.to];
                    && k in j'.hub.conns && j'.hub.conns[k].device == env.to
                    && j'.hub.conns[k].queue == j.hub.conns[k].queue + [Letter(n, env)]
                    && j'.hub.conns[k].accepted == j.hub.conns[k].accepted + [Letter(n, env)])
  {
    if e.Relay? {
      OutboxGrows(c, j.relay, e.r);
      var relay := P.Next(c, j.relay, e.r);
      if relay.outbox != j.relay.outbox {
        var env := relay.outbox[|j.relay.outbox|].env;
        H.SendIsAccepted(j.hub, env.to, Letter(|j.relay.outbox|, env));
      }
    }
  }

  /** What a connection has accepted it has accepted for good. */
  lemma AcceptedStays(c: P.Config, rule: P.Rule, j: Joint, e: Event, k: ConnId)
    requires Routed(j) && Allowed(c, rule, j, e) && k in j.hub.conns
    ensures k in Next(c, rule, j, e).hub.conns && j.hub.conns[k].accepted <= Next(c, rule, j, e).hub.conns[k].accepted
  {
    if e.Transport? {
      TransportOwn(j.hub, e.t);
    } else {
      OutboxGrows(c, j.relay, e.r);
    }
  }

  lemma NextRouted(c: P.Config, rule: P.Rule, j: Joint, e: Event)
    requires Routed(j) && Allowed(c, rule, j, e)
    ensures Routed(Next(c, rule, j, e))
  {
    RunRouted(c, rule, j, [e]);
    assert [e][1..] == [];
    assert Final(c, rule, j, [e]) == Next(c, rule, j, e);
  }

  lemma {:induction false} AcceptedForGood(c: P.Config, rule: P.Rule, j: Joint, es: seq<Event>, k: ConnId)
    requires Routed(j) && IsRun(c, rule, j, es) && k in j.hub.conns
    ensures k in Final(c, rule, j, es).hub.conns && j.hub.conns[k].accepted <= Final(c, rule, j, es).hub.conns[k].accepted
    decreases es
  {
    if es != [] {
      AcceptedStays(c, rule, j, es[0], k);
      NextRouted(c, rule, j, es[0]);
      AcceptedForGood(c, rule, Next(c, rule, j, es[0]), es[1..], k);
    }
  }

  /** If the recipient had an entry with room at `at`, that connection has accepted the n-th envelope. */
  ghost predicate AcceptedIfRoom(at: H.Hub<ConnId, Parcel>, n: nat, env: Envelope, after: H.Hub<ConnId, Parcel>) {
    HasRoom(at, env.to) ==>
      at.clients[env.to] in after.conns && Letter(n, env) in after.conns[at.clients[env.to]].accepted
  }

  lemma SentFirst(c: P.Config, rule: P.Rule, j: Joint, es: seq<Event>)
    requires Routed(j) && IsRun(c, rule, j, es) && es != []
    requires var n := |j.relay.outbox|; |Next(c, rule, j, es[0]).relay.outbox| > n
    ensures var n := |j.relay.outbox|;
            AcceptedIfRoom(j.hub, n, Next(c, rule, j, es[0]).relay.outbox[n].env, Final(c, rule, j, es).hub)
  {
    var n := |j.relay.outbox|;
    var j1 := Next(c, rule, j, es[0]);
    var env := j1.relay.outbox[n].env;
    HandedOver(c, rule, j, es[0]);
    NextRouted(c, rule, j, es[0]);
    if HasRoom(j.hub, env.to) {
      var k := j.hub.clients[env.to];
      AcceptedForGood(c, rule, j1, es[1..], k);
      assert j1.hub.conns[k].accepted[|j.hub.conns[k].accepted|] == Letter(n, env);
    }
  }

  /** Every envelope that the coordinator sends in a run was sent in one step of it; and if its
      recipient had an entry with room then, it was accepted on that connection, for good. */
  lemma {:induction false} SentIsAccepted(c: P.Config, rule: P.Rule, j: Joint, es: seq<Event>, n: nat) returns (i: nat)
    requires Routed(j) && IsRun(c, rule, j, es)
    requires |j.relay.outbox| <= n < |Final(c, rule, j, es).relay.outbox|
    ensures i < |es| && |At(c, rule, j, es, i).relay.outbox| == n && |At(c, rule, j, es, i + 1).relay.outbox| == n + 1
    ensures AcceptedIfRoom(At(c, rule, j, es, i).hub, n, At(c, rule, j, es, i + 1).relay.outbox[n].env,
                           Final(c, rule, j, es).hub)
    decreases es
  {
    var j1 := Next(c, rule, j, es[0]);
    if |j1.relay.outbox| <= n {
      NextRouted(c, rule, j, es[0]);
      var k := SentIsAccepted(c, rule, j1, es[1..], n);
      i := k + 1;
    } else {
      i := 0;
      RelayStays(c, rule, j, es[0]);
      SentFirst(c, rule, j, es);
      assert At(c, rule, j1, es[1..], 0) == j1;
    }
  }

  lemma RelayStays(c: P.Config, rule: P.Rule, j: Joint, e: Event)
    requires Allowed(c, rule, j, e)
    ensures |j.relay.outbox| <= |Next(c, rule, j, e).relay.outbox| <= |j.relay.outbox| + 1
  {
    if e.Relay? {
      OutboxGrows(c, j.relay, e.r);
    }
  }
}
