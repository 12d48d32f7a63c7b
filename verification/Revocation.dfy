/**
  What revocation cuts off, and what it does not: a device is looked up anew on every request and
  every connect, but a socket keeps the device it was connected with.
 */
module Revocations {
  import opened Types
  import opened Roles
  import S = Sharpness

  ghost predicate IsRevoked(s: Site, d: DeviceId) {
    d in s.devices && s.devices[d].revoked
  }

  /** The site after the first `n` events. */
  ghost function At(c: P.Config, s: Site, es: seq<Event>, n: nat): Site
    requires n <= |es|
  {
    Final(c, s, es[..n])
  }

  lemma {:induction false} AtNext(c: P.Config, s: Site, es: seq<Event>, n: nat)
    requires IsRun(c, s, es) && n < |es|
    ensures Possible(c, At(c, s, es, n), es[n]) && At(c, s, es, n + 1) == Next(c, At(c, s, es, n), es[n])
    decreases n
  {
    if n == 0 {
      assert es[..0] == [] && es[..1] == [es[0]] && [es[0]][1..] == [];
      assert Final(c, s, [es[0]]) == Final(c, Next(c, s, es[0]), []);
    } else {
      var s1 := Next(c, s, es[0]);
      AtNext(c, s1, es[1..], n - 1);
      assert es[..n][1..] == es[1..][..n - 1] && es[..n + 1][1..] == es[1..][..n];
    }
  }

  /** A socket was connected by an event of the run, with a token that was live then. */
  lemma {:induction false} ConnectedBy(c: P.Config, s: Site, es: seq<Event>, n: nat, k: SocketId) returns (j: nat)
    requires IsRun(c, s, es) && s.sockets == map[] && n <= |es| && k in At(c, s, es, n).sockets
    ensures j < n && es[j].Connect? && es[j].socket == k && es[j].device == At(c, s, es, n).sockets[k].device
    ensures es[j].device in At(c, s, es, j).devices && !IsRevoked(At(c, s, es, j), es[j].device)
    decreases n
  {
    assert es[..0] == [];
    AtNext(c, s, es, n - 1);
    if es[n - 1].Connect? && es[n - 1].socket == k {
      j := n - 1;
    } else {
      j := ConnectedBy(c, s, es, n - 1, k);
    }
  }

  /** A device that has come to be revoked was revoked by an event in between. */
  lemma {:induction false} RevokedBetween(c: P.Config, s: Site, es: seq<Event>, j: nat, n: nat, d: DeviceId) returns (l: nat)
    requires IsRun(c, s, es) && j <= n <= |es| && d in At(c, s, es, j).devices
    requires !IsRevoked(At(c, s, es, j), d) && IsRevoked(At(c, s, es, n), d)
    ensures j <= l < n && es[l] == Revoke(d)
    decreases n
  {
    StillEnrolled(c, s, es, j, n - 1, d);
    AtNext(c, s, es, n - 1);
    if es[n - 1] == Revoke(d) {
      l := n - 1;
    } else {
      l := RevokedBetween(c, s, es, j, n - 1, d);
    }
  }

  lemma {:induction false} StillEnrolled(c: P.Config, s: Site, es: seq<Event>, j: nat, n: nat, d: DeviceId)
    requires IsRun(c, s, es) && j <= n <= |es| && d in At(c, s, es, j).devices
    ensures d in At(c, s, es, n).devices
    decreases n
  {
    if j < n {
      StillEnrolled(c, s, es, j, n - 1, d);
      AtNext(c, s, es, n - 1);
    }
  }

  /** What reaches the coordinator in the name of a revoked device comes by a socket which was connected
      while the device was not revoked, before the event that revoked it. */
  lemma RevokedOnlyBySocket(c: P.Config, s: Site, es: seq<Event>, i: nat, d: DeviceId) returns (j: nat, l: nat)
    requires IsRun(c, s, es) && s.sockets == map[] && i < |es|
    requires IsRevoked(At(c, s, es, i), d)
    requires var p := Effect(At(c, s, es, i), es[i]);
             p.Some? && ((p.value.Claim? && p.value.device == d) || (p.value.Ingest? && p.value.source == d))
    ensures es[i].Receive? && j < l < i
    ensures es[j].Connect? && es[j].socket == es[i].socket && es[j].device == d && !IsRevoked(At(c, s, es, j), d)
    ensures es[l] == Revoke(d)
  {
    AtNext(c, s, es, i);
    j := ConnectedBy(c, s, es, i, es[i].socket);
    l := RevokedBetween(c, s, es, j, i, d);
  }

  // ---- A run -----------------------------------------------------------------------------

  lemma Do(c: P.Config, start: Site, es: seq<Event>, s: Site, e: Event) returns (es': seq<Event>, s': Site)
    requires IsRun(c, start, es) && s == Final(c, start, es) && Possible(c, s, e)
    ensures es' == es + [e] && s' == Next(c, s, e)
    ensures IsRun(c, start, es') && s' == Final(c, start, es')
  {
    es', s' := es + [e], Next(c, s, e);
    Extended(c, start, es, e);
  }

  lemma {:induction false} Extended(c: P.Config, s: Site, es: seq<Event>, e: Event)
    requires IsRun(c, s, es) && Possible(c, Final(c, s, es), e)
    ensures IsRun(c, s, es + [e]) && Final(c, s, es + [e]) == Next(c, Final(c, s, es), e)
    decreases es
  {
    if es == [] {
      assert ([e])[1..] == [] && es + [e] == [e];
    } else {
      Extended(c, Next(c, s, es[0]), es[1..], e);
      assert (es + [e])[1..] == es[1..] + [e];
    }
  }

  /** An event of the coordinator's own. */
  lemma Turn(c: P.Config, start: Site, es: seq<Event>, s: Site, p: P.Event) returns (es': seq<Event>, s': Site)
    requires IsRun(c, start, es) && s == Final(c, start, es)
    requires P.Enabled(c, s.relay, p) && !p.Ingest? && !p.Claim?
    ensures es' == es + [Inside(p)] && s' == s.(relay := P.Next(c, s.relay, p))
    ensures IsRun(c, start, es') && s' == Final(c, start, es')
  {
    es', s' := Do(c, start, es, s, Inside(p));
  }

  const SOURCE := Device("phone", Source, None, "st", 0, false)
  const SCREEN := Device("laptop", Destination, None, "dt", 0, false)

  /** A source and a destination are enrolled. */
  function Enrolled(): Site {
    Site(map["src" := SOURCE, "d" := SCREEN], map[], S.Start())
  }

  ghost predicate RelayIs(s: Site, now: Millis, pending: map<OtpId, P.Entry>, threads: map<P.Tid, P.Thread>, outbox: seq<P.Sent>) {
    && s.relay.now == now && s.relay.pending == pending && s.relay.threads == threads && s.relay.outbox == outbox
    && IsRevoked(s, "d")
  }

  /** "d" connects, is revoked, and claims by its socket. */
  lemma ClaimsRevoked(c: P.Config) returns (es: seq<Event>, s: Site)
    ensures IsRun(c, Enrolled(), es) && s == Final(c, Enrolled(), es)
    ensures |es| == 4 && es[2] == Revoke("d") && es[3] == Receive(0, W.OtpClaim(S.X), "", 0)
    ensures RelayIs(s, 0, map[], map[P.CallOf(0) := P.Thread("d", S.X, P.Begin)], [])
    ensures s.relay.rows == map[S.X := S.RowX(c)] && s.relay.windows == map[]
  {
    es, s := Do(c, Enrolled(), [], Enrolled(), Connect(0, "dt", "d"));
    es, s := Do(c, Enrolled(), es, s, RestPush("st", "src", "ct", "iv", S.X));
    es, s := Do(c, Enrolled(), es, s, Revoke("d"));
    es, s := Do(c, Enrolled(), es, s, Receive(0, W.OtpClaim(S.X), "", 0));
  }

  /** Its claim opens the window. */
  lemma OpensRevoked(c: P.Config, start: Site, es: seq<Event>, s: Site) returns (es': seq<Event>, s': Site)
    requires 0 < c.ttl && IsRun(c, start, es) && s == Final(c, start, es)
    requires RelayIs(s, 0, map[], map[P.CallOf(0) := P.Thread("d", S.X, P.Begin)], [])
    requires s.relay.rows == map[S.X := S.RowX(c)] && s.relay.windows == map[]
    ensures IsRun(c, start, es') && s' == Final(c, start, es') && es <= es'
    ensures RelayIs(s', 0, map[S.X := P.Entry([P.Claimant("d", 0)], 0)],
              map[P.CallOf(0) := P.Thread("d", S.X, P.Opened), P.TimerOf(0) := P.Thread("d", S.X, P.Armed)], [])
    ensures s'.relay.rows == map[S.X := S.RowX(c)]
    ensures s'.relay.windows == map[0 := P.Window(S.X, "d", S.RowX(c), 0, 0, P.StillOpen)]
  {
    es', s' := ReadsRevoked(c, start, es, s);
    es', s' := Turn(c, start, es', s', P.Step(P.CallOf(0), true));
  }

  lemma ReadsRevoked(c: P.Config, start: Site, es: seq<Event>, s: Site) returns (es': seq<Event>, s': Site)
    requires 0 < c.ttl && IsRun(c, start, es) && s == Final(c, start, es)
    requires RelayIs(s, 0, map[], map[P.CallOf(0) := P.Thread("d", S.X, P.Begin)], [])
    requires s.relay.rows == map[S.X := S.RowX(c)] && s.relay.windows == map[]
    ensures IsRun(c, start, es') && s' == Final(c, start, es') && es <= es'
    ensures RelayIs(s', 0, map[], map[P.CallOf(0) := P.Thread("d", S.X, P.Locking(S.RowX(c), 0))], [])
    ensures s'.relay.rows == map[S.X := S.RowX(c)] && s'.relay.windows == map[]
  {
    es', s' := Turn(c, start, es, s, P.Step(P.CallOf(0), true));
    assert s'.relay.threads[P.CallOf(0)].pc == P.Checking(S.RowX(c));
    es', s' := Turn(c, start, es', s', P.Step(P.CallOf(0), true));
  }

  /** The timer runs its course, and its callback takes the window and checks. */
  lemma ChecksRevoked(c: P.Config, start: Site, es: seq<Event>, s: Site) returns (es': seq<Event>, s': Site)
    requires 0 < c.window < c.ttl && IsRun(c, start, es) && s == Final(c, start, es)
    requires RelayIs(s, 0, map[S.X := P.Entry([P.Claimant("d", 0)], 0)],
               map[P.CallOf(0) := P.Thread("d", S.X, P.Opened), P.TimerOf(0) := P.Thread("d", S.X, P.Armed)], [])
    requires s.relay.rows == map[S.X := S.RowX(c)]
    requires s.relay.windows == map[0 := P.Window(S.X, "d", S.RowX(c), 0, 0, P.StillOpen)]
    ensures IsRun(c, start, es') && s' == Final(c, start, es') && es <= es'
    ensures IsRevoked(s', "d") && s'.relay.outbox == [] && S.X in s'.relay.rows && P.TimerOf(0) in s'.relay.threads
    ensures s'.relay.threads[P.TimerOf(0)]
              == P.Thread("d", S.X, P.Marking(P.Claimant("d", 0), c.window, S.RowX(c), c.window))
  {
    es', s' := Turn(c, start, es, s, P.Tick(c.window));
    es', s' := Turn(c, start, es', s', P.Fire(0));
    es', s' := TakesRevoked(c, start, es', s');
  }

  lemma TakesRevoked(c: P.Config, start: Site, es: seq<Event>, s: Site) returns (es': seq<Event>, s': Site)
    requires 0 < c.window < c.ttl && IsRun(c, start, es) && s == Final(c, start, es)
    requires s.relay.now == c.window && s.relay.pending == map[S.X := P.Entry([P.Claimant("d", 0)], 0)]
    requires P.TimerOf(0) in s.relay.threads && s.relay.threads[P.TimerOf(0)] == P.Thread("d", S.X, P.Fired)
    requires s.relay.rows == map[S.X := S.RowX(c)] && s.relay.outbox == [] && IsRevoked(s, "d")
    ensures IsRun(c, start, es') && s' == Final(c, start, es') && es <= es'
    ensures IsRevoked(s', "d") && s'.relay.outbox == [] && S.X in s'.relay.rows && P.TimerOf(0) in s'.relay.threads
    ensures s'.relay.threads[P.TimerOf(0)]
              == P.Thread("d", S.X, P.Marking(P.Claimant("d", 0), c.window, S.RowX(c), c.window))
  {
    var t := P.TimerOf(0);
    es', s' := Turn(c, start, es, s, P.Step(t, true));
    assert s'.relay.threads[t].pc == P.Reloading(P.Claimant("d", 0), c.window);
    es', s' := ReloadsRevoked(c, start, es', s');
  }

  lemma ReloadsRevoked(c: P.Config, start: Site, es: seq<Event>, s: Site) returns (es': seq<Event>, s': Site)
    requires 0 < c.window < c.ttl && IsRun(c, start, es) && s == Final(c, start, es)
    requires s.relay.now == c.window && P.TimerOf(0) in s.relay.threads
    requires s.relay.threads[P.TimerOf(0)] == P.Thread("d", S.X, P.Reloading(P.Claimant("d", 0), c.window))
    requires s.relay.rows == map[S.X := S.RowX(c)] && s.relay.outbox == [] && IsRevoked(s, "d")
    ensures IsRun(c, start, es') && s' == Final(c, start, es') && es <= es'
    ensures IsRevoked(s', "d") && s'.relay.outbox == [] && S.X in s'.relay.rows && P.TimerOf(0) in s'.relay.threads
    ensures s'.relay.threads[P.TimerOf(0)]
              == P.Thread("d", S.X, P.Marking(P.Claimant("d", 0), c.window, S.RowX(c), c.window))
  {
    var t := P.TimerOf(0);
    es', s' := Turn(c, start, es, s, P.Step(t, true));
    assert s'.relay.threads[t].pc == P.Rechecking(P.Claimant("d", 0), c.window, S.RowX(c));
    es', s' := Turn(c, start, es', s', P.Step(t, true));
  }

  /** Revocation does not reach a socket that is connected: a device claims by it after it was revoked,
      and is sent the payload. */
  lemma PaidThoughRevoked(c: P.Config) returns (es: seq<Event>)
    requires 0 < c.window < c.ttl
    ensures IsRun(c, Enrolled(), es)
    ensures |es| > 3 && es[2] == Revoke("d") && es[3] == Receive(0, W.OtpClaim(S.X), "", 0)
    ensures var s := Final(c, Enrolled(), es);
            IsRevoked(s, "d") && s.relay.outbox == [S.Paid("d", 0, 0, c.window)]
  {
    var s;
    es, s := ClaimsRevoked(c);
    es, s := OpensRevoked(c, Enrolled(), es, s);
    es, s := ChecksRevoked(c, Enrolled(), es, s);
    var t := P.TimerOf(0);
    es, s := Turn(c, Enrolled(), es, s, P.Step(t, true));
    assert s.relay.threads[t].pc == P.Sending([S.Paid("d", 0, 0, c.window)]);
    es, s := Turn(c, Enrolled(), es, s, P.Step(t, true));
  }
}
