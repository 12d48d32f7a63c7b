/**
  A closed form for the serial coordinator.  For any trace, what becomes of an OTP and every
  envelope about it are determined by four events: its ingestion, the first live claim, the
  first live claim by another device, and the firing of the first claim's timer.
 */
module Oracle {
  import opened Types
  import opened Tables
  import opened Serial

  // ---- Events that matter ----------------------------------------------------------

  function TimeAt(tr: Trace, n: nat): Millis
    requires n <= |tr.events|
  {
    if n == 0 then tr.start.now
    else if tr.events[n - 1].Clock? then tr.events[n - 1].to
    else TimeAt(tr, n - 1)
  }

  /** `LiveCall(x, until)` is a claim of `x` before instant `until`; `Rival` one by another device. */
  datatype Pattern =
    | PushOf(x: OtpId)
    | LiveCall(x: OtpId, until: Millis)
    | Rival(x: OtpId, until: Millis, device: DeviceId)
    | RingOf(timer: nat)
    | CleanFrom(until: Millis)

  predicate Matches(tr: Trace, p: Pattern, i: nat)
    requires i < |tr.events|
  {
    var e := tr.events[i];
    match p
    case PushOf(x) => e.Push? && e.id == x
    case LiveCall(x, until) => e.Call? && e.otp == x && TimeAt(tr, i) < until
    case Rival(x, until, device) => e.Call? && e.otp == x && TimeAt(tr, i) < until && e.device != device
    case RingOf(timer) => e == Ring(timer)
    case CleanFrom(until) => e.Clean? && until <= TimeAt(tr, i)
  }

  /** The first match among the events from `lo` up to, not including, `hi`. */
  function First(tr: Trace, p: Pattern, lo: nat, hi: nat): (r: Option<nat>)
    requires hi <= |tr.events|
    ensures r.Some? ==> lo <= r.value < hi && Matches(tr, p, r.value) && forall j | lo <= j < r.value :: !Matches(tr, p, j)
    ensures r.None? ==> forall j | lo <= j < hi :: !Matches(tr, p, j)
  {
    if hi <= lo then None
    else if First(tr, p, lo, hi - 1).Some? then First(tr, p, lo, hi - 1)
    else if Matches(tr, p, hi - 1) then Some(hi - 1)
    else None
  }

  // ---- The oracle -------------------------------------------------------------------------

  /** Where an OTP stands.  The numbers are positions of events: its ingestion, the claim that
      opened its window, and the event that ended the window. */
  datatype Outcome =
    | Unborn
    | Unclaimed(born: nat)
    | Waiting(born: nat, opening: nat)
    | Beaten(born: nat, opening: nat, rival: nat)
    | Delivered(born: nat, opening: nat, ring: nat)
    | Lapsed(born: nat, opening: nat, ring: nat)

  function Expiry(tr: Trace, born: nat): Millis
    requires born <= |tr.events|
  {
    TimeAt(tr, born) + tr.ttl
  }

  function Decide(tr: Trace, x: OtpId, born: nat, opening: nat, n: nat): Outcome
    requires born < opening < n <= |tr.events| && tr.events[opening].Call?
  {
    var until := Expiry(tr, born);
    var rival := First(tr, Rival(x, until, tr.events[opening].device), opening + 1, n);
    var ring := First(tr, RingOf(tr.events[opening].call), opening + 1, n);
    if rival.Some? && (ring.None? || rival.value < ring.value) then Beaten(born, opening, rival.value)
    else if ring.None? then Waiting(born, opening)
    else if TimeAt(tr, ring.value) < until then Delivered(born, opening, ring.value)
    else Lapsed(born, opening, ring.value)
  }

  /** Where `x` stands after the first `n` events. */
  function OutcomeOf(tr: Trace, x: OtpId, n: nat): Outcome
    requires n <= |tr.events|
  {
    var born := First(tr, PushOf(x), 0, n);
    if born.None? then Unborn
    else
      var opening := First(tr, LiveCall(x, Expiry(tr, born.value)), born.value + 1, n);
      if opening.None? then Unclaimed(born.value) else Decide(tr, x, born.value, opening.value, n)
  }

  /** The row of `x` after the first `n` events. */
  function RowOf(tr: Trace, x: OtpId, n: nat): Option<Row>
    requires n <= |tr.events|
  {
    var o := OutcomeOf(tr, x, n);
    if o.Unborn? then None
    else
      var e := tr.events[o.born];
      var until := Expiry(tr, o.born);
      var status := if o.Delivered? then Claimed else if o.Beaten? then Invalidated
                    else if First(tr, CleanFrom(until), o.born + 1, n).Some? then Expired else Pending;
      var claimedBy := if o.Delivered? then Some(tr.events[o.opening].device) else None;
      Some(Row(e.ciphertext, e.iv, e.source, TimeAt(tr, o.born), until, claimedBy, status))
  }

  /** The envelopes about `x` that event `n` gives rise to. */
  function AnswersTo(tr: Trace, x: OtpId, n: nat): seq<Envelope>
    requires n < |tr.events|
  {
    var o := OutcomeOf(tr, x, n);
    var e := tr.events[n];
    if e.Call? && e.otp == x then
      (match o
       case Unborn => [Envelope(e.device, x, Rejection(OtpNotFound))]
       case Delivered(_, _, _) => [Envelope(e.device, x, Rejection(AlreadyClaimed))]
       case Beaten(_, _, _) => [Envelope(e.device, x, InvalidatedNotice)]
       case Lapsed(_, _, _) => [Envelope(e.device, x, Rejection(OtpExpired))]
       case Unclaimed(born) =>
         if TimeAt(tr, n) < Expiry(tr, born) then [] else [Envelope(e.device, x, Rejection(OtpExpired))]
       case Waiting(born, opening) =>
         var holder := tr.events[opening].device;
         if Expiry(tr, born) <= TimeAt(tr, n) then [Envelope(e.device, x, Rejection(OtpExpired))]
         else if e.device == holder then []
         else [Envelope(holder, x, InvalidatedNotice), Envelope(e.device, x, InvalidatedNotice)])
    else if o.Waiting? && e == Ring(tr.events[o.opening].call) then
      var holder := tr.events[o.opening].device;
      if TimeAt(tr, n) < Expiry(tr, o.born)
      then [Envelope(holder, x, Payload(tr.events[o.born].ciphertext, tr.events[o.born].iv))]
      else [Envelope(holder, x, Rejection(OtpExpired))]
    else []
  }

  function AllAnswers(tr: Trace, x: OtpId, n: nat): seq<Envelope>
    requires n <= |tr.events|
  {
    if n == 0 then [] else AllAnswers(tr, x, n - 1) + AnswersTo(tr, x, n - 1)
  }

  // ---- The outcome, one event at a time -------------------------------------------------------

  predicate Opened(o: Outcome) {
    !o.Unborn? && !o.Unclaimed?
  }

  /** The positions in `o` are in order and point at events of the right kind. */
  ghost predicate Placed(tr: Trace, x: OtpId, o: Outcome, n: nat)
    requires n <= |tr.events|
  {
    && (!o.Unborn? ==> o.born < n && Matches(tr, PushOf(x), o.born))
    && (Opened(o) ==> o.born < o.opening < n && Matches(tr, LiveCall(x, Expiry(tr, o.born)), o.opening))
  }

  function Advance(tr: Trace, x: OtpId, o: Outcome, n: nat): Outcome
    requires n < |tr.events| && Placed(tr, x, o, n)
  {
    match o
    case Unborn => if Matches(tr, PushOf(x), n) then Unclaimed(n) else o
    case Unclaimed(born) => if Matches(tr, LiveCall(x, Expiry(tr, born)), n) then Waiting(born, n) else o
    case Waiting(born, opening) =>
      if Matches(tr, Rival(x, Expiry(tr, born), tr.events[opening].device), n) then Beaten(born, opening, n)
      else if Matches(tr, RingOf(tr.events[opening].call), n) then
        if TimeAt(tr, n) < Expiry(tr, born) then Delivered(born, opening, n) else Lapsed(born, opening, n)
      else o
    case _ => o
  }

  lemma OutcomePlaced(tr: Trace, x: OtpId, n: nat)
    requires n <= |tr.events|
    ensures Placed(tr, x, OutcomeOf(tr, x, n), n)
  {
  }

  lemma DecideAdvances(tr: Trace, x: OtpId, born: nat, opening: nat, n: nat)
    requires born < opening < n < |tr.events|
    requires Matches(tr, PushOf(x), born) && Matches(tr, LiveCall(x, Expiry(tr, born)), opening)
    ensures Placed(tr, x, Decide(tr, x, born, opening, n), n)
    ensures Decide(tr, x, born, opening, n + 1) == Advance(tr, x, Decide(tr, x, born, opening, n), n)
  {
  }

  lemma OutcomeAdvances(tr: Trace, x: OtpId, n: nat)
    requires n < |tr.events|
    ensures Placed(tr, x, OutcomeOf(tr, x, n), n)
    ensures OutcomeOf(tr, x, n + 1) == Advance(tr, x, OutcomeOf(tr, x, n), n)
  {
    OutcomePlaced(tr, x, n);
    var o := OutcomeOf(tr, x, n);
    if Opened(o) {
      DecideAdvances(tr, x, o.born, o.opening, n);
    } else {
      YoungAdvances(tr, x, n);
    }
  }

  lemma YoungAdvances(tr: Trace, x: OtpId, n: nat)
    requires n < |tr.events| && !Opened(OutcomeOf(tr, x, n)) && Placed(tr, x, OutcomeOf(tr, x, n), n)
    ensures OutcomeOf(tr, x, n + 1) == Advance(tr, x, OutcomeOf(tr, x, n), n)
  {
  }

  // ---- The coordinator keeps to the oracle ------------------------------------------------------

  function About(outbox: seq<Envelope>, x: OtpId): seq<Envelope> {
    if outbox == [] then []
    else
      var init := About(outbox[..|outbox| - 1], x);
      var last := outbox[|outbox| - 1];
      if last.otp == x then init + [last] else init
  }

  lemma {:induction false} AboutAppend(a: seq<Envelope>, b: seq<Envelope>, x: OtpId)
    requires forall i :: 0 <= i < |b| ==> b[i].otp == x
    ensures About(a + b, x) == About(a, x) + b
  {
    if b == [] {
      assert a + b == a;
    } else {
      var b' := b[..|b| - 1];
      AboutAppend(a, b', x);
      assert (a + b)[..|a + b| - 1] == a + b';
      assert b' + [b[|b| - 1]] == b;
    }
  }

  lemma {:induction false} AboutOthers(a: seq<Envelope>, b: seq<Envelope>, x: OtpId)
    requires forall i :: 0 <= i < |b| ==> b[i].otp != x
    ensures About(a + b, x) == About(a, x)
  {
    if b == [] {
      assert a + b == a;
    } else {
      var b' := b[..|b| - 1];
      AboutOthers(a, b', x);
      assert (a + b)[..|a + b| - 1] == a + b';
    }
  }

  function Lookup(rows: map<OtpId, Row>, x: OtpId): Option<Row> {
    if x in rows then Some(rows[x]) else None
  }

  /** Every pending entry has a timer of its own OTP. */
  ghost predicate Paired(m: Mem) {
    forall y | y in m.pending :: m.pending[y].timer in m.timers && m.timers[m.pending[y].timer].otp == y
  }

  /** The state agrees with the outcome about the window of `x`, who holds it, and its timer: whether
      it still ticks, and that there is no other. */
  ghost predicate WindowAgrees(tr: Trace, x: OtpId, m: Mem, o: Outcome)
    requires Opened(o) ==> o.opening < |tr.events| && tr.events[o.opening].Call?
  {
    && (x in m.pending <==> o.Waiting?)
    && (o.Waiting? ==> m.pending[x] == ClaimState([tr.events[o.opening].device], tr.events[o.opening].call))
    && (Opened(o) ==>
          && tr.events[o.opening].call in m.timers
          && m.timers[tr.events[o.opening].call].otp == x
          && (m.timers[tr.events[o.opening].call].phase == Ticking <==> o.Waiting?))
    && (forall t | t in m.timers && m.timers[t].otp == x :: Opened(o) && t == tr.events[o.opening].call)
  }

  ghost predicate Agrees(tr: Trace, x: OtpId, n: nat)
    requires n <= |tr.events|
  {
    var m := tr.At(n);
    OutcomePlaced(tr, x, n);
    && m.now == TimeAt(tr, n)
    && m.faults == []
    && Paired(m)
    && Lookup(m.rows, x) == RowOf(tr, x, n)
    && WindowAgrees(tr, x, m, OutcomeOf(tr, x, n))
    && About(m.outbox, x) == AllAnswers(tr, x, n)
  }

  /** While the outcome stands, only the janitor can change the row, and only as it does. */
  lemma RowStands(tr: Trace, x: OtpId, n: nat)
    requires n < |tr.events| && OutcomeOf(tr, x, n + 1) == OutcomeOf(tr, x, n)
    ensures RowOf(tr, x, n + 1) ==
            if tr.events[n].Clean? && RowOf(tr, x, n).Some? then Some(SweptRow(RowOf(tr, x, n).value, TimeAt(tr, n)))
            else RowOf(tr, x, n)
  {
    OutcomePlaced(tr, x, n);
  }

  lemma AgreesClock(tr: Trace, x: OtpId, n: nat)
    requires n < |tr.events| && tr.events[n].Clock? && Agrees(tr, x, n)
    ensures Agrees(tr, x, n + 1)
  {
    OutcomeAdvances(tr, x, n);
    RowStands(tr, x, n);
  }

  lemma AgreesClean(tr: Trace, x: OtpId, n: nat)
    requires n < |tr.events| && tr.events[n].Clean? && Agrees(tr, x, n)
    ensures Agrees(tr, x, n + 1)
  {
    OutcomeAdvances(tr, x, n);
    RowStands(tr, x, n);
  }

  lemma AgreesBirth(tr: Trace, x: OtpId, n: nat)
    requires n < |tr.events| && Matches(tr, PushOf(x), n) && Agrees(tr, x, n) && OutcomeOf(tr, x, n).Unborn?
    ensures Agrees(tr, x, n + 1)
  {
    OutcomeAdvances(tr, x, n);
  }

  lemma AgreesPush(tr: Trace, x: OtpId, n: nat)
    requires n < |tr.events| && tr.events[n].Push? && Agrees(tr, x, n)
    ensures Agrees(tr, x, n + 1)
  {
    OutcomeAdvances(tr, x, n);
    if tr.events[n].id == x && OutcomeOf(tr, x, n).Unborn? {
      AgreesBirth(tr, x, n);
    } else {
      RowStands(tr, x, n);
    }
  }

  // ---- Claims and firings that concern another OTP ------------------------------------------

  /** From `m` to `m'`, nothing of `x` changes, and `sent` holds no envelope about it. */
  ghost predicate LeavesAlone(m: Mem, m': Mem, x: OtpId, sent: seq<Envelope>) {
    && m'.now == m.now && m'.faults == [] && Paired(m')
    && Lookup(m'.rows, x) == Lookup(m.rows, x)
    && (x in m'.pending <==> x in m.pending)
    && (x in m.pending ==> m'.pending[x] == m.pending[x])
    && (forall t | t in m.timers && m.timers[t].otp == x :: t in m'.timers && m'.timers[t] == m.timers[t])
    && (forall t | t in m'.timers && m'.timers[t].otp == x :: t in m.timers && m.timers[t].otp == x)
    && m'.outbox == m.outbox + sent
    && forall i :: 0 <= i < |sent| ==> sent[i].otp != x
  }

  lemma AgreesElsewhere(tr: Trace, x: OtpId, n: nat, sent: seq<Envelope>)
    requires n < |tr.events| && Agrees(tr, x, n)
    requires OutcomeOf(tr, x, n + 1) == OutcomeOf(tr, x, n) && RowOf(tr, x, n + 1) == RowOf(tr, x, n)
    requires AnswersTo(tr, x, n) == [] && !tr.events[n].Clock?
    requires LeavesAlone(tr.At(n), tr.At(n + 1), x, sent)
    ensures Agrees(tr, x, n + 1)
  {
    AboutOthers(tr.At(n).outbox, sent, x);
    OutcomePlaced(tr, x, n);
  }

  lemma JoinElsewhere(m: Mem, call: nat, device: DeviceId, y: OtpId, x: OtpId) returns (sent: seq<Envelope>)
    requires y != x && m.faults == [] && Paired(m) && call !in m.timers
    ensures LeavesAlone(m, JoinEffect(m, call, device, y), x, sent)
  {
    sent := if y !in m.pending || device in m.pending[y].claimants then []
            else NoticesTo(m.pending[y].claimants + [device], y);
  }

  lemma ClaimElsewhere(m: Mem, call: nat, device: DeviceId, y: OtpId, x: OtpId) returns (sent: seq<Envelope>)
    requires y != x && m.faults == [] && Paired(m) && call !in m.timers
    ensures LeavesAlone(m, ClaimEffect(m, call, device, y), x, sent)
  {
    if y in m.rows && m.rows[y].status == Pending && m.now < m.rows[y].expiresAt {
      sent := JoinElsewhere(m, call, device, y, x);
    } else {
      sent := ClaimEffect(m, call, device, y).outbox[|m.outbox|..];
    }
  }

  lemma ResolveElsewhere(m: Mem, y: OtpId, x: OtpId) returns (sent: seq<Envelope>)
    requires y != x && m.faults == [] && Paired(m)
    ensures LeavesAlone(m, ResolveEffect(m, y), x, sent)
  {
    if y !in m.pending {
      sent := [];
    } else {
      var claimants := m.pending[y].claimants;
      var after := m.(pending := m.pending - {y});
      if |claimants| != 1 {
        sent := InvalidateElsewhere(after, y, claimants, x);
      } else {
        sent := DeliverElsewhere(after, y, claimants[0], x);
      }
    }
  }

  lemma InvalidateElsewhere(m: Mem, y: OtpId, claimants: seq<DeviceId>, x: OtpId) returns (sent: seq<Envelope>)
    requires y != x && m.faults == [] && Paired(m)
    ensures LeavesAlone(m, InvalidateEffect(m, y, claimants), x, sent)
  {
    sent := NoticesTo(claimants, y);
  }

  lemma DeliverElsewhere(m: Mem, y: OtpId, winner: DeviceId, x: OtpId) returns (sent: seq<Envelope>)
    requires y != x && m.faults == [] && Paired(m)
    ensures LeavesAlone(m, DeliverEffect(m, y, winner), x, sent)
  {
    sent := DeliverEffect(m, y, winner).outbox[|m.outbox|..];
  }

  lemma FireElsewhere(m: Mem, t: nat, x: OtpId) returns (sent: seq<Envelope>)
    requires m.faults == [] && Paired(m) && t in m.timers && m.timers[t].otp != x
    ensures LeavesAlone(m, FireEffect(m, t), x, sent)
  {
    sent := ResolveElsewhere(m.(timers := m.timers[t := m.timers[t].(phase := Rung)]), m.timers[t].otp, x);
  }

  /** Event `n`, which is about `x`, leaves the row and the outbox as foretold. */
  ghost predicate RowFollows(tr: Trace, x: OtpId, n: nat)
    requires n < |tr.events|
  {
    var m := tr.At(n);
    var m' := tr.At(n + 1);
    && m'.now == m.now && m'.faults == []
    && Lookup(m'.rows, x) == RowOf(tr, x, n + 1)
    && m'.outbox == m.outbox + AnswersTo(tr, x, n)
    && forall i :: 0 <= i < |AnswersTo(tr, x, n)| ==> AnswersTo(tr, x, n)[i].otp == x
  }

  /** Event `n` leaves the window of `x` and its timer as foretold. */
  ghost predicate WindowFollows(tr: Trace, x: OtpId, n: nat)
    requires n < |tr.events|
  {
    var m' := tr.At(n + 1);
    && Paired(m')
    && Placed(tr, x, OutcomeOf(tr, x, n + 1), n + 1)
    && WindowAgrees(tr, x, m', OutcomeOf(tr, x, n + 1))
  }

  lemma AgreesIf(tr: Trace, x: OtpId, n: nat)
    requires n < |tr.events| && Agrees(tr, x, n) && !tr.events[n].Clock?
    requires RowFollows(tr, x, n) && WindowFollows(tr, x, n)
    ensures Agrees(tr, x, n + 1)
  {
    AboutAppend(tr.At(n).outbox, AnswersTo(tr, x, n), x);
  }

  // ---- Claims and firings that concern `x` ---------------------------------------------------

  lemma {:induction false} NowIsTime(tr: Trace, n: nat)
    requires n <= |tr.events|
    ensures tr.At(n).now == TimeAt(tr, n)
  {
    if n > 0 {
      NowIsTime(tr, n - 1);
      OnlyClocksTick(tr.ttl, tr.At(n - 1), tr.events[n - 1]);
    }
  }

  lemma OnlyClocksTick(ttl: int, m: Mem, e: Event)
    ensures Next(ttl, m, e).now == if e.Clock? then e.to else m.now
  {
  }

  lemma {:induction false} TimeGrows(tr: Trace, i: nat, n: nat)
    requires tr.IsRun() && i <= n <= |tr.events|
    ensures TimeAt(tr, i) <= TimeAt(tr, n)
    decreases n
  {
    if i < n {
      assert tr.Possible(n - 1);
      NowIsTime(tr, n - 1);
      TimeGrows(tr, i, n - 1);
    }
  }

  lemma NoSweepBefore(tr: Trace, until: Millis, lo: nat, n: nat)
    requires tr.IsRun() && n <= |tr.events| && TimeAt(tr, n) < until
    ensures First(tr, CleanFrom(until), lo, n).None?
  {
    var swept := First(tr, CleanFrom(until), lo, n);
    if swept.Some? {
      TimeGrows(tr, swept.value, n);
    }
  }

  /** Before its expiry a row has not been swept. */
  lemma NotSwept(tr: Trace, x: OtpId, n: nat)
    requires tr.IsRun() && tr.start.faults == [] && n <= |tr.events|
    requires var o := OutcomeOf(tr, x, n);
             (o.Unclaimed? || o.Waiting?) && o.born <= n && TimeAt(tr, n) < Expiry(tr, o.born)
    ensures RowOf(tr, x, n).Some? && RowOf(tr, x, n).value.status == Pending
  {
    var o := OutcomeOf(tr, x, n);
    NoSweepBefore(tr, Expiry(tr, o.born), o.born + 1, n);
  }

  /** What a claim that neither opens nor ends a window answers. */
  lemma QuietClaim(m: Mem, call: nat, device: DeviceId, x: OtpId, sent: seq<Envelope>)
    requires m.faults == []
    requires sent ==
      if x !in m.rows then [Envelope(device, x, Rejection(OtpNotFound))]
      else if m.rows[x].status == Claimed then [Envelope(device, x, Rejection(AlreadyClaimed))]
      else if m.rows[x].status == Invalidated then [Envelope(device, x, InvalidatedNotice)]
      else if m.rows[x].status == Expired || m.rows[x].expiresAt <= m.now then [Envelope(device, x, Rejection(OtpExpired))]
      else []
    requires x in m.rows && m.rows[x].status == Pending && m.now < m.rows[x].expiresAt ==>
               x in m.pending && m.pending[x].claimants == [device]
    ensures ClaimEffect(m, call, device, x) == m.(outbox := m.outbox + sent)
  {
    assert m.outbox + [] == m.outbox;
  }

  /** Any claim but one that opens or ends the window of `x`. */
  lemma AgreesQuietClaim(tr: Trace, x: OtpId, n: nat)
    requires tr.IsRun() && tr.start.faults == []
    requires n < |tr.events| && tr.events[n].Call? && tr.events[n].otp == x && Agrees(tr, x, n)
    requires OutcomeOf(tr, x, n + 1) == OutcomeOf(tr, x, n)
    ensures Agrees(tr, x, n + 1)
  {
    OutcomeAdvances(tr, x, n);
    RowStands(tr, x, n);
    var e := tr.events[n];
    var sent := AnswersTo(tr, x, n);
    QuietAnswers(tr, x, n);
    QuietClaim(tr.At(n), e.call, e.device, x, sent);
    AboutAppend(tr.At(n).outbox, sent, x);
  }

  lemma QuietAnswers(tr: Trace, x: OtpId, n: nat)
    requires tr.IsRun() && tr.start.faults == []
    requires n < |tr.events| && tr.events[n].Call? && tr.events[n].otp == x && Agrees(tr, x, n)
    requires OutcomeOf(tr, x, n + 1) == OutcomeOf(tr, x, n)
    ensures var m := tr.At(n);
            var device := tr.events[n].device;
            && (AnswersTo(tr, x, n) ==
                if x !in m.rows then [Envelope(device, x, Rejection(OtpNotFound))]
                else if m.rows[x].status == Claimed then [Envelope(device, x, Rejection(AlreadyClaimed))]
                else if m.rows[x].status == Invalidated then [Envelope(device, x, InvalidatedNotice)]
                else if m.rows[x].status == Expired || m.rows[x].expiresAt <= m.now then [Envelope(device, x, Rejection(OtpExpired))]
                else [])
            && (x in m.rows && m.rows[x].status == Pending && m.now < m.rows[x].expiresAt ==>
                  x in m.pending && m.pending[x].claimants == [device])
  {
    OutcomeAdvances(tr, x, n);
    var o := OutcomeOf(tr, x, n);
    if (o.Unclaimed? || o.Waiting?) && TimeAt(tr, n) < Expiry(tr, o.born) {
      NotSwept(tr, x, n);
    }
    if o.Lapsed? {
      LapsedIsOver(tr, x, n);
    }
  }

  lemma LapsedIsOver(tr: Trace, x: OtpId, n: nat)
    requires tr.IsRun() && tr.start.faults == [] && n <= |tr.events| && OutcomeOf(tr, x, n).Lapsed?
    ensures OutcomeOf(tr, x, n).born <= n && Expiry(tr, OutcomeOf(tr, x, n).born) <= TimeAt(tr, n)
  {
    TimeGrows(tr, OutcomeOf(tr, x, n).ring, n);
  }

  lemma AgreesOpening(tr: Trace, x: OtpId, n: nat)
    requires tr.IsRun() && tr.start.faults == []
    requires n < |tr.events| && tr.events[n].Call? && tr.events[n].otp == x && Agrees(tr, x, n)
    requires tr.events[n].call !in tr.At(n).timers
    requires OutcomeOf(tr, x, n).Unclaimed? && OutcomeOf(tr, x, n + 1).Waiting?
    ensures Agrees(tr, x, n + 1)
  {
    OutcomeAdvances(tr, x, n);
    NotSwept(tr, x, n);
    var m := tr.At(n);
    var e := tr.events[n];
    OpeningClaim(m, e.call, e.device, x);
    OpeningRow(tr, x, n);
    assert m.outbox + [] == m.outbox && AllAnswers(tr, x, n) + [] == AllAnswers(tr, x, n);
  }

  lemma OpeningClaim(m: Mem, call: nat, device: DeviceId, x: OtpId)
    requires m.faults == [] && x in m.rows && m.rows[x].status == Pending && m.now < m.rows[x].expiresAt && x !in m.pending
    ensures ClaimEffect(m, call, device, x)
              == m.(timers := m.timers[call := Timer(x, m.now, Ticking)],
                    pending := m.pending[x := ClaimState([device], call)])
  {
  }

  /** Opening a window does not touch the row. */
  lemma OpeningRow(tr: Trace, x: OtpId, n: nat)
    requires n < |tr.events| && OutcomeOf(tr, x, n).Unclaimed? && OutcomeOf(tr, x, n + 1).Waiting?
    ensures RowOf(tr, x, n + 1) == RowOf(tr, x, n)
  {
    OutcomeAdvances(tr, x, n);
  }

  lemma RivalWindow(tr: Trace, x: OtpId, m: Mem, m': Mem, o: Outcome, o': Outcome)
    requires o.Waiting? && o.opening < |tr.events| && tr.events[o.opening].Call?
    requires Opened(o') && !o'.Waiting? && o'.opening == o.opening
    requires Paired(m) && WindowAgrees(tr, x, m, o)
    requires m'.timers == StopTimer(m.timers, tr.events[o.opening].call) && m'.pending == m.pending - {x}
    ensures Paired(m') && WindowAgrees(tr, x, m', o')
  {
  }

  lemma RivalEffect(tr: Trace, x: OtpId, n: nat)
    requires tr.IsRun() && tr.start.faults == []
    requires n < |tr.events| && tr.events[n].Call? && tr.events[n].otp == x && Agrees(tr, x, n)
    requires OutcomeOf(tr, x, n + 1).Beaten? && OutcomeOf(tr, x, n).Waiting?
    ensures var m := tr.At(n);
            && x in m.rows && Some(m.rows[x]) == RowOf(tr, x, n)
            && tr.At(n + 1) == m.(timers := StopTimer(m.timers, tr.events[OutcomeOf(tr, x, n).opening].call),
                                  pending := m.pending - {x},
                                  rows := SetStatus(m.rows, x, Invalidated, None),
                                  outbox := m.outbox + AnswersTo(tr, x, n))
  {
    OutcomeAdvances(tr, x, n);
    NotSwept(tr, x, n);
    var e := tr.events[n];
    RivalClaim(tr.At(n), e.call, e.device, x, tr.events[OutcomeOf(tr, x, n).opening].device);
  }

  lemma RivalRowFollows(tr: Trace, x: OtpId, n: nat)
    requires tr.IsRun() && tr.start.faults == []
    requires n < |tr.events| && tr.events[n].Call? && tr.events[n].otp == x && Agrees(tr, x, n)
    requires OutcomeOf(tr, x, n + 1).Beaten? && OutcomeOf(tr, x, n).Waiting?
    ensures RowFollows(tr, x, n)
  {
    RivalRow(tr, x, n);
    RivalEffect(tr, x, n);
    assert tr.At(n + 1).rows == tr.At(n).rows[x := RowOf(tr, x, n + 1).value];
  }

  lemma RivalRow(tr: Trace, x: OtpId, n: nat)
    requires n < |tr.events| && OutcomeOf(tr, x, n + 1).Beaten? && OutcomeOf(tr, x, n).Waiting?
    ensures RowOf(tr, x, n).Some?
    ensures RowOf(tr, x, n + 1) == Some(RowOf(tr, x, n).value.(status := Invalidated, claimedBy := None))
    ensures forall i :: 0 <= i < |AnswersTo(tr, x, n)| ==> AnswersTo(tr, x, n)[i].otp == x
  {
    OutcomeAdvances(tr, x, n);
  }

  lemma RivalWindowFollows(tr: Trace, x: OtpId, n: nat)
    requires tr.IsRun() && tr.start.faults == []
    requires n < |tr.events| && tr.events[n].Call? && tr.events[n].otp == x && Agrees(tr, x, n)
    requires OutcomeOf(tr, x, n + 1).Beaten? && OutcomeOf(tr, x, n).Waiting?
    ensures WindowFollows(tr, x, n)
  {
    OutcomeAdvances(tr, x, n);
    OutcomePlaced(tr, x, n + 1);
    RivalEffect(tr, x, n);
    RivalWindow(tr, x, tr.At(n), tr.At(n + 1), OutcomeOf(tr, x, n), OutcomeOf(tr, x, n + 1));
  }

  lemma AgreesRival(tr: Trace, x: OtpId, n: nat)
    requires tr.IsRun() && tr.start.faults == []
    requires n < |tr.events| && tr.events[n].Call? && tr.events[n].otp == x && Agrees(tr, x, n)
    requires OutcomeOf(tr, x, n + 1).Beaten? && OutcomeOf(tr, x, n).Waiting?
    ensures Agrees(tr, x, n + 1)
  {
    RivalRowFollows(tr, x, n);
    RivalWindowFollows(tr, x, n);
    AgreesIf(tr, x, n);
  }

  lemma RivalClaim(m: Mem, call: nat, device: DeviceId, x: OtpId, holder: DeviceId)
    requires m.faults == [] && x in m.rows && m.rows[x].status == Pending && m.now < m.rows[x].expiresAt
    requires x in m.pending && m.pending[x].claimants == [holder] && holder != device
    ensures ClaimEffect(m, call, device, x)
              == m.(timers := StopTimer(m.timers, m.pending[x].timer),
                    pending := m.pending - {x},
                    rows := SetStatus(m.rows, x, Invalidated, None),
                    outbox := m.outbox + [Envelope(holder, x, InvalidatedNotice), Envelope(device, x, InvalidatedNotice)])
  {
    assert NoticesTo([holder] + [device], x) == [Envelope(holder, x, InvalidatedNotice), Envelope(device, x, InvalidatedNotice)];
  }

  lemma RingFires(m: Mem, t: nat, x: OtpId, holder: DeviceId)
    requires m.faults == [] && t in m.timers && m.timers[t].otp == x
    requires x in m.rows && x in m.pending && m.pending[x].claimants == [holder]
    ensures var row := m.rows[x];
            FireEffect(m, t)
              == m.(timers := m.timers[t := m.timers[t].(phase := Rung)],
                    pending := m.pending - {x},
                    rows := if Dead(row, m.now) then m.rows else SetStatus(m.rows, x, Claimed, Some(holder)),
                    outbox := m.outbox + [Envelope(holder, x,
                      if Dead(row, m.now) then Rejection(OtpExpired) else Payload(row.ciphertext, row.iv))])
  {
  }

  lemma RingRow(tr: Trace, x: OtpId, n: nat)
    requires tr.IsRun() && tr.start.faults == []
    requires n < |tr.events| && OutcomeOf(tr, x, n).Waiting? && tr.events[n].Ring?
    requires !OutcomeOf(tr, x, n + 1).Waiting?
    ensures var o' := OutcomeOf(tr, x, n + 1);
            && RowOf(tr, x, n).Some?
            && (o'.Delivered? <==> !Dead(RowOf(tr, x, n).value, TimeAt(tr, n)))
            && (o'.Lapsed? ==> RowOf(tr, x, n + 1) == RowOf(tr, x, n))
            && (o'.Delivered? ==>
                  var winner := tr.events[OutcomeOf(tr, x, n).opening].device;
                  RowOf(tr, x, n + 1) == Some(RowOf(tr, x, n).value.(status := Claimed, claimedBy := Some(winner))))
  {
    OutcomeAdvances(tr, x, n);
    if TimeAt(tr, n) < Expiry(tr, OutcomeOf(tr, x, n).born) {
      NotSwept(tr, x, n);
    }
  }

  lemma RingWindow(tr: Trace, x: OtpId, m: Mem, m': Mem, o: Outcome, o': Outcome)
    requires o.Waiting? && o.opening < |tr.events| && tr.events[o.opening].Call?
    requires Opened(o') && !o'.Waiting? && o'.opening == o.opening
    requires Paired(m) && WindowAgrees(tr, x, m, o)
    requires var t := tr.events[o.opening].call;
             && m'.timers == m.timers[t := m.timers[t].(phase := Rung)]
             && m'.pending == m.pending - {x}
    ensures Paired(m') && WindowAgrees(tr, x, m', o')
  {
  }

  lemma RingOutcome(tr: Trace, x: OtpId, n: nat)
    requires n < |tr.events| && OutcomeOf(tr, x, n).Waiting? && Placed(tr, x, OutcomeOf(tr, x, n), n)
    requires tr.events[n] == Ring(tr.events[OutcomeOf(tr, x, n).opening].call)
    ensures var o' := OutcomeOf(tr, x, n + 1);
            Opened(o') && !o'.Waiting? && !o'.Beaten? && o'.opening == OutcomeOf(tr, x, n).opening && Placed(tr, x, o', n + 1)
  {
    OutcomeAdvances(tr, x, n);
    OutcomePlaced(tr, x, n + 1);
  }

  lemma RingEffect(tr: Trace, x: OtpId, n: nat)
    requires tr.IsRun() && tr.start.faults == []
    requires n < |tr.events| && Agrees(tr, x, n) && OutcomeOf(tr, x, n).Waiting?
    requires tr.events[n] == Ring(tr.events[OutcomeOf(tr, x, n).opening].call)
    ensures var m := tr.At(n);
            var m' := tr.At(n + 1);
            var t := tr.events[n].timer;
            var holder := tr.events[OutcomeOf(tr, x, n).opening].device;
            && t in m.timers && x in m.rows && Some(m.rows[x]) == RowOf(tr, x, n)
            && m' == m.(timers := m.timers[t := m.timers[t].(phase := Rung)],
                        pending := m.pending - {x},
                        rows := if Dead(m.rows[x], m.now) then m.rows else SetStatus(m.rows, x, Claimed, Some(holder)),
                        outbox := m.outbox + AnswersTo(tr, x, n))
  {
    RingOutcome(tr, x, n);
    RingRow(tr, x, n);
    RingFires(tr.At(n), tr.events[n].timer, x, tr.events[OutcomeOf(tr, x, n).opening].device);
    RingAnswer(tr, x, n);
  }

  lemma RingRowFollows(tr: Trace, x: OtpId, n: nat)
    requires tr.IsRun() && tr.start.faults == []
    requires n < |tr.events| && Agrees(tr, x, n) && OutcomeOf(tr, x, n).Waiting?
    requires tr.events[n] == Ring(tr.events[OutcomeOf(tr, x, n).opening].call)
    ensures RowFollows(tr, x, n)
  {
    OutcomePlaced(tr, x, n);
    RingOutcome(tr, x, n);
    RingRow(tr, x, n);
    RingEffect(tr, x, n);
    RingAnswer(tr, x, n);
  }

  lemma RingWindowFollows(tr: Trace, x: OtpId, n: nat)
    requires tr.IsRun() && tr.start.faults == []
    requires n < |tr.events| && Agrees(tr, x, n) && OutcomeOf(tr, x, n).Waiting?
    requires tr.events[n] == Ring(tr.events[OutcomeOf(tr, x, n).opening].call)
    ensures WindowFollows(tr, x, n)
  {
    RingOutcome(tr, x, n);
    RingEffect(tr, x, n);
    RingWindow(tr, x, tr.At(n), tr.At(n + 1), OutcomeOf(tr, x, n), OutcomeOf(tr, x, n + 1));
  }

  lemma AgreesRing(tr: Trace, x: OtpId, n: nat)
    requires tr.IsRun() && tr.start.faults == []
    requires n < |tr.events| && Agrees(tr, x, n) && OutcomeOf(tr, x, n).Waiting?
    requires tr.events[n] == Ring(tr.events[OutcomeOf(tr, x, n).opening].call)
    ensures Agrees(tr, x, n + 1)
  {
    RingRowFollows(tr, x, n);
    RingWindowFollows(tr, x, n);
    AgreesIf(tr, x, n);
  }

  lemma RingAnswer(tr: Trace, x: OtpId, n: nat)
    requires n < |tr.events| && OutcomeOf(tr, x, n).Waiting? && RowOf(tr, x, n).Some?
    requires tr.events[n] == Ring(tr.events[OutcomeOf(tr, x, n).opening].call)
    requires OutcomeOf(tr, x, n + 1).Delivered? <==> !Dead(RowOf(tr, x, n).value, TimeAt(tr, n))
    ensures var row := RowOf(tr, x, n).value;
            AnswersTo(tr, x, n) == [Envelope(tr.events[OutcomeOf(tr, x, n).opening].device, x,
              if Dead(row, TimeAt(tr, n)) then Rejection(OtpExpired) else Payload(row.ciphertext, row.iv))]
  {
    OutcomeAdvances(tr, x, n);
  }

  lemma AgreesOwnCall(tr: Trace, x: OtpId, n: nat)
    requires tr.IsRun() && tr.start.faults == []
    requires n < |tr.events| && tr.events[n].Call? && tr.events[n].otp == x && Agrees(tr, x, n)
    requires tr.events[n].call !in tr.At(n).timers
    ensures Agrees(tr, x, n + 1)
  {
    OwnCallOutcome(tr, x, n);
    if OutcomeOf(tr, x, n + 1) == OutcomeOf(tr, x, n) {
      AgreesQuietClaim(tr, x, n);
    } else if OutcomeOf(tr, x, n).Unclaimed? {
      AgreesOpening(tr, x, n);
    } else {
      AgreesRival(tr, x, n);
    }
  }

  /** A claim changes nothing, opens the window, or beats the one that is open. */
  lemma OwnCallOutcome(tr: Trace, x: OtpId, n: nat)
    requires n < |tr.events| && tr.events[n].Call?
    ensures var o, o' := OutcomeOf(tr, x, n), OutcomeOf(tr, x, n + 1);
            o' == o || (o.Unclaimed? && o'.Waiting?) || (o.Waiting? && o'.Beaten?)
  {
    OutcomeAdvances(tr, x, n);
  }

  lemma AgreesCall(tr: Trace, x: OtpId, n: nat)
    requires tr.IsRun() && tr.start.faults == []
    requires n < |tr.events| && tr.events[n].Call? && tr.Possible(n) && Agrees(tr, x, n)
    ensures Agrees(tr, x, n + 1)
  {
    var e := tr.events[n];
    if e.otp == x {
      AgreesOwnCall(tr, x, n);
    } else {
      AgreesOtherCall(tr, x, n);
    }
  }

  lemma OtherCallOutcome(tr: Trace, x: OtpId, n: nat)
    requires n < |tr.events| && tr.events[n].Call? && tr.events[n].otp != x
    ensures OutcomeOf(tr, x, n + 1) == OutcomeOf(tr, x, n) && AnswersTo(tr, x, n) == []
  {
    OutcomeAdvances(tr, x, n);
  }

  lemma AgreesOtherCall(tr: Trace, x: OtpId, n: nat)
    requires tr.IsRun() && tr.start.faults == []
    requires n < |tr.events| && tr.events[n].Call? && tr.events[n].otp != x && Agrees(tr, x, n)
    requires tr.events[n].call !in tr.At(n).timers
    ensures Agrees(tr, x, n + 1)
  {
    var e := tr.events[n];
    OtherCallOutcome(tr, x, n);
    RowStands(tr, x, n);
    var sent := ClaimElsewhere(tr.At(n), e.call, e.device, e.otp, x);
    AgreesElsewhere(tr, x, n, sent);
  }

  lemma AgreesFire(tr: Trace, x: OtpId, n: nat)
    requires tr.IsRun() && tr.start.faults == []
    requires n < |tr.events| && tr.events[n].Ring? && tr.Possible(n) && Agrees(tr, x, n)
    ensures Agrees(tr, x, n + 1)
  {
    var t := tr.events[n].timer;
    OutcomeAdvances(tr, x, n);
    if tr.At(n).timers[t].otp == x {
      AgreesRing(tr, x, n);
    } else {
      RowStands(tr, x, n);
      var sent := FireElsewhere(tr.At(n), t, x);
      AgreesElsewhere(tr, x, n, sent);
    }
  }

  lemma {:induction false} AgreesAlways(tr: Trace, x: OtpId, n: nat)
    requires tr.IsRun() && tr.start.faults == [] && x !in tr.start.rows && n <= |tr.events|
    ensures Agrees(tr, x, n)
  {
    if n > 0 {
      AgreesAlways(tr, x, n - 1);
      assert tr.Possible(n - 1);
      match tr.events[n - 1]
      case Clock(_) => AgreesClock(tr, x, n - 1);
      case Push(_, _, _, _) => AgreesPush(tr, x, n - 1);
      case Call(_, _, _) => AgreesCall(tr, x, n - 1);
      case Ring(_) => AgreesFire(tr, x, n - 1);
      case Clean => AgreesClean(tr, x, n - 1);
    }
  }

  /** The oracle theorem.  After any trace in which database calls succeed, the row of an OTP
      ingested in it, the envelopes about it, in order, the window it holds open, with its holder,
      and its one timer are those of the closed form; no other timer was ever armed for it. */
  lemma OracleDecides(tr: Trace, x: OtpId)
    requires tr.IsRun() && tr.start.faults == [] && x !in tr.start.rows
    ensures var m := tr.At(|tr.events|);
            var o := OutcomeOf(tr, x, |tr.events|);
            && Lookup(m.rows, x) == RowOf(tr, x, |tr.events|)
            && About(m.outbox, x) == AllAnswers(tr, x, |tr.events|)
            && Placed(tr, x, o, |tr.events|) && WindowAgrees(tr, x, m, o)
            && (Opened(o) ==> m.timers[tr.events[o.opening].call].armedAt == TimeAt(tr, o.opening))
  {
    AgreesAlways(tr, x, |tr.events|);
    var o := OutcomeOf(tr, x, |tr.events|);
    if Opened(o) {
      ArmedByOpening(tr, o.opening);
    }
  }

  /** A timer was armed by the call whose number it bears. */
  lemma {:induction false} ArmedBy(tr: Trace, n: nat, t: nat) returns (i: nat)
    requires tr.IsRun() && n <= |tr.events| && t in tr.At(n).timers
    ensures i < n && tr.events[i].Call? && tr.events[i].call == t && tr.At(n).timers[t].armedAt == TimeAt(tr, i)
  {
    assert tr.Possible(n - 1);
    if t in tr.At(n - 1).timers {
      i := ArmedBy(tr, n - 1, t);
      TimersStay(tr.ttl, tr.At(n - 1), tr.events[n - 1], t);
    } else {
      i := n - 1;
      NowIsTime(tr, n - 1);
      NewTimer(tr.ttl, tr.At(n - 1), tr.events[n - 1], t);
    }
  }

  lemma TimersStay(ttl: int, m: Mem, e: Event, t: nat)
    requires t in m.timers && (e.Call? ==> e.call !in m.timers)
    ensures t in Next(ttl, m, e).timers && Next(ttl, m, e).timers[t].armedAt == m.timers[t].armedAt
  {
  }

  lemma NewTimer(ttl: int, m: Mem, e: Event, t: nat)
    requires t !in m.timers && t in Next(ttl, m, e).timers
    ensures e.Call? && e.call == t && Next(ttl, m, e).timers[t].armedAt == m.now
  {
  }

  lemma ArmedByOpening(tr: Trace, opening: nat)
    requires tr.IsRun() && opening < |tr.events| && tr.events[opening].Call?
    requires tr.events[opening].call in tr.At(|tr.events|).timers
    ensures tr.At(|tr.events|).timers[tr.events[opening].call].armedAt == TimeAt(tr, opening)
  {
    var i := ArmedBy(tr, |tr.events|, tr.events[opening].call);
    assert tr.Possible(i) && tr.Possible(opening);
  }

  // ---- Decided rows ------------------------------------------------------------------------------

  ghost predicate SoleClaimants(m: Mem) {
    forall y | y in m.pending :: |m.pending[y].claimants| == 1
  }

  lemma DecidedStep(ttl: int, m: Mem, e: Event, x: OtpId)
    requires SoleClaimants(m)
    ensures SoleClaimants(Next(ttl, m, e))
    ensures x in m.rows && m.rows[x].status != Pending ==>
              x in Next(ttl, m, e).rows && Next(ttl, m, e).rows[x] == m.rows[x]
  {
  }

  lemma {:induction false} AlwaysSole(tr: Trace, n: nat)
    requires tr.IsRun() && n <= |tr.events|
    ensures SoleClaimants(tr.At(n))
  {
    if n > 0 {
      AlwaysSole(tr, n - 1);
      DecidedStep(tr.ttl, tr.At(n - 1), tr.events[n - 1], "");
    }
  }

  /** In the serial coordinator claimed, invalidated and expired are each absorbing, whether or
      not database calls fail. */
  lemma {:induction false} DecidedForGood(tr: Trace, x: OtpId, i: nat, n: nat)
    requires tr.IsRun() && i <= n <= |tr.events|
    requires x in tr.At(i).rows && tr.At(i).rows[x].status != Pending
    ensures x in tr.At(n).rows && tr.At(n).rows[x] == tr.At(i).rows[x]
    decreases n
  {
    if i < n {
      DecidedForGood(tr, x, i, n - 1);
      AlwaysSole(tr, n - 1);
      DecidedStep(tr.ttl, tr.At(n - 1), tr.events[n - 1], x);
    }
  }
}
