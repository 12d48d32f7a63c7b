/**
  The oracle for OTPs that were in the table when the coordinator started: a row still pending is
  decided as if it had been ingested in the trace, at its creation; a row decided before stays, and
  is refused to every claim.
 */
module OracleRestarts {
  import opened Types
  import opened Tables
  import opened Serial
  import opened Oracle

  // ---- Rows still pending ----------------------------------------------------------

  /** The row of `x` at the start is as an ingest of this coordinator leaves it. */
  predicate PendingAtStart(tr: Trace, x: OtpId) {
    && x in tr.start.rows
    && var row := tr.start.rows[x];
       row == FreshRow(tr.ttl, row.createdAt, row.source, row.ciphertext, row.iv) && row.createdAt <= tr.start.now
  }

  /** The same trace, from the creation of `x` on, with its ingestion as first event. */
  function Backdated(tr: Trace, x: OtpId): Trace
    requires x in tr.start.rows
  {
    var row := tr.start.rows[x];
    Trace(tr.window, tr.ttl, tr.start.(now := row.createdAt, rows := tr.start.rows - {x}),
          [Push(x, row.source, row.ciphertext, row.iv), Clock(tr.start.now)] + tr.events)
  }

  lemma BackdatedStart(tr: Trace, x: OtpId)
    requires PendingAtStart(tr, x) && tr.start.faults == []
    ensures Backdated(tr, x).At(2) == tr.start
  {
    var b := Backdated(tr, x);
    var row := tr.start.rows[x];
    assert b.At(0) == b.start && b.At(1) == Next(tr.ttl, b.start, b.events[0]);
    assert (tr.start.rows - {x})[x := row] == tr.start.rows;
    assert b.At(1) == tr.start.(now := row.createdAt);
    assert b.At(2) == Next(tr.ttl, b.At(1), b.events[1]);
  }

  lemma {:induction false} BackdatedAt(tr: Trace, x: OtpId, n: nat)
    requires PendingAtStart(tr, x) && tr.start.faults == [] && n <= |tr.events|
    ensures Backdated(tr, x).At(n + 2) == tr.At(n)
  {
    if n == 0 {
      BackdatedStart(tr, x);
    } else {
      BackdatedAt(tr, x, n - 1);
      assert Backdated(tr, x).events[n + 1] == tr.events[n - 1];
    }
  }

  lemma BackdatedPossible(tr: Trace, x: OtpId, n: nat)
    requires PendingAtStart(tr, x) && tr.start.faults == [] && n < |tr.events| && tr.Possible(n)
    ensures Backdated(tr, x).Possible(n + 2)
  {
    var b := Backdated(tr, x);
    BackdatedAt(tr, x, n);
    assert b.events[n + 2] == tr.events[n];
    forall i | 0 <= i < n + 2 && b.events[i].Call? ensures i >= 2 && b.events[i] == tr.events[i - 2] { }
  }

  lemma BackdatedIsRun(tr: Trace, x: OtpId)
    requires PendingAtStart(tr, x) && tr.start.faults == [] && tr.IsRun()
    ensures Backdated(tr, x).IsRun()
  {
    var b := Backdated(tr, x);
    forall n | 0 <= n < |b.events| ensures b.Possible(n) {
      if n >= 2 {
        assert tr.Possible(n - 2);
        BackdatedPossible(tr, x, n - 2);
      } else if n == 1 {
        assert b.At(1).now == b.start.now;
      }
    }
  }

  /** The oracle for a row that was pending at the start: after any trace in which database calls
      succeed, its row, its envelopes and its window are those of the closed form, over the trace
      in which it was ingested at its creation. */
  lemma OracleDecidesPending(tr: Trace, x: OtpId)
    requires tr.IsRun() && tr.start.faults == [] && PendingAtStart(tr, x)
    ensures var m := tr.At(|tr.events|);
            var b := Backdated(tr, x);
            var o := OutcomeOf(b, x, |b.events|);
            && Lookup(m.rows, x) == RowOf(b, x, |b.events|)
            && About(m.outbox, x) == AllAnswers(b, x, |b.events|)
            && Placed(b, x, o, |b.events|) && WindowAgrees(b, x, m, o)
            && (Opened(o) ==> m.timers[b.events[o.opening].call].armedAt == TimeAt(b, o.opening))
  {
    BackdatedIsRun(tr, x);
    BackdatedEnd(tr, x);
    OracleDecides(Backdated(tr, x), x);
  }

  lemma BackdatedEnd(tr: Trace, x: OtpId)
    requires PendingAtStart(tr, x) && tr.start.faults == []
    ensures var b := Backdated(tr, x); b.At(|b.events|) == tr.At(|tr.events|)
  {
    BackdatedAt(tr, x, |tr.events|);
  }

  // ---- Rows decided before --------------------------------------------------------------

  /** The answer to a claim of a row of that status. */
  function Refusal(status: Status): Body {
    match status
    case Claimed => Rejection(AlreadyClaimed)
    case Invalidated => InvalidatedNotice
    case _ => Rejection(OtpExpired)
  }

  /** One refusal for each claim of `x`. */
  function Refusals(events: seq<Event>, x: OtpId, status: Status): seq<Envelope> {
    if events == [] then []
    else
      var e := events[|events| - 1];
      Refusals(events[..|events| - 1], x, status)
        + if e.Call? && e.otp == x then [Envelope(e.device, x, Refusal(status))] else []
  }

  /** `x` has no window, and has never had one. */
  ghost predicate Windowless(m: Mem, x: OtpId) {
    && Paired(m) && x !in m.pending
    && forall t | t in m.timers :: m.timers[t].otp != x
  }

  lemma ElsewhereWindowless(m: Mem, m': Mem, x: OtpId, sent: seq<Envelope>)
    requires Windowless(m, x) && LeavesAlone(m, m', x, sent)
    ensures Windowless(m', x) && About(m'.outbox, x) == About(m.outbox, x)
  {
    AboutOthers(m.outbox, sent, x);
  }

  lemma RefusedClaim(m: Mem, call: nat, device: DeviceId, x: OtpId)
    requires m.faults == [] && x in m.rows && m.rows[x].status != Pending
    ensures ClaimEffect(m, call, device, x) == Send(m, device, x, Refusal(m.rows[x].status))
  {
  }

  /** What one event does to a decided row without a window. */
  lemma StandsStep(ttl: int, m: Mem, e: Event, x: OtpId)
    requires m.faults == [] && Windowless(m, x) && x in m.rows && m.rows[x].status != Pending
    requires e.Call? ==> e.call !in m.timers
    requires e.Ring? ==> e.timer in m.timers
    ensures var m' := Next(ttl, m, e);
            && m'.faults == [] && Windowless(m', x) && x in m'.rows && m'.rows[x] == m.rows[x]
            && About(m'.outbox, x) == About(m.outbox, x)
                 + if e.Call? && e.otp == x then [Envelope(e.device, x, Refusal(m.rows[x].status))] else []
  {
    if e.Call? && e.otp == x {
      RefusedClaim(m, e.call, e.device, x);
      AboutAppend(m.outbox, [Envelope(e.device, x, Refusal(m.rows[x].status))], x);
    } else if e.Call? {
      var sent := ClaimElsewhere(m, e.call, e.device, e.otp, x);
      ElsewhereWindowless(m, Next(ttl, m, e), x, sent);
      assert Lookup(Next(ttl, m, e).rows, x) == Lookup(m.rows, x);
    } else if e.Ring? {
      var sent := FireElsewhere(m, e.timer, x);
      ElsewhereWindowless(m, Next(ttl, m, e), x, sent);
      assert Lookup(Next(ttl, m, e).rows, x) == Lookup(m.rows, x);
    }
  }

  /** The oracle for a row decided before the start: it stays as it is, has no window, and every claim
      of it is refused, in order, by what its status says. */
  lemma {:induction false} OracleKeepsDecided(tr: Trace, x: OtpId, n: nat)
    requires tr.IsRun() && tr.start.faults == [] && n <= |tr.events|
    requires x in tr.start.rows && tr.start.rows[x].status != Pending
    ensures var m := tr.At(n);
            && m.faults == [] && Windowless(m, x)
            && x in m.rows && m.rows[x] == tr.start.rows[x]
            && About(m.outbox, x) == Refusals(tr.events[..n], x, tr.start.rows[x].status)
  {
    if n > 0 {
      OracleKeepsDecided(tr, x, n - 1);
      assert tr.Possible(n - 1);
      StandsStep(tr.ttl, tr.At(n - 1), tr.events[n - 1], x);
      assert tr.events[..n][..n - 1] == tr.events[..n - 1];
    }
  }
}
