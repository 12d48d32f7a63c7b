/**
  What never changes and what only ever moves one way: rows, windows and the clock; and, from
  that, where every payload comes from.  All of it holds for every interleaving, with database
  calls failing or not.
 */
module Provenance {
  import opened Types
  import opened Tables
  import opened Protocol
  import opened Lifecycle

  // ---- What only moves one way ----------------------------------------------

  predicate SameLetter(row: Row, row': Row) {
    && row.ciphertext == row'.ciphertext && row.iv == row'.iv && row.source == row'.source
    && row.createdAt == row'.createdAt && row.expiresAt == row'.expiresAt
  }

  /** A row keeps what was ingested, and once it has left `pending` never re-enters it. */
  predicate RowEvolves(row: Row, row': Row) {
    SameLetter(row, row') && (row.status != Pending ==> row'.status != Pending)
  }

  ghost predicate RowsEvolve(rows: map<OtpId, Row>, rows': map<OtpId, Row>) {
    forall x {:trigger rows'[x]} {:trigger x in rows'} | x in rows :: x in rows' && RowEvolves(rows[x], rows'[x])
  }

  /** A window that has ended stays as it ended; one that is open can only end. */
  ghost predicate WindowsEvolve(windows: map<CallId, Window>, windows': map<CallId, Window>) {
    forall w {:trigger windows'[w]} {:trigger w in windows'} | w in windows ::
      w in windows' && (windows'[w] == windows[w] ||
                        (windows[w].end.StillOpen? && windows'[w] == windows[w].(end := windows'[w].end)))
  }

  ghost predicate Evolves(s: State, s': State) {
    && s.now <= s'.now
    && RowsEvolve(s.rows, s'.rows)
    && WindowsEvolve(s.windows, s'.windows)
    && (forall x | x in s.first :: x in s'.first && s'.first[x] == s.first[x])
    && s.outbox <= s'.outbox
  }

  lemma WindowsMove(s: State, t: Tid, ok: bool)
    requires WellFormed(s) && t in s.threads && Runnable(s.threads[t].pc)
    ensures WindowsEvolve(s.windows, StepThread(s, t, ok).windows)
  {
    var x := s.threads[t].otp;
    assert ThreadOk(s, t);
    assert x in s.pending ==> EntryOk(s, x);
  }

  lemma RowsMove(s: State, t: Tid, ok: bool)
    requires t in s.threads
    ensures RowsEvolve(s.rows, StepThread(s, t, ok).rows)
  {
  }

  lemma StepEvolves(s: State, t: Tid, ok: bool)
    requires WellFormed(s) && t in s.threads && Runnable(s.threads[t].pc)
    ensures Evolves(s, StepThread(s, t, ok))
  {
    WindowsMove(s, t, ok);
    RowsMove(s, t, ok);
  }

  lemma NextEvolves(c: Config, s: State, e: Event)
    requires WellFormed(s) && Enabled(c, s, e)
    ensures Evolves(s, Next(c, s, e))
  {
    if e.Step? {
      StepEvolves(s, e.tid, e.ok);
    }
  }

  lemma EvolvesChains(a: State, b: State, d: State)
    requires Evolves(a, b) && Evolves(b, d)
    ensures Evolves(a, d)
  {
    forall x | x in a.rows ensures x in d.rows && RowEvolves(a.rows[x], d.rows[x]) {
      assert x in b.rows;
    }
    forall w | w in a.windows
      ensures w in d.windows && (d.windows[w] == a.windows[w] ||
                                 (a.windows[w].end.StillOpen? && d.windows[w] == a.windows[w].(end := d.windows[w].end)))
    {
      assert w in b.windows;
    }
  }

  // ---- Snapshots and payloads -------------------------------------------------

  /** `row` was read from the table some time ago: it may be stale, but only in one direction. */
  ghost predicate Snapshot(s: State, x: OtpId, row: Row) {
    x in s.rows && RowEvolves(row, s.rows[x])
  }

  /** The row was seen pending, and unexpired at instant `at`. */
  ghost predicate SeenLive(s: State, row: Row, at: Millis) {
    row.status == Pending && at < row.expiresAt && at <= s.now
  }

  /** The timer of window `w` had run its full course at instant `at`. */
  ghost predicate RanFor(c: Config, s: State, w: CallId, at: Millis) {
    w in s.windows && s.windows[w].openedAt + c.window <= at
  }

  /** If `m` is a payload: it carries the letter of its row, was decided before the row's expiry,
      answers the call that opened a window of that OTP, and was sent by the callback that took
      that window, which fired no earlier than its own timer allows. */
  ghost predicate PayloadOk(c: Config, s: State, m: Sent) {
    m.env.body.Payload? ==>
      && m.env.otp in s.rows
      && m.env.body == Payload(s.rows[m.env.otp].ciphertext, s.rows[m.env.otp].iv)
      && m.at < s.rows[m.env.otp].expiresAt && m.at <= s.now
      && m.sender.TimerOf?
      && RanFor(c, s, m.sender.window, m.at)
      && s.windows[m.sender.window].otp == m.env.otp
      && m.call in s.windows
      && s.windows[m.call].otp == m.env.otp
      && s.windows[m.call].opener == m.env.to
      && s.windows[m.call].end.Taken?
      && s.windows[m.call].end.timer == m.sender.window
      && s.windows[m.call].end.at <= m.at
  }

  ghost predicate PcGrounded(c: Config, s: State, t: Tid, th: Thread) {
    && (th.pc.Checking? ==> Snapshot(s, th.otp, th.pc.row))
    && (th.pc.Locking? ==> Snapshot(s, th.otp, th.pc.row) && SeenLive(s, th.pc.row, th.pc.liveAt))
    && (th.pc.Rechecking? ==> Snapshot(s, th.otp, th.pc.row))
    && (th.pc.Marking? ==>
          && Snapshot(s, th.otp, th.pc.row) && SeenLive(s, th.pc.row, th.pc.checkedAt)
          && t.TimerOf? && RanFor(c, s, t.window, th.pc.checkedAt) && th.pc.since <= th.pc.checkedAt)
    && (th.pc.Reloading? || th.pc.Rechecking? ==> th.pc.since <= s.now)
    && (t.TimerOf? && !th.pc.Armed? && !th.pc.Stopped? ==> RanFor(c, s, t.window, s.now))
    && (th.pc.Sending? ==> forall i :: 0 <= i < |th.pc.mail| ==> PayloadOk(c, s, th.pc.mail[i]))
  }

  ghost predicate WindowGrounded(s: State, w: CallId)
    requires w in s.windows
  {
    var win := s.windows[w];
    && Snapshot(s, win.otp, win.seen) && SeenLive(s, win.seen, win.liveAt)
    && win.liveAt <= win.openedAt <= s.now
    && (win.end.StillOpen? || win.openedAt <= win.end.at <= s.now)
  }

  ghost predicate Grounded(c: Config, s: State) {
    && (forall t {:trigger PcGrounded(c, s, t, s.threads[t])} | t in s.threads :: PcGrounded(c, s, t, s.threads[t]))
    && (forall w {:trigger WindowGrounded(s, w)} | w in s.windows :: WindowGrounded(s, w))
    && (forall i {:trigger s.outbox[i]} | 0 <= i < |s.outbox| :: PayloadOk(c, s, s.outbox[i]))
  }

  lemma PayloadStays(c: Config, s: State, s': State, m: Sent)
    requires Evolves(s, s') && PayloadOk(c, s, m)
    ensures PayloadOk(c, s', m)
  {
  }

  lemma SnapshotStays(s: State, s': State, x: OtpId, row: Row)
    requires Evolves(s, s') && Snapshot(s, x, row)
    ensures Snapshot(s', x, row)
  {
  }

  lemma PcStays(c: Config, s: State, s': State, t: Tid, th: Thread)
    requires Evolves(s, s') && PcGrounded(c, s, t, th)
    ensures PcGrounded(c, s', t, th)
  {
    if th.pc.Checking? || th.pc.Locking? || th.pc.Rechecking? || th.pc.Marking? {
      SnapshotStays(s, s', th.otp, th.pc.row);
    } else if th.pc.Sending? {
      forall i | 0 <= i < |th.pc.mail| ensures PayloadOk(c, s', th.pc.mail[i]) {
        PayloadStays(c, s, s', th.pc.mail[i]);
      }
    }
  }

  lemma LocalGrounded(c: Config, s: State, s': State, t: Tid, ok: bool)
    requires t in s.threads && ThreadOk(s, t) && Local(s.threads[t].pc)
    requires PcGrounded(c, s, t, s.threads[t])
    requires s' == LocalStep(s, t, s.threads[t], ok) && Evolves(s, s')
    ensures PcGrounded(c, s', t, s'.threads[t])
  {
    var th := s.threads[t];
    PcStays(c, s, s', t, th);
  }

  lemma CallLockGrounded(c: Config, s: State, s': State, h: CallId, u: Tid)
    requires WellFormed(s) && Grounded(c, s) && CallOf(h) in s.threads && s.threads[CallOf(h)].pc.Locking?
    requires s' == ClaimLocked(s, h, s.threads[CallOf(h)]) && Evolves(s, s')
    requires u in s'.threads
    ensures PcGrounded(c, s', u, s'.threads[u])
  {
    if u in s.threads {
      assert PcGrounded(c, s, u, s.threads[u]);
      PcStays(c, s, s', u, s.threads[u]);
    }
  }

  lemma TimerLockGrounded(c: Config, s: State, s': State, w: CallId, u: Tid)
    requires WellFormed(s) && Grounded(c, s) && TimerOf(w) in s.threads && s.threads[TimerOf(w)].pc.Fired?
    requires s' == ResolveLocked(s, w, s.threads[TimerOf(w)]) && Evolves(s, s')
    requires u in s'.threads
    ensures PcGrounded(c, s', u, s'.threads[u])
  {
    assert ThreadOk(s, TimerOf(w)) && PcGrounded(c, s, u, s.threads[u]);
    assert s.threads[TimerOf(w)].otp in s.pending ==> EntryOk(s, s.threads[TimerOf(w)].otp);
    PcStays(c, s, s', u, s.threads[u]);
  }

  lemma MovedGrounded(c: Config, s: State, s': State, t: Tid, ok: bool, u: Tid)
    requires WellFormed(s) && Grounded(c, s) && t in s.threads && Runnable(s.threads[t].pc)
    requires s' == StepThread(s, t, ok) && Evolves(s, s')
    requires u in s'.threads
    ensures PcGrounded(c, s', u, s'.threads[u])
  {
    assert ThreadOk(s, t) && PcGrounded(c, s, t, s.threads[t]);
    if s.threads[t].pc.Locking? {
      CallLockGrounded(c, s, s', t.call, u);
    } else if s.threads[t].pc.Fired? {
      TimerLockGrounded(c, s, s', t.window, u);
    } else if u == t {
      LocalGrounded(c, s, s', t, ok);
    } else {
      assert PcGrounded(c, s, u, s.threads[u]);
      PcStays(c, s, s', u, s.threads[u]);
    }
  }

  lemma WindowsGrounded(c: Config, s: State, s': State, t: Tid, ok: bool, w: CallId)
    requires WellFormed(s) && Grounded(c, s) && t in s.threads && Runnable(s.threads[t].pc)
    requires s' == StepThread(s, t, ok) && Evolves(s, s')
    requires w in s'.windows
    ensures WindowGrounded(s', w)
  {
    assert ThreadOk(s, t) && PcGrounded(c, s, t, s.threads[t]);
    if w in s.windows {
      assert WindowGrounded(s, w);
    }
  }

  lemma MailGrounded(c: Config, s: State, s': State, t: Tid, ok: bool, i: nat)
    requires Grounded(c, s) && t in s.threads
    requires s' == StepThread(s, t, ok) && Evolves(s, s')
    requires i < |s'.outbox|
    ensures PayloadOk(c, s', s'.outbox[i])
  {
    assert PcGrounded(c, s, t, s.threads[t]);
    PayloadStays(c, s, s', s'.outbox[i]);
  }

  lemma StepGrounded(c: Config, s: State, t: Tid, ok: bool)
    requires WellFormed(s) && Grounded(c, s) && t in s.threads && Runnable(s.threads[t].pc)
    ensures Grounded(c, StepThread(s, t, ok))
  {
    var s' := StepThread(s, t, ok);
    StepEvolves(s, t, ok);
    forall u | u in s'.threads ensures PcGrounded(c, s', u, s'.threads[u]) { MovedGrounded(c, s, s', t, ok, u); }
    forall w | w in s'.windows ensures WindowGrounded(s', w) { WindowsGrounded(c, s, s', t, ok, w); }
    forall i | 0 <= i < |s'.outbox| ensures PayloadOk(c, s', s'.outbox[i]) { MailGrounded(c, s, s', t, ok, i); }
  }

  lemma SharedGrounded(c: Config, s: State, e: Event)
    requires WellFormed(s) && Grounded(c, s) && Enabled(c, s, e) && !e.Step?
    ensures Grounded(c, Next(c, s, e))
  {
    var s' := Next(c, s, e);
    NextEvolves(c, s, e);
    forall u | u in s'.threads ensures PcGrounded(c, s', u, s'.threads[u]) {
      if u in s.threads {
        assert PcGrounded(c, s, u, s.threads[u]);
        PcStays(c, s, s', u, s.threads[u]);
      }
    }
    forall w | w in s'.windows ensures WindowGrounded(s', w) { assert WindowGrounded(s, w); }
    forall i | 0 <= i < |s'.outbox| ensures PayloadOk(c, s', s'.outbox[i]) { PayloadStays(c, s, s', s'.outbox[i]); }
  }

  lemma NextGrounded(c: Config, s: State, e: Event)
    requires WellFormed(s) && Grounded(c, s) && Enabled(c, s, e)
    ensures Grounded(c, Next(c, s, e))
  {
    if e.Step? {
      StepGrounded(c, s, e.tid, e.ok);
    } else {
      SharedGrounded(c, s, e);
    }
  }

  // ---- Whole runs ----------------------------------------------------------------

  ghost predicate Sound(c: Config, s: State) {
    WellFormed(s) && Grounded(c, s)
  }

  /** Every state of every run is sound, and only ever moves one way. */
  lemma {:induction false} RunSound(c: Config, rule: Rule, s: State, es: seq<Event>)
    requires Sound(c, s) && IsRun(c, rule, s, es)
    ensures Sound(c, Final(c, s, es))
    ensures Evolves(s, Final(c, s, es))
    decreases es
  {
    if es != [] {
      var s1 := Next(c, s, es[0]);
      StepKeeps(c, s, es[0]);
      NextEvolves(c, s, es[0]);
      NextGrounded(c, s, es[0]);
      RunSound(c, rule, s1, es[1..]);
      EvolvesChains(s, s1, Final(c, s1, es[1..]));
    }
  }

  /** Window lifecycle.  At every point of every run: a pending entry is an open window of that
      OTP with its opener as sole claimant, whose own callback has not run its locked section; no
      callback ever takes the defensive branch for a window without exactly one claimant; and a
      window that has ended stays ended, as it was, in every continuation. */
  lemma WindowLifecycle(c: Config, s: State, es: seq<Event>, es': seq<Event>)
    requires Initial(s) && IsRun(c, Free, s, es) && IsRun(c, Free, Final(c, s, es), es')
    ensures var s1 := Final(c, s, es);
            var s2 := Final(c, s1, es');
            && (forall x | x in s1.pending ::
                  var w := s1.pending[x].window;
                  && w in s1.windows && s1.windows[w].otp == x && s1.windows[w].end.StillOpen?
                  && s1.pending[x].claimants == [Claimant(s1.windows[w].opener, w)]
                  && TimerOf(w) in s1.threads
                  && (s1.threads[TimerOf(w)].pc.Armed? || s1.threads[TimerOf(w)].pc.Fired?))
            && (forall w | w in s1.windows && s1.windows[w].end.StillOpen? ::
                  s1.windows[w].otp in s1.pending && s1.pending[s1.windows[w].otp].window == w)
            && (forall t | t in s1.threads && t.TimerOf? :: !s1.threads[t].pc.Invalidating?)
            && (forall w | w in s1.windows && !s1.windows[w].end.StillOpen? ::
                  w in s2.windows && s2.windows[w] == s1.windows[w])
  {
    RunSound(c, Free, s, es);
    var s1 := Final(c, s, es);
    RunSound(c, Free, s1, es');
    forall x | x in s1.pending ensures EntryOk(s1, x) && WindowOk(s1, s1.pending[x].window) {
      assert EntryOk(s1, x);
    }
    forall w | w in s1.windows ensures WindowOk(s1, w) { }
    forall t | t in s1.threads && t.TimerOf? ensures !s1.threads[t].pc.Invalidating? { assert ThreadOk(s1, t); }
  }

  // ---- Rows ----------------------------------------------------------------------------

  ghost predicate RowOk(c: Config, row: Row) {
    && (row.claimedBy.Some? <==> row.status == Claimed)
    && row.expiresAt == row.createdAt + c.ttl
  }

  ghost predicate TableOk(c: Config, s: State) {
    forall x | x in s.rows :: RowOk(c, s.rows[x])
  }

  lemma WritesStay(c: Config, rows: map<OtpId, Row>, th: Thread, ok: bool, x: OtpId)
    requires x in rows && RowOk(c, rows[x])
    ensures x in NextRows(rows, th, ok) && RowOk(c, NextRows(rows, th, ok)[x])
  {
  }

  lemma TableStays(c: Config, s: State, e: Event)
    requires TableOk(c, s) && Enabled(c, s, e)
    ensures TableOk(c, Next(c, s, e))
  {
    if e.Step? {
      var s' := StepThread(s, e.tid, e.ok);
      forall x | x in s'.rows ensures RowOk(c, s'.rows[x]) {
        assert RowOk(c, s.rows[x]);
        WritesStay(c, s.rows, s.threads[e.tid], e.ok, x);
      }
    }
  }

  lemma {:induction false} RunTable(c: Config, rule: Rule, s: State, es: seq<Event>)
    requires TableOk(c, s) && IsRun(c, rule, s, es)
    ensures TableOk(c, Final(c, s, es))
    decreases es
  {
    if es != [] {
      TableStays(c, s, es[0]);
      RunTable(c, rule, Next(c, s, es[0]), es[1..]);
    }
  }

  /** Row invariants over all runs: `claimed_by` is set exactly on claimed rows, `expires_at` is
      `created_at + ttl`, what was ingested never changes, and `pending` is never re-entered. */
  lemma RowInvariants(c: Config, s: State, es: seq<Event>, es': seq<Event>, x: OtpId)
    requires Initial(s) && TableOk(c, s)
    requires IsRun(c, Free, s, es) && IsRun(c, Free, Final(c, s, es), es')
    requires x in Final(c, s, es).rows
    ensures var row := Final(c, s, es).rows[x];
            && (row.claimedBy.Some? <==> row.status == Claimed)
            && row.expiresAt == row.createdAt + c.ttl
            && x in Final(c, Final(c, s, es), es').rows
            && RowEvolves(row, Final(c, Final(c, s, es), es').rows[x])
  {
    RunTable(c, Free, s, es);
    RunSound(c, Free, s, es);
    RunSound(c, Free, Final(c, s, es), es');
    assert RowOk(c, Final(c, s, es).rows[x]);
  }

  /** The first event of the run that ingests `x`. */
  predicate IngestedAt(es: seq<Event>, i: nat, x: OtpId, row: Row) {
    && i < |es|
    && es[i] == Ingest(x, row.source, row.ciphertext, row.iv)
    && forall j | 0 <= j < i :: !(es[j].Ingest? && es[j].id == x)
  }

  lemma NewRow(c: Config, s: State, e: Event, x: OtpId)
    requires Enabled(c, s, e) && x !in s.rows
    ensures x in Next(c, s, e).rows <==> e.Ingest? && e.id == x
    ensures x in Next(c, s, e).rows ==> Next(c, s, e).rows[x] == FreshRow(c.ttl, s.now, e.source, e.ciphertext, e.iv)
  {
  }

  lemma {:induction false} RowFromIngest(c: Config, s: State, es: seq<Event>, x: OtpId) returns (i: nat)
    requires WellFormed(s) && IsRun(c, Free, s, es)
    requires x !in s.rows && x in Final(c, s, es).rows
    ensures IngestedAt(es, i, x, Final(c, s, es).rows[x])
    decreases es
  {
    var s1 := Next(c, s, es[0]);
    NewRow(c, s, es[0], x);
    StepKeeps(c, s, es[0]);
    if x in s1.rows {
      i := 0;
      RunEvolves(c, s1, es[1..]);
    } else {
      var k := RowFromIngest(c, s1, es[1..], x);
      i := k + 1;
      Shifted(es, k, x, Final(c, s, es).rows[x]);
    }
  }

  lemma Shifted(es: seq<Event>, k: nat, x: OtpId, row: Row)
    requires es != [] && !(es[0].Ingest? && es[0].id == x) && IngestedAt(es[1..], k, x, row)
    ensures IngestedAt(es, k + 1, x, row)
  {
    assert forall j | 0 < j < |es| :: es[j] == es[1..][j - 1];
  }

  lemma {:induction false} RunEvolves(c: Config, s: State, es: seq<Event>)
    requires WellFormed(s) && IsRun(c, Free, s, es)
    ensures Evolves(s, Final(c, s, es))
    decreases es
  {
    if es != [] {
      StepKeeps(c, s, es[0]);
      NextEvolves(c, s, es[0]);
      RunEvolves(c, Next(c, s, es[0]), es[1..]);
      EvolvesChains(s, Next(c, s, es[0]), Final(c, s, es));
    }
  }

  /** A call in flight, or returned, was made by a `Claim` event of the run. */
  lemma {:induction false} CallFromClaim(c: Config, s: State, es: seq<Event>, h: CallId) returns (j: nat)
    requires WellFormed(s) && IsRun(c, Free, s, es)
    requires CallOf(h) !in s.threads && CallOf(h) in Final(c, s, es).threads
    ensures var th := Final(c, s, es).threads[CallOf(h)]; j < |es| && es[j] == Claim(h, th.device, th.otp)
    decreases es
  {
    var s1 := Next(c, s, es[0]);
    StepKeeps(c, s, es[0]);
    CallsStay(c, s, es[0], h);
    if CallOf(h) in s1.threads {
      CallStays(c, s1, es[1..], h);
      j := 0;
    } else {
      var k := CallFromClaim(c, s1, es[1..], h);
      j := k + 1;
    }
  }

  lemma CallsStay(c: Config, s: State, e: Event, h: CallId)
    requires WellFormed(s) && Enabled(c, s, e)
    ensures var s' := Next(c, s, e);
            if CallOf(h) in s.threads then
              CallOf(h) in s'.threads && s'.threads[CallOf(h)].device == s.threads[CallOf(h)].device
                && s'.threads[CallOf(h)].otp == s.threads[CallOf(h)].otp
            else if e.Claim? && e.call == h then
              CallOf(h) in s'.threads && s'.threads[CallOf(h)].device == e.device && s'.threads[CallOf(h)].otp == e.otp
            else CallOf(h) !in s'.threads
  {
    if e.Step? {
      assert ThreadOk(s, e.tid);
    }
  }

  lemma {:induction false} CallStays(c: Config, s: State, es: seq<Event>, h: CallId)
    requires WellFormed(s) && IsRun(c, Free, s, es) && CallOf(h) in s.threads
    ensures var s' := Final(c, s, es);
            && CallOf(h) in s'.threads
            && s'.threads[CallOf(h)].device == s.threads[CallOf(h)].device
            && s'.threads[CallOf(h)].otp == s.threads[CallOf(h)].otp
    decreases es
  {
    if es != [] {
      StepKeeps(c, s, es[0]);
      CallsStay(c, s, es[0], h);
      CallStays(c, Next(c, s, es[0]), es[1..], h);
    }
  }

  /** Payload provenance.  A payload carries the ciphertext and iv of the Ingest that created its
      OTP, before that OTP's expiry; it goes to the device that made the claim which opened the
      window it answers, and that claim had seen this very row pending and unexpired; and it is sent by a
      callback whose timer had run the whole window. */
  lemma PayloadProvenance(c: Config, s: State, es: seq<Event>, m: Sent) returns (i: nat, j: nat)
    requires Initial(s) && s.rows == map[] && IsRun(c, Free, s, es)
    requires m in Final(c, s, es).outbox && m.env.body.Payload?
    ensures var s' := Final(c, s, es);
            && i < |es| && es[i].Ingest? && es[i].id == m.env.otp
            && m.env.body == Payload(es[i].ciphertext, es[i].iv)
            && (forall k | 0 <= k < i :: !(es[k].Ingest? && es[k].id == m.env.otp))
            && j < |es| && es[j] == Claim(m.call, m.env.to, m.env.otp)
            && m.call in s'.windows
            && s'.windows[m.call].otp == m.env.otp && s'.windows[m.call].opener == m.env.to
            && Snapshot(s', m.env.otp, s'.windows[m.call].seen)
            && SeenLive(s', s'.windows[m.call].seen, s'.windows[m.call].liveAt)
            && s'.windows[m.call].liveAt <= s'.windows[m.call].openedAt <= m.at
            && m.env.otp in s'.rows && m.at < s'.rows[m.env.otp].expiresAt
            && m.sender.TimerOf? && RanFor(c, s', m.sender.window, m.at)
  {
    RunSound(c, Free, s, es);
    var s' := Final(c, s, es);
    assert PayloadOk(c, s', m) by {
      var k :| 0 <= k < |s'.outbox| && s'.outbox[k] == m;
    }
    assert WindowGrounded(s', m.call) && WindowOk(s', m.call);
    j := CallFromClaim(c, s, es, m.call);
    i := RowFromIngest(c, s, es, m.env.otp);
  }
}
