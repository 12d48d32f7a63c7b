/**
  For a single callback that has left the lock: exactly when its write is bound to land before the
  expiry of the row.
 */
module Deadlines {
  import opened Types
  import opened Tables
  import opened Protocol
  import opened Lifecycle
  import opened Provenance
  import opened Delivery
  import opened Sharpness
  import opened Atomicity
  import Progress

  /** In no continuation is `t` about to write `claimed` with the expiry of `x` already reached. */
  ghost predicate AlwaysInTime(c: Config, s: State, t: Tid, x: OtpId) {
    forall es | IsRun(c, Timed, s, es) && Landing(Final(c, s, es), t, x) :: BeforeExpiry(Final(c, s, es), x)
  }

  ghost predicate BeforeExpiry(s: State, x: OtpId) {
    x in s.rows && s.now < s.rows[x].expiresAt
  }

  // ---- The deadline ----------------------------------------------------------------

  /** The thread of a timer that has taken a window at `since`, as long as it owes its write. */
  ghost predicate TookAt(s: State, w: CallId, since: Millis) {
    && TimerOf(w) in s.threads && !s.threads[TimerOf(w)].pc.Armed? && !s.threads[TimerOf(w)].pc.Fired?
    && (OwesWrite(s.threads[TimerOf(w)].pc) ==> s.threads[TimerOf(w)].pc.since == since)
  }

  lemma StepTookAt(s: State, t: Tid, ok: bool, w: CallId, since: Millis)
    requires WellFormed(s) && TookAt(s, w, since) && t in s.threads && Runnable(s.threads[t].pc)
    ensures TookAt(StepThread(s, t, ok), w, since)
  {
    assert ThreadOk(s, t) && ThreadOk(s, TimerOf(w));
  }

  lemma {:induction false} RunTookAt(c: Config, s: State, es: seq<Event>, w: CallId, since: Millis)
    requires WellFormed(s) && TookAt(s, w, since) && IsRun(c, Timed, s, es)
    ensures TookAt(Final(c, s, es), w, since)
    decreases es
  {
    if es != [] {
      var e := es[0];
      if e.Step? {
        StepTookAt(s, e.tid, e.ok, w, since);
      }
      StepKeeps(c, s, e);
      RunTookAt(c, Next(c, s, e), es[1..], w, since);
    }
  }

  lemma DeadlineHolds(c: Config, s: State, es: seq<Event>, w: CallId, x: OtpId)
    requires c.Valid() && Sound(c, s) && Prompt(c, s) && IsRun(c, Timed, s, es)
    requires TimerOf(w) in s.threads && s.threads[TimerOf(w)].pc.Reloading? && x in s.rows
    requires s.threads[TimerOf(w)].pc.since + c.tail < s.rows[x].expiresAt
    requires Landing(Final(c, s, es), TimerOf(w), x)
    ensures BeforeExpiry(Final(c, s, es), x)
  {
    RunTookAt(c, s, es, w, s.threads[TimerOf(w)].pc.since);
    RunPrompt(c, s, es);
    RunSound(c, Timed, s, es);
    assert OwesWrite(Final(c, s, es).threads[TimerOf(w)].pc);
  }

  // ---- Reaching it -------------------------------------------------------------------

  /** All others that owe a write, write; `t` and the clock stand still. */
  lemma {:induction false} OthersWrite(c: Config, s: State, t: Tid) returns (es: seq<Event>, s': State)
    requires WellFormed(s) && t in s.threads
    ensures IsRun(c, Timed, s, es) && s' == Final(c, s, es) && Evolves(s, s')
    ensures s'.now == s.now && t in s'.threads && s'.threads[t] == s.threads[t]
    ensures forall u | u in s'.threads && u != t :: !OwesWrite(s'.threads[u].pc)
    decreases Progress.Work(s.threads)
  {
    if u :| u in s.threads && u != t && OwesWrite(s.threads[u].pc) {
      var e := Step(u, true);
      var s1 := Next(c, s, e);
      StepKeeps(c, s, e);
      NextEvolves(c, s, e);
      Progress.StepSpends(s, u, true);
      var rest;
      rest, s' := OthersWrite(c, s1, t);
      EvolvesChains(s, s1, s');
      es := [e] + rest;
      assert es[1..] == rest;
    } else {
      es, s' := [], s;
    }
  }

  /** The callback checks now, the others write, and the clock goes on to the expiry. */
  lemma MissesExpiry(c: Config, s: State, w: CallId, x: OtpId) returns (es: seq<Event>)
    requires WellFormed(s) && TimerOf(w) in s.threads && s.threads[TimerOf(w)].otp == x && s.threads[TimerOf(w)].pc.Reloading?
    requires x in s.rows && !Dead(s.rows[x], s.now)
    requires s.rows[x].expiresAt <= s.threads[TimerOf(w)].pc.since + c.tail
    ensures IsRun(c, Timed, s, es) && Landing(Final(c, s, es), TimerOf(w), x) && !BeforeExpiry(Final(c, s, es), x)
  {
    var s1;
    es, s1 := Checks(c, s, w, x);
    var es', s2 := OthersWrite(c, s1, TimerOf(w));
    RunsAppend(c, Timed, s, es, es');
    es := es + es';
    es, s2 := Do(c, s, es, s2, Tick(s.rows[x].expiresAt));
  }

  lemma Checks(c: Config, s: State, w: CallId, x: OtpId) returns (es: seq<Event>, s': State)
    requires WellFormed(s) && TimerOf(w) in s.threads && s.threads[TimerOf(w)].otp == x && s.threads[TimerOf(w)].pc.Reloading?
    requires x in s.rows && !Dead(s.rows[x], s.now)
    ensures IsRun(c, Timed, s, es) && s' == Final(c, s, es) && WellFormed(s')
    ensures s'.now == s.now && s'.rows == s.rows && Landing(s', TimerOf(w), x)
    ensures s'.threads[TimerOf(w)].pc.since == s.threads[TimerOf(w)].pc.since
  {
    var e := Step(TimerOf(w), true);
    StepKeeps(c, s, e);
    es, s' := Do(c, s, [], s, e);
    StepKeeps(c, s', e);
    es, s' := Do(c, s, es, s', e);
  }

  /** Exactly when a callback that has left the lock, with its row alive, is bound to write before
      the expiry: when its deadline comes before it. */
  lemma InTimeExactly(c: Config, s: State, es: seq<Event>, w: CallId, x: OtpId)
    requires c.Valid() && Initial(s) && IsRun(c, Timed, s, es)
    requires var s1 := Final(c, s, es);
             && TimerOf(w) in s1.threads && s1.threads[TimerOf(w)].otp == x && s1.threads[TimerOf(w)].pc.Reloading?
             && x in s1.rows && !Dead(s1.rows[x], s1.now)
    ensures var s1 := Final(c, s, es);
            AlwaysInTime(c, s1, TimerOf(w), x) <==> s1.threads[TimerOf(w)].pc.since + c.tail < s1.rows[x].expiresAt
  {
    RunSafeAndPrompt(c, s, es, x);
    var s1 := Final(c, s, es);
    if s1.threads[TimerOf(w)].pc.since + c.tail < s1.rows[x].expiresAt {
      forall es' | IsRun(c, Timed, s1, es') && Landing(Final(c, s1, es'), TimerOf(w), x)
        ensures BeforeExpiry(Final(c, s1, es'), x)
      {
        DeadlineHolds(c, s1, es', w, x);
      }
    } else {
      var es' := MissesExpiry(c, s1, w, x);
    }
  }
}
