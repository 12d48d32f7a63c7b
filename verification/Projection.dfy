/**
  Steps on distinct OTPs do not interfere: what a run does to one OTP is itself a run, of the
  events that concern that OTP alone.
 */
module Projection {
  import opened Types
  import opened Tables
  import opened Protocol
  import opened Lifecycle

  function MailFor(outbox: seq<Sent>, x: OtpId): seq<Sent> {
    if outbox == [] then []
    else
      var init := MailFor(outbox[..|outbox| - 1], x);
      var last := outbox[|outbox| - 1];
      if last.env.otp == x then init + [last] else init
  }

  function OnlyKey<V>(m: map<OtpId, V>, x: OtpId): map<OtpId, V> {
    map y | y in m && y == x :: m[y]
  }

  function OnlyThreads(threads: map<Tid, Thread>, x: OtpId): map<Tid, Thread> {
    map t | t in threads && threads[t].otp == x :: threads[t]
  }

  function OnlyWindows(windows: map<CallId, Window>, x: OtpId): map<CallId, Window> {
    map w | w in windows && windows[w].otp == x :: windows[w]
  }

  /** Everything in the state that belongs to `x`, and nothing else. */
  function Only(s: State, x: OtpId): State {
    State(s.now, OnlyKey(s.rows, x), OnlyKey(s.pending, x), OnlyThreads(s.threads, x), OnlyWindows(s.windows, x),
          OnlyKey(s.first, x), MailFor(s.outbox, x))
  }

  lemma KeyPut<V>(m: map<OtpId, V>, y: OtpId, v: V, x: OtpId)
    ensures OnlyKey(m[y := v], x) == if y == x then OnlyKey(m, x)[y := v] else OnlyKey(m, x)
  {
  }

  lemma KeyDrop<V>(m: map<OtpId, V>, y: OtpId, x: OtpId)
    ensures OnlyKey(m - {y}, x) == if y == x then OnlyKey(m, x) - {y} else OnlyKey(m, x)
  {
  }

  lemma ThreadPut(threads: map<Tid, Thread>, t: Tid, th: Thread, x: OtpId)
    requires t in threads ==> threads[t].otp == th.otp
    ensures OnlyThreads(threads[t := th], x)
              == if th.otp == x then OnlyThreads(threads, x)[t := th] else OnlyThreads(threads, x)
  {
  }

  lemma TimerStop(threads: map<Tid, Thread>, w: CallId, y: OtpId, x: OtpId)
    requires TimerOf(w) in threads && threads[TimerOf(w)].otp == y
    ensures OnlyThreads(StopTimer(threads, w), x)
              == if y == x then StopTimer(OnlyThreads(threads, x), w) else OnlyThreads(threads, x)
  {
    ThreadPut(threads, TimerOf(w), threads[TimerOf(w)].(pc := Stopped), x);
  }

  lemma WindowPut(windows: map<CallId, Window>, w: CallId, win: Window, x: OtpId)
    requires w in windows ==> windows[w].otp == win.otp
    ensures OnlyWindows(windows[w := win], x)
              == if win.otp == x then OnlyWindows(windows, x)[w := win] else OnlyWindows(windows, x)
  {
  }

  /** The event can touch `x`: one of its own, or the clock or the janitor. */
  predicate Concerns(s: State, e: Event, x: OtpId) {
    match e
    case Tick(_) => true
    case Sweep => true
    case Ingest(id, _, _, _) => id == x
    case Claim(_, _, otp) => otp == x
    case Fire(w) => TimerOf(w) in s.threads && s.threads[TimerOf(w)].otp == x
    case Step(t, _) => t in s.threads && s.threads[t].otp == x
  }

  function Keep(c: Config, s: State, es: seq<Event>, x: OtpId): seq<Event>
    decreases es
  {
    if es == [] || !Enabled(c, s, es[0]) then []
    else
      var rest := Keep(c, Next(c, s, es[0]), es[1..], x);
      if Concerns(s, es[0], x) then [es[0]] + rest else rest
  }

  lemma MailGrows(outbox: seq<Sent>, m: Sent, x: OtpId)
    ensures MailFor(outbox + [m], x) == if m.env.otp == x then MailFor(outbox, x) + [m] else MailFor(outbox, x)
  {
    assert (outbox + [m])[..|outbox|] == outbox;
  }

  lemma OutboxOnly(s: State, t: Tid, x: OtpId)
    requires t in s.threads && ThreadOk(s, t)
    ensures MailFor(NextOutbox(s.outbox, s.threads[t].pc), x)
              == if s.threads[t].otp == x then NextOutbox(MailFor(s.outbox, x), s.threads[t].pc) else MailFor(s.outbox, x)
  {
    if s.threads[t].pc.Sending? {
      MailGrows(s.outbox, s.threads[t].pc.mail[0], x);
    }
  }

  // ---- One step, seen from `x`: it acts on its own OTP's part of the state alone ---------

  lemma LocalOnly(s: State, t: Tid, ok: bool, x: OtpId)
    requires t in s.threads && ThreadOk(s, t)
    ensures var th := s.threads[t];
            Only(LocalStep(s, t, th, ok), x) == if th.otp == x then LocalStep(Only(s, x), t, th, ok) else Only(s, x)
  {
    var th := s.threads[t];
    OutboxOnly(s, t, x);
    ThreadPut(s.threads, t, th.(pc := NextPc(s, t, th, ok)), x);
    WriteOnly(s.rows, th, ok, x);
    if th.otp == x {
      PcOnly(s, t, ok, x);
    }
  }

  lemma WriteOnly(rows: map<OtpId, Row>, th: Thread, ok: bool, x: OtpId)
    ensures OnlyKey(NextRows(rows, th, ok), x)
              == if th.otp == x then NextRows(OnlyKey(rows, x), th, ok) else OnlyKey(rows, x)
  {
  }

  lemma PcOnly(s: State, t: Tid, ok: bool, x: OtpId)
    requires t in s.threads && s.threads[t].otp == x
    ensures NextPc(Only(s, x), t, s.threads[t], ok) == NextPc(s, t, s.threads[t], ok)
  {
  }

  lemma OpenOnly(s: State, h: CallId, x: OtpId)
    requires WellFormed(s) && CallOf(h) in s.threads && s.threads[CallOf(h)].pc.Locking?
    ensures var th := s.threads[CallOf(h)];
            Only(OpenWindow(s, h, th, th.pc.row, th.pc.liveAt), x)
              == if th.otp == x then OpenWindow(Only(s, x), h, th, th.pc.row, th.pc.liveAt) else Only(s, x)
  {
    var th := s.threads[CallOf(h)];
    assert ThreadOk(s, CallOf(h)) && (TimerOf(h) in s.threads ==> ThreadOk(s, TimerOf(h)));
    ThreadPut(s.threads, CallOf(h), th.(pc := Opened), x);
    ThreadPut(s.threads[CallOf(h) := th.(pc := Opened)], TimerOf(h), th.(pc := Armed), x);
    KeyPut(s.pending, th.otp, Entry([Claimant(th.device, h)], h), x);
    WindowPut(s.windows, h, Window(th.otp, th.device, th.pc.row, th.pc.liveAt, s.now, StillOpen), x);
    KeyPut(s.first, th.otp, h, x);
  }

  lemma KillOnly(s: State, h: CallId, x: OtpId)
    requires WellFormed(s) && CallOf(h) in s.threads && s.threads[CallOf(h)].pc.Locking?
    requires s.threads[CallOf(h)].otp in s.pending
    ensures var th := s.threads[CallOf(h)];
            Only(KillWindow(s, h, th), x) == if th.otp == x then KillWindow(Only(s, x), h, th) else Only(s, x)
  {
    var th := s.threads[CallOf(h)];
    var entry := s.pending[th.otp];
    var w := entry.window;
    assert EntryOk(s, th.otp) && WindowOk(s, w) && ThreadOk(s, TimerOf(w));
    TimerStop(s.threads, w, th.otp, x);
    ThreadPut(StopTimer(s.threads, w), CallOf(h), th.(pc := Invalidating(entry.claimants + [Claimant(th.device, h)], s.now)), x);
    KeyDrop(s.pending, th.otp, x);
    WindowPut(s.windows, w, s.windows[w].(end := Killed(h, s.now)), x);
  }

  lemma ClaimOnly(s: State, h: CallId, x: OtpId)
    requires WellFormed(s) && CallOf(h) in s.threads && s.threads[CallOf(h)].pc.Locking?
    ensures var th := s.threads[CallOf(h)];
            Only(ClaimLocked(s, h, th), x) == if th.otp == x then ClaimLocked(Only(s, x), h, th) else Only(s, x)
  {
    var th := s.threads[CallOf(h)];
    ThreadPut(s.threads, CallOf(h), th.(pc := Repeated), x);
    if th.otp in s.pending {
      KillOnly(s, h, x);
    } else {
      OpenOnly(s, h, x);
    }
  }

  lemma ResolveOnly(s: State, w: CallId, x: OtpId)
    requires WellFormed(s) && TimerOf(w) in s.threads && s.threads[TimerOf(w)].pc.Fired?
    ensures var th := s.threads[TimerOf(w)];
            Only(ResolveLocked(s, w, th), x) == if th.otp == x then ResolveLocked(Only(s, x), w, th) else Only(s, x)
  {
    var th := s.threads[TimerOf(w)];
    ThreadPut(s.threads, TimerOf(w), ResolveLocked(s, w, th).threads[TimerOf(w)], x);
    if th.otp in s.pending {
      var u := s.pending[th.otp].window;
      assert EntryOk(s, th.otp);
      KeyDrop(s.pending, th.otp, x);
      WindowPut(s.windows, u, s.windows[u].(end := Taken(w, s.now)), x);
    }
  }

  lemma StepOnly(s: State, t: Tid, ok: bool, x: OtpId)
    requires WellFormed(s) && t in s.threads && Runnable(s.threads[t].pc)
    ensures Only(StepThread(s, t, ok), x) == if s.threads[t].otp == x then StepThread(Only(s, x), t, ok) else Only(s, x)
  {
    assert ThreadOk(s, t);
    if s.threads[t].pc.Locking? {
      ClaimOnly(s, t.call, x);
    } else if s.threads[t].pc.Fired? {
      ResolveOnly(s, t.window, x);
    } else {
      LocalOnly(s, t, ok, x);
    }
  }

  lemma SharedOnly(c: Config, s: State, e: Event, x: OtpId)
    requires WellFormed(s) && Enabled(c, s, e) && !e.Step?
    ensures Concerns(s, e, x) ==> Enabled(c, Only(s, x), e) && Only(Next(c, s, e), x) == Next(c, Only(s, x), e)
    ensures !Concerns(s, e, x) ==> Only(Next(c, s, e), x) == Only(s, x)
  {
    match e
    case Fire(w) =>
      assert ThreadOk(s, TimerOf(w));
      ThreadPut(s.threads, TimerOf(w), s.threads[TimerOf(w)].(pc := Fired), x);
    case Claim(h, device, otp) => ThreadPut(s.threads, CallOf(h), Thread(device, otp, Begin), x);
    case Ingest(id, source, ciphertext, iv) => KeyPut(s.rows, id, FreshRow(c.ttl, s.now, source, ciphertext, iv), x);
    case Sweep => assert OnlyKey(SweptRows(s.rows, s.now), x) == SweptRows(OnlyKey(s.rows, x), s.now);
    case Tick(_) =>
  }

  lemma NextOnly(c: Config, s: State, e: Event, x: OtpId)
    requires WellFormed(s) && Enabled(c, s, e)
    ensures Concerns(s, e, x) ==> Enabled(c, Only(s, x), e) && Only(Next(c, s, e), x) == Next(c, Only(s, x), e)
    ensures !Concerns(s, e, x) ==> Only(Next(c, s, e), x) == Only(s, x)
  {
    if e.Step? {
      StepOnly(s, e.tid, e.ok, x);
    } else {
      SharedOnly(c, s, e, x);
    }
  }

  /** Whatever the scheduling rule, the events of a run that concern one OTP are a run of that
      rule on that OTP's part of the state, and end in that OTP's part of the final state: the
      same row, window, handlers and envelopes. */
  lemma {:induction false} NonInterference(c: Config, rule: Rule, s: State, es: seq<Event>, x: OtpId)
    requires WellFormed(s) && IsRun(c, rule, s, es)
    ensures IsRun(c, rule, Only(s, x), Keep(c, s, es, x))
    ensures Final(c, Only(s, x), Keep(c, s, es, x)) == Only(Final(c, s, es), x)
    decreases es
  {
    if es != [] {
      var e := es[0];
      StepKeeps(c, s, e);
      NonInterference(c, rule, Next(c, s, e), es[1..], x);
      NextOnly(c, s, e, x);
      if Concerns(s, e, x) {
        assert Keep(c, s, es, x)[1..] == Keep(c, Next(c, s, e), es[1..], x);
      }
    }
  }
}
