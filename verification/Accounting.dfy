/**
  Answer accounting, for every interleaving and with failing database calls: a claim which is
  not a same-device repeat gets exactly one answer, addressed to the device that made it.
 */
module Accounting {
  import opened Types
  import opened Protocol
  import opened Lifecycle

  /** The thread that has, or had, to answer call `h`; none for a repeat, and none while the
      window which the call opened is still open. */
  ghost function Responsible(s: State, h: CallId): Option<Tid>
    requires CallOf(h) in s.threads
  {
    match s.threads[CallOf(h)].pc
    case Repeated => None
    case Opened =>
      if h !in s.windows then None else
      (match s.windows[h].end
       case StillOpen => None
       case Taken(w, _) => Some(TimerOf(w))
       case Killed(k, _) => Some(CallOf(k)))
    case _ => Some(CallOf(h))
  }

  /** A thread at `pc` will still send an answer to call `h`. */
  ghost predicate Owes(t: Tid, pc: Pc, h: CallId) {
    match pc
    case Begin => t == CallOf(h)
    case Checking(_) => t == CallOf(h)
    case Locking(_, _) => t == CallOf(h)
    case Reloading(winner, _) => winner.call == h
    case Rechecking(winner, _, _) => winner.call == h
    case Marking(winner, _, _, _) => winner.call == h
    case Invalidating(claimants, _) => exists i :: 0 <= i < |claimants| && claimants[i].call == h
    case Sending(mail) => exists i :: 0 <= i < |mail| && mail[i].call == h
    case _ => false
  }

  ghost predicate Answered(s: State, h: CallId) {
    exists i :: 0 <= i < |s.outbox| && s.outbox[i].call == h
  }

  /** Addressed to the device, and about the OTP, of the call it answers. */
  ghost predicate Addressed(s: State, m: Sent) {
    && CallOf(m.call) in s.threads
    && m.env.to == s.threads[CallOf(m.call)].device
    && m.env.otp == s.threads[CallOf(m.call)].otp
  }

  ghost predicate Debt(s: State, t: Tid, h: CallId)
    requires t in s.threads
  {
    Owes(t, s.threads[t].pc, h) ==> CallOf(h) in s.threads && Responsible(s, h) == Some(t)
  }

  ghost predicate Covered(s: State, h: CallId)
    requires CallOf(h) in s.threads
  {
    Responsible(s, h).Some? ==>
      && Responsible(s, h).value in s.threads
      && (Owes(Responsible(s, h).value, s.threads[Responsible(s, h).value].pc, h) || Answered(s, h))
  }

  ghost predicate Paid(s: State, m: Sent) {
    && Addressed(s, m)
    && Responsible(s, m.call) == Some(m.sender)
    && m.sender in s.threads
    && !Owes(m.sender, s.threads[m.sender].pc, m.call)
  }

  ghost predicate MailReady(s: State, mail: seq<Sent>) {
    && (forall i :: 0 <= i < |mail| ==> Addressed(s, mail[i]))
    && (forall i, j :: 0 <= i < j < |mail| ==> mail[i].call != mail[j].call)
  }

  ghost predicate Ready(s: State, t: Tid)
    requires t in s.threads
  {
    s.threads[t].pc.Sending? ==> MailReady(s, s.threads[t].pc.mail)
  }

  ghost predicate Accounted(s: State) {
    && (forall t, h {:trigger Debt(s, t, h)} | t in s.threads :: Debt(s, t, h))
    && (forall h {:trigger Covered(s, h)} | CallOf(h) in s.threads :: Covered(s, h))
    && (forall t {:trigger Ready(s, t)} | t in s.threads :: Ready(s, t))
    && (forall i {:trigger s.outbox[i]} | 0 <= i < |s.outbox| :: Paid(s, s.outbox[i]))
    && (forall i, j | 0 <= i < j < |s.outbox| :: s.outbox[i].call != s.outbox[j].call)
  }

  // ---- Steps outside the lock ---------------------------------------------------

  lemma OwesHead(t: Tid, pc: Pc, h: CallId)
    ensures pc.Sending? && pc.mail != [] && pc.mail[0].call == h ==> Owes(t, pc, h)
  {
  }

  /** Such a step keeps the thread's debts, less the one it pays. */
  lemma LocalOwes(s: State, t: Tid, ok: bool, h: CallId)
    requires WellFormed(s) && t in s.threads && Local(s.threads[t].pc) && Ready(s, t)
    ensures var th := s.threads[t];
            Owes(t, NextPc(s, t, th, ok), h) <==>
              Owes(t, th.pc, h) && !(th.pc.Sending? && th.pc.mail[0].call == h)
  {
    assert ThreadOk(s, t);
    var th := s.threads[t];
    var pc' := NextPc(s, t, th, ok);
    match th.pc
    case Invalidating(claimants, _) =>
      if i :| 0 <= i < |claimants| && claimants[i].call == h {
        assert pc'.mail[i].call == h;
      }
    case Sending(mail) =>
      if i :| 0 < i < |mail| && mail[i].call == h {
        assert mail[1..][i - 1].call == h;
      }
    case _ =>
      OwesHead(t, pc', h);
  }

  lemma LocalResponsible(s: State, s': State, t: Tid, ok: bool, h: CallId)
    requires WellFormed(s) && t in s.threads && Local(s.threads[t].pc)
    requires s' == LocalStep(s, t, s.threads[t], ok)
    requires CallOf(h) in s.threads
    ensures Responsible(s', h) == Responsible(s, h)
  {
    assert ThreadOk(s, t);
  }

  lemma LocalDebt(s: State, s': State, t: Tid, ok: bool, u: Tid, h: CallId)
    requires WellFormed(s) && Accounted(s) && t in s.threads && Local(s.threads[t].pc)
    requires s' == LocalStep(s, t, s.threads[t], ok)
    requires u in s'.threads
    ensures Debt(s', u, h)
  {
    assert Debt(s, u, h) && Ready(s, t);
    LocalOwes(s, t, ok, h);
    if CallOf(h) in s.threads {
      LocalResponsible(s, s', t, ok, h);
    }
  }

  lemma LocalCovered(s: State, s': State, t: Tid, ok: bool, h: CallId)
    requires WellFormed(s) && Accounted(s) && t in s.threads && Local(s.threads[t].pc)
    requires s' == LocalStep(s, t, s.threads[t], ok)
    requires CallOf(h) in s.threads
    ensures Covered(s', h)
  {
    assert Covered(s, h) && Ready(s, t) && ThreadOk(s, t);
    LocalOwes(s, t, ok, h);
    LocalResponsible(s, s', t, ok, h);
    if Answered(s, h) {
      var i :| 0 <= i < |s.outbox| && s.outbox[i].call == h;
      assert s'.outbox[i].call == h;
    } else if s.threads[t].pc.Sending? && s.threads[t].pc.mail[0].call == h {
      assert s'.outbox[|s.outbox|].call == h;
    }
  }

  lemma NoticesReady(s: State, s': State, t: Tid, ok: bool)
    requires WellFormed(s) && t in s.threads && s.threads[t].pc.Invalidating?
    requires s' == LocalStep(s, t, s.threads[t], ok)
    ensures Ready(s', t)
  {
    assert ThreadOk(s, t) && WindowOk(s, s.threads[t].pc.claimants[0].call);
  }

  lemma LocalReady(s: State, s': State, t: Tid, ok: bool)
    requires WellFormed(s) && Accounted(s) && t in s.threads && Local(s.threads[t].pc)
    requires s' == LocalStep(s, t, s.threads[t], ok)
    ensures Ready(s', t)
  {
    if s.threads[t].pc.Invalidating? {
      NoticesReady(s, s', t, ok);
    } else if s.threads[t].pc.Reloading? || s.threads[t].pc.Rechecking? || s.threads[t].pc.Marking? {
      WinnerReady(s, s', t, ok);
    } else {
      assert ThreadOk(s, t) && Ready(s, t);
    }
  }

  lemma WinnerReady(s: State, s': State, t: Tid, ok: bool)
    requires WellFormed(s) && t in s.threads
    requires s.threads[t].pc.Reloading? || s.threads[t].pc.Rechecking? || s.threads[t].pc.Marking?
    requires s' == LocalStep(s, t, s.threads[t], ok)
    ensures Ready(s', t)
  {
    assert ThreadOk(s, t) && WindowOk(s, s.threads[t].pc.winner.call);
  }

  lemma LocalPaid(s: State, s': State, t: Tid, ok: bool, i: nat)
    requires WellFormed(s) && Accounted(s) && t in s.threads && Local(s.threads[t].pc)
    requires s' == LocalStep(s, t, s.threads[t], ok)
    requires i < |s'.outbox|
    ensures Paid(s', s'.outbox[i])
    ensures i == |s.outbox| ==> forall j | 0 <= j < i :: s'.outbox[j].call != s'.outbox[i].call
  {
    var m := s'.outbox[i];
    assert ThreadOk(s, t) && Ready(s, t);
    assert Debt(s, t, m.call);
    LocalOwes(s, t, ok, m.call);
    if i == |s.outbox| {
      assert s.threads[t].pc.mail[0] == m;
      assert Addressed(s, m) && Owes(t, s.threads[t].pc, m.call);
      forall j | 0 <= j < i ensures s'.outbox[j].call != m.call { assert Paid(s, s.outbox[j]); }
    } else {
      assert Paid(s, s.outbox[i]);
    }
    LocalResponsible(s, s', t, ok, m.call);
  }

  lemma LocalAccounted(s: State, t: Tid, ok: bool)
    requires WellFormed(s) && Accounted(s) && t in s.threads && Local(s.threads[t].pc)
    ensures Accounted(LocalStep(s, t, s.threads[t], ok))
  {
    var s' := LocalStep(s, t, s.threads[t], ok);
    forall u, h | u in s'.threads ensures Debt(s', u, h) { LocalDebt(s, s', t, ok, u, h); }
    forall h | CallOf(h) in s'.threads ensures Covered(s', h) { LocalCovered(s, s', t, ok, h); }
    forall u | u in s'.threads ensures Ready(s', u) {
      if u == t {
        LocalReady(s, s', t, ok);
      } else {
        assert Ready(s, u);
      }
    }
    forall i | 0 <= i < |s'.outbox| ensures Paid(s', s'.outbox[i]) { LocalPaid(s, s', t, ok, i); }
    if |s'.outbox| > |s.outbox| {
      LocalPaid(s, s', t, ok, |s.outbox|);
    }
  }

  // ---- The locked sections ---------------------------------------------------------

  lemma OpenAccounted(s: State, h: CallId)
    requires WellFormed(s) && Accounted(s) && CallOf(h) in s.threads && s.threads[CallOf(h)].pc.Locking?
    requires s.threads[CallOf(h)].otp !in s.pending
    ensures Accounted(ClaimLocked(s, h, s.threads[CallOf(h)]))
  {
    var s' := ClaimLocked(s, h, s.threads[CallOf(h)]);
    assert ThreadOk(s, CallOf(h)) && (TimerOf(h) in s.threads ==> ThreadOk(s, TimerOf(h)));
    assert Debt(s, CallOf(h), h);
    forall k | CallOf(k) in s.threads && k != h ensures Responsible(s', k) == Responsible(s, k) {
      assert ThreadOk(s, CallOf(k));
    }
    forall u, k | u in s'.threads ensures Debt(s', u, k) {
      if u in s.threads { assert Debt(s, u, k); }
    }
    forall k | CallOf(k) in s'.threads ensures Covered(s', k) { assert Covered(s, k); }
    forall u | u in s'.threads ensures Ready(s', u) {
      if u in s.threads { assert Ready(s, u); }
    }
    forall i | 0 <= i < |s'.outbox| ensures Paid(s', s'.outbox[i]) { assert Paid(s, s.outbox[i]); }
  }

  lemma RepeatAccounted(s: State, h: CallId)
    requires WellFormed(s) && Accounted(s) && CallOf(h) in s.threads && s.threads[CallOf(h)].pc.Locking?
    ensures Accounted(Become(s, CallOf(h), Repeated))
  {
    var s' := Become(s, CallOf(h), Repeated);
    assert ThreadOk(s, CallOf(h));
    assert Debt(s, CallOf(h), h);
    forall u, k | u in s'.threads ensures Debt(s', u, k) { assert Debt(s, u, k); }
    forall k | CallOf(k) in s'.threads ensures Covered(s', k) { assert Covered(s, k); }
    forall u | u in s'.threads ensures Ready(s', u) { assert Ready(s, u); }
    forall i | 0 <= i < |s'.outbox| ensures Paid(s', s'.outbox[i]) { assert Paid(s, s.outbox[i]); }
  }

  /** The second claimant takes over the opener's answer, and owes its own. */
  lemma KillShifts(s: State, s': State, h: CallId)
    requires WellFormed(s) && CallOf(h) in s.threads && s.threads[CallOf(h)].pc.Locking?
    requires s.threads[CallOf(h)].otp in s.pending && s' == KillWindow(s, h, s.threads[CallOf(h)])
    ensures var w := s.pending[s.threads[CallOf(h)].otp].window;
            && w != h && CallOf(w) in s.threads
            && Responsible(s, w) == None && Responsible(s', w) == Some(CallOf(h))
            && Responsible(s, h) == Responsible(s', h) == Some(CallOf(h))
            && (forall k | CallOf(k) in s.threads && k != w :: Responsible(s', k) == Responsible(s, k))
            && (forall k :: Owes(CallOf(h), s'.threads[CallOf(h)].pc, k) <==> k == w || k == h)
  {
    var th := s.threads[CallOf(h)];
    var w := s.pending[th.otp].window;
    assert ThreadOk(s, CallOf(h)) && EntryOk(s, th.otp) && WindowOk(s, w) && ThreadOk(s, CallOf(w));
    var claimants := s'.threads[CallOf(h)].pc.claimants;
    assert claimants == [Claimant(s.windows[w].opener, w), Claimant(th.device, h)];
    assert claimants[0].call == w && claimants[1].call == h;
  }

  lemma KillDebt(s: State, s': State, h: CallId, u: Tid, k: CallId)
    requires WellFormed(s) && Accounted(s) && CallOf(h) in s.threads && s.threads[CallOf(h)].pc.Locking?
    requires s.threads[CallOf(h)].otp in s.pending && s' == KillWindow(s, h, s.threads[CallOf(h)])
    requires u in s'.threads
    ensures Debt(s', u, k)
  {
    KillShifts(s, s', h);
    assert Debt(s, u, k);
  }

  lemma KillCovered(s: State, s': State, h: CallId, k: CallId)
    requires WellFormed(s) && Accounted(s) && CallOf(h) in s.threads && s.threads[CallOf(h)].pc.Locking?
    requires s.threads[CallOf(h)].otp in s.pending && s' == KillWindow(s, h, s.threads[CallOf(h)])
    requires CallOf(k) in s'.threads
    ensures Covered(s', k)
  {
    KillShifts(s, s', h);
    assert Covered(s, k);
  }

  lemma KillPaid(s: State, s': State, h: CallId, i: nat)
    requires WellFormed(s) && Accounted(s) && CallOf(h) in s.threads && s.threads[CallOf(h)].pc.Locking?
    requires s.threads[CallOf(h)].otp in s.pending && s' == KillWindow(s, h, s.threads[CallOf(h)])
    requires i < |s'.outbox|
    ensures Paid(s', s'.outbox[i])
  {
    KillShifts(s, s', h);
    assert Paid(s, s.outbox[i]);
  }

  lemma KillAccounted(s: State, h: CallId)
    requires WellFormed(s) && Accounted(s) && CallOf(h) in s.threads && s.threads[CallOf(h)].pc.Locking?
    requires s.threads[CallOf(h)].otp in s.pending
    ensures Accounted(KillWindow(s, h, s.threads[CallOf(h)]))
  {
    var s' := KillWindow(s, h, s.threads[CallOf(h)]);
    forall u, k | u in s'.threads ensures Debt(s', u, k) { KillDebt(s, s', h, u, k); }
    forall k | CallOf(k) in s'.threads ensures Covered(s', k) { KillCovered(s, s', h, k); }
    forall u | u in s'.threads ensures Ready(s', u) { assert Ready(s, u); }
    forall i | 0 <= i < |s'.outbox| ensures Paid(s', s'.outbox[i]) { KillPaid(s, s', h, i); }
  }

  lemma LateAccounted(s: State, w: CallId)
    requires WellFormed(s) && Accounted(s) && TimerOf(w) in s.threads && s.threads[TimerOf(w)].pc.Fired?
    ensures Accounted(Become(s, TimerOf(w), Done))
  {
    var s' := Become(s, TimerOf(w), Done);
    forall u, k | u in s'.threads ensures Debt(s', u, k) { assert Debt(s, u, k); }
    forall k | CallOf(k) in s'.threads ensures Covered(s', k) { assert Covered(s, k); }
    forall u | u in s'.threads ensures Ready(s', u) { assert Ready(s, u); }
    forall i | 0 <= i < |s'.outbox| ensures Paid(s', s'.outbox[i]) { assert Paid(s, s.outbox[i]); }
  }

  lemma TakeAccounted(s: State, w: CallId)
    requires WellFormed(s) && Accounted(s) && TimerOf(w) in s.threads && s.threads[TimerOf(w)].pc.Fired?
    requires s.threads[TimerOf(w)].otp in s.pending
    ensures Accounted(ResolveLocked(s, w, s.threads[TimerOf(w)]))
  {
    var x := s.threads[TimerOf(w)].otp;
    var s' := ResolveLocked(s, w, s.threads[TimerOf(w)]);
    var u := s.pending[x].window;
    assert EntryOk(s, x) && WindowOk(s, u) && ThreadOk(s, CallOf(u));
    assert s'.threads[TimerOf(w)].pc == Reloading(Claimant(s.windows[u].opener, u), s.now);
    assert Responsible(s, u) == None && Responsible(s', u) == Some(TimerOf(w));
    forall u, k | u in s'.threads ensures Debt(s', u, k) { assert Debt(s, u, k); }
    forall k | CallOf(k) in s'.threads ensures Covered(s', k) { assert Covered(s, k); }
    forall u | u in s'.threads ensures Ready(s', u) { assert Ready(s, u); }
    forall i | 0 <= i < |s'.outbox| ensures Paid(s', s'.outbox[i]) { assert Paid(s, s.outbox[i]); }
  }

  lemma StartAccounted(c: Config, s: State, e: Event)
    requires WellFormed(s) && Accounted(s) && Enabled(c, s, e) && (e.Claim? || e.Fire?)
    ensures Accounted(Next(c, s, e))
  {
    var s' := Next(c, s, e);
    forall u, k | u in s'.threads ensures Debt(s', u, k) {
      if u in s.threads { assert Debt(s, u, k); }
    }
    forall k | CallOf(k) in s'.threads ensures Covered(s', k) {
      if CallOf(k) in s.threads { assert Covered(s, k); }
    }
    forall u | u in s'.threads ensures Ready(s', u) {
      if u in s.threads { assert Ready(s, u); }
    }
    forall i | 0 <= i < |s'.outbox| ensures Paid(s', s'.outbox[i]) { assert Paid(s, s.outbox[i]); }
  }

  /** The clock and the table play no part. */
  lemma TableAccounted(s: State, s': State)
    requires Accounted(s) && s' == s.(now := s'.now, rows := s'.rows)
    ensures Accounted(s')
  {
    forall u, k | u in s'.threads ensures Debt(s', u, k) { assert Debt(s, u, k); }
    forall k | CallOf(k) in s'.threads ensures Covered(s', k) { assert Covered(s, k); }
    forall u | u in s'.threads ensures Ready(s', u) { assert Ready(s, u); }
    forall i | 0 <= i < |s'.outbox| ensures Paid(s', s'.outbox[i]) { assert Paid(s, s.outbox[i]); }
  }

  lemma NextAccounted(c: Config, s: State, e: Event)
    requires WellFormed(s) && Accounted(s) && Enabled(c, s, e)
    ensures Accounted(Next(c, s, e))
  {
    if !e.Step? {
      if e.Claim? || e.Fire? {
        StartAccounted(c, s, e);
      } else {
        TableAccounted(s, Next(c, s, e));
      }
      return;
    }
    var th := s.threads[e.tid];
    assert ThreadOk(s, e.tid);
    if th.pc.Fired? {
      if th.otp in s.pending {
        TakeAccounted(s, e.tid.window);
      } else {
        LateAccounted(s, e.tid.window);
      }
    } else if !th.pc.Locking? {
      LocalAccounted(s, e.tid, e.ok);
    } else if th.otp !in s.pending {
      OpenAccounted(s, e.tid.call);
    } else if HasClaimed(s.pending[th.otp].claimants, th.device) {
      RepeatAccounted(s, e.tid.call);
    } else {
      KillAccounted(s, e.tid.call);
    }
  }

  lemma {:induction false} RunAccounted(c: Config, rule: Rule, s: State, es: seq<Event>)
    requires WellFormed(s) && Accounted(s) && IsRun(c, rule, s, es)
    ensures WellFormed(Final(c, s, es)) && Accounted(Final(c, s, es))
    decreases es
  {
    if es != [] {
      StepKeeps(c, s, es[0]);
      NextAccounted(c, s, es[0]);
      RunAccounted(c, rule, Next(c, s, es[0]), es[1..]);
    }
  }

  // ---- Per call ------------------------------------------------------------------------

  ghost predicate Windowed(s: State, h: CallId) {
    h in s.windows && s.windows[h].end.StillOpen?
  }

  /** Some in-flight handler will still answer call `h`. */
  ghost predicate Owed(s: State, h: CallId) {
    exists t :: t in s.threads && Owes(t, s.threads[t].pc, h)
  }

  ghost function Count(outbox: seq<Sent>, h: CallId): nat {
    if outbox == [] then 0 else (if outbox[0].call == h then 1 else 0) + Count(outbox[1..], h)
  }

  lemma {:induction false} CountDistinct(outbox: seq<Sent>, h: CallId)
    requires forall i, j | 0 <= i < j < |outbox| :: outbox[i].call != outbox[j].call
    ensures Count(outbox, h) == if exists i :: 0 <= i < |outbox| && outbox[i].call == h then 1 else 0
  {
    if outbox != [] {
      var rest := outbox[1..];
      CountDistinct(rest, h);
      assert forall i | 0 < i < |outbox| :: outbox[i] == rest[i - 1];
      if i :| 0 <= i < |rest| && rest[i].call == h {
        assert outbox[i + 1].call == h;
      }
      if outbox[0].call == h {
        assert forall i | 0 <= i < |rest| :: rest[i].call != outbox[0].call;
      }
    }
  }

  ghost function One(b: bool): nat {
    if b then 1 else 0
  }

  lemma CallBalance(s: State, h: CallId)
    requires WellFormed(s) && Accounted(s) && CallOf(h) in s.threads
    ensures One(Answered(s, h)) + One(Windowed(s, h)) + One(Owed(s, h))
              == One(!s.threads[CallOf(h)].pc.Repeated?)
  {
    assert Covered(s, h) && ThreadOk(s, CallOf(h));
    if Owed(s, h) {
      var t :| t in s.threads && Owes(t, s.threads[t].pc, h);
      assert Debt(s, t, h);
    }
    if Answered(s, h) {
      var i :| 0 <= i < |s.outbox| && s.outbox[i].call == h;
      assert Paid(s, s.outbox[i]);
    }
  }

  /** In every run: the answers sent to a call, plus one while its window is open, plus one while
      a handler owes it an answer, make one; and make none for a same-device repeat. */
  lemma ExactlyOneAnswer(c: Config, s: State, es: seq<Event>, h: CallId)
    requires Initial(s) && IsRun(c, Free, s, es)
    requires CallOf(h) in Final(c, s, es).threads
    ensures var s' := Final(c, s, es);
            && Count(s'.outbox, h) + One(Windowed(s', h)) + One(Owed(s', h))
                 == One(!s'.threads[CallOf(h)].pc.Repeated?)
            && forall m | m in s'.outbox && m.call == h ::
                 m.env.to == s'.threads[CallOf(h)].device && m.env.otp == s'.threads[CallOf(h)].otp
  {
    RunAccounted(c, Free, s, es);
    var s' := Final(c, s, es);
    CallBalance(s', h);
    CountDistinct(s'.outbox, h);
    forall m | m in s'.outbox ensures Paid(s', m) {
      var i :| 0 <= i < |s'.outbox| && s'.outbox[i] == m;
    }
  }

  // ---- Per device and OTP -----------------------------------------------------------------

  ghost predicate By(s: State, h: Tid, d: DeviceId, x: OtpId) {
    h in s.threads && h.CallOf? && s.threads[h].device == d && s.threads[h].otp == x
  }

  ghost function CallsBy(s: State, d: DeviceId, x: OtpId): set<Tid> {
    set t | t in s.threads && By(s, t, d, x) && !s.threads[t].pc.Repeated?
  }

  ghost function WindowedBy(s: State, d: DeviceId, x: OtpId): set<Tid> {
    set t | t in s.threads && By(s, t, d, x) && Windowed(s, t.call)
  }

  ghost function OwedTo(s: State, d: DeviceId, x: OtpId): set<Tid> {
    set t | t in s.threads && By(s, t, d, x) && Owed(s, t.call)
  }

  ghost function AnsweredTo(s: State, d: DeviceId, x: OtpId): set<Tid> {
    set t | t in s.threads && By(s, t, d, x) && Answered(s, t.call)
  }

  function LettersTo(outbox: seq<Sent>, d: DeviceId, x: OtpId): seq<Sent> {
    if outbox == [] then []
    else if outbox[0].env.to == d && outbox[0].env.otp == x then [outbox[0]] + LettersTo(outbox[1..], d, x)
    else LettersTo(outbox[1..], d, x)
  }

  ghost function Tags(mail: seq<Sent>): set<Tid> {
    set m | m in mail :: CallOf(m.call)
  }

  lemma {:induction false} LettersTags(outbox: seq<Sent>, d: DeviceId, x: OtpId)
    requires forall i, j | 0 <= i < j < |outbox| :: outbox[i].call != outbox[j].call
    ensures |Tags(LettersTo(outbox, d, x))| == |LettersTo(outbox, d, x)|
    ensures forall m :: m in LettersTo(outbox, d, x) <==> m in outbox && m.env.to == d && m.env.otp == x
  {
    if outbox != [] {
      var rest := LettersTo(outbox[1..], d, x);
      LettersTags(outbox[1..], d, x);
      assert forall i | 0 < i < |outbox| :: outbox[i] == outbox[1..][i - 1];
      if outbox[0].env.to == d && outbox[0].env.otp == x {
        assert Tags([outbox[0]] + rest) == {CallOf(outbox[0].call)} + Tags(rest);
        assert CallOf(outbox[0].call) !in Tags(rest);
      }
    }
  }

  lemma Disjoint3(a: set<Tid>, b: set<Tid>, d: set<Tid>)
    requires a !! b && a !! d && b !! d
    ensures |a + b + d| == |a| + |b| + |d|
  {
  }

  lemma InOneOf(s: State, t: Tid, d: DeviceId, x: OtpId)
    requires WellFormed(s) && Accounted(s)
    ensures t in CallsBy(s, d, x) <==> t in AnsweredTo(s, d, x) || t in WindowedBy(s, d, x) || t in OwedTo(s, d, x)
    ensures !(t in AnsweredTo(s, d, x) && t in WindowedBy(s, d, x))
    ensures !(t in AnsweredTo(s, d, x) && t in OwedTo(s, d, x))
    ensures !(t in WindowedBy(s, d, x) && t in OwedTo(s, d, x))
  {
    if By(s, t, d, x) {
      CallBalance(s, t.call);
    }
  }

  lemma Partition(s: State, d: DeviceId, x: OtpId)
    requires WellFormed(s) && Accounted(s)
    ensures CallsBy(s, d, x) == AnsweredTo(s, d, x) + WindowedBy(s, d, x) + OwedTo(s, d, x)
    ensures AnsweredTo(s, d, x) !! WindowedBy(s, d, x)
    ensures AnsweredTo(s, d, x) !! OwedTo(s, d, x)
    ensures WindowedBy(s, d, x) !! OwedTo(s, d, x)
  {
    forall t { InOneOf(s, t, d, x); }
  }

  lemma TagsAnswered(s: State, d: DeviceId, x: OtpId)
    requires Accounted(s)
    requires forall m :: m in LettersTo(s.outbox, d, x) <==> m in s.outbox && m.env.to == d && m.env.otp == x
    ensures Tags(LettersTo(s.outbox, d, x)) == AnsweredTo(s, d, x)
  {
    forall t | t in AnsweredTo(s, d, x) ensures t in Tags(LettersTo(s.outbox, d, x)) {
      var i :| 0 <= i < |s.outbox| && s.outbox[i].call == t.call;
      assert Paid(s, s.outbox[i]) && s.outbox[i] in LettersTo(s.outbox, d, x);
    }
    forall t | t in Tags(LettersTo(s.outbox, d, x)) ensures t in AnsweredTo(s, d, x) {
      var m :| m in LettersTo(s.outbox, d, x) && t == CallOf(m.call);
      var i :| 0 <= i < |s.outbox| && s.outbox[i] == m;
      assert Paid(s, s.outbox[i]);
    }
  }

  /** In every run, for each device and OTP: envelopes sent, plus windows held open, plus answers
      still owed, make the claims that were not same-device repeats. */
  lemma AnswersBalance(c: Config, s: State, es: seq<Event>, d: DeviceId, x: OtpId)
    requires Initial(s) && IsRun(c, Free, s, es)
    ensures var s' := Final(c, s, es);
            |LettersTo(s'.outbox, d, x)| + |WindowedBy(s', d, x)| + |OwedTo(s', d, x)| == |CallsBy(s', d, x)|
  {
    RunAccounted(c, Free, s, es);
    var s' := Final(c, s, es);
    Partition(s', d, x);
    Disjoint3(AnsweredTo(s', d, x), WindowedBy(s', d, x), OwedTo(s', d, x));
    LettersTags(s'.outbox, d, x);
    TagsAnswered(s', d, x);
  }
}
