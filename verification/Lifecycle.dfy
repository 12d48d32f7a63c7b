/**
  Window lifecycle, for every interleaving and with failing database calls: a window is open
  exactly while it is the pending entry of its OTP, has one claimant, and ends once.
 */
module Lifecycle {
  import opened Types
  import opened Protocol

  ghost predicate CallPc(pc: Pc) {
    pc.Begin? || pc.Checking? || pc.Locking? || pc.Opened? || pc.Repeated? || pc.Invalidating? || pc.Sending? || pc.Done?
  }

  ghost predicate TimerPc(pc: Pc) {
    pc.Armed? || pc.Stopped? || pc.Fired? || pc.Reloading? || pc.Rechecking? || pc.Marking? || pc.Sending? || pc.Done?
  }

  /** `who` opened a window of `otp` which has ended as `end`. */
  ghost predicate Opener(s: State, who: Claimant, otp: OtpId, end: Ending) {
    && who.call in s.windows
    && s.windows[who.call].otp == otp
    && s.windows[who.call].opener == who.device
    && s.windows[who.call].end == end
  }

  ghost predicate MailOk(mail: seq<Sent>, t: Tid, otp: OtpId) {
    && mail != []
    && forall i :: 0 <= i < |mail| ==> mail[i].sender == t && mail[i].env.otp == otp
  }

  ghost predicate CallOk(s: State, h: CallId, th: Thread) {
    && CallPc(th.pc)
    && (h in s.windows <==> th.pc.Opened?)
    && (th.pc.Invalidating? ==>
          && |th.pc.claimants| == 2
          && Opener(s, th.pc.claimants[0], th.otp, Killed(h, th.pc.since))
          && th.pc.claimants[1] == Claimant(th.device, h))
    && (th.pc.Sending? ==> MailOk(th.pc.mail, CallOf(h), th.otp))
  }

  ghost predicate TimerOk(s: State, w: CallId, th: Thread) {
    && TimerPc(th.pc)
    && w in s.windows
    && th.otp == s.windows[w].otp
    && (th.pc.Armed? ==> !s.windows[w].end.Killed?)
    && (th.pc.Stopped? ==> s.windows[w].end.Killed?)
    && (th.pc.Reloading? || th.pc.Rechecking? || th.pc.Marking? ==>
          Opener(s, th.pc.winner, th.otp, Taken(w, th.pc.since)))
    && (th.pc.Sending? ==> |th.pc.mail| == 1 && MailOk(th.pc.mail, TimerOf(w), th.otp))
  }

  ghost predicate ThreadOk(s: State, t: Tid)
    requires t in s.threads
  {
    match t
    case CallOf(h) => CallOk(s, h, s.threads[t])
    case TimerOf(w) => TimerOk(s, w, s.threads[t])
  }

  ghost predicate WindowOk(s: State, w: CallId)
    requires w in s.windows
  {
    var win := s.windows[w];
    && CallOf(w) in s.threads
    && s.threads[CallOf(w)].otp == win.otp
    && s.threads[CallOf(w)].device == win.opener
    && TimerOf(w) in s.threads
    && (win.end.StillOpen? ==>
          && (s.threads[TimerOf(w)].pc.Armed? || s.threads[TimerOf(w)].pc.Fired?)
          && win.otp in s.pending && s.pending[win.otp].window == w)
  }

  ghost predicate EntryOk(s: State, x: OtpId)
    requires x in s.pending
  {
    var w := s.pending[x].window;
    && w in s.windows
    && s.windows[w].otp == x
    && s.windows[w].end.StillOpen?
    && s.pending[x].claimants == [Claimant(s.windows[w].opener, w)]
  }

  ghost predicate WellFormed(s: State) {
    && (forall t {:trigger ThreadOk(s, t)} | t in s.threads :: ThreadOk(s, t))
    && (forall w {:trigger WindowOk(s, w)} | w in s.windows :: WindowOk(s, w))
    && (forall x {:trigger EntryOk(s, x)} | x in s.pending :: EntryOk(s, x))
  }

  lemma OpenThread(s: State, s': State, h: CallId, row: Row, liveAt: Millis, t: Tid)
    requires WellFormed(s) && CallOf(h) in s.threads && s.threads[CallOf(h)].pc.Locking?
    requires s' == OpenWindow(s, h, s.threads[CallOf(h)], row, liveAt)
    requires t in s'.threads
    ensures ThreadOk(s', t)
  {
    assert ThreadOk(s, CallOf(h));
    if t in s.threads {
      assert ThreadOk(s, t);
    }
  }

  lemma OpenKeeps(s: State, h: CallId, row: Row, liveAt: Millis)
    requires WellFormed(s) && CallOf(h) in s.threads && s.threads[CallOf(h)].pc.Locking?
    requires s.threads[CallOf(h)].otp !in s.pending
    ensures WellFormed(OpenWindow(s, h, s.threads[CallOf(h)], row, liveAt))
  {
    var s' := OpenWindow(s, h, s.threads[CallOf(h)], row, liveAt);
    assert ThreadOk(s, CallOf(h));
    forall t | t in s'.threads ensures ThreadOk(s', t) { OpenThread(s, s', h, row, liveAt, t); }
    forall w | w in s'.windows ensures WindowOk(s', w) {
      if w != h { assert WindowOk(s, w); }
    }
    forall x | x in s'.pending ensures EntryOk(s', x) {
      if x in s.pending { assert EntryOk(s, x); }
    }
  }

  lemma KillThread(s: State, s': State, h: CallId, t: Tid)
    requires WellFormed(s) && CallOf(h) in s.threads && s.threads[CallOf(h)].pc.Locking?
    requires s.threads[CallOf(h)].otp in s.pending
    requires s' == KillWindow(s, h, s.threads[CallOf(h)])
    requires t in s'.threads
    ensures ThreadOk(s', t)
  {
    assert ThreadOk(s, t) && EntryOk(s, s.threads[CallOf(h)].otp);
  }

  lemma KillKeeps(s: State, h: CallId)
    requires WellFormed(s) && CallOf(h) in s.threads && s.threads[CallOf(h)].pc.Locking?
    requires s.threads[CallOf(h)].otp in s.pending
    ensures WellFormed(KillWindow(s, h, s.threads[CallOf(h)]))
  {
    var s' := KillWindow(s, h, s.threads[CallOf(h)]);
    assert EntryOk(s, s.threads[CallOf(h)].otp);
    forall t | t in s'.threads ensures ThreadOk(s', t) { KillThread(s, s', h, t); }
    forall w | w in s'.windows ensures WindowOk(s', w) { assert WindowOk(s, w); }
    forall x | x in s'.pending ensures EntryOk(s', x) { assert EntryOk(s, x); }
  }

  lemma TakeThread(s: State, s': State, w: CallId, t: Tid)
    requires WellFormed(s) && TimerOf(w) in s.threads && s.threads[TimerOf(w)].pc.Fired?
    requires s' == ResolveLocked(s, w, s.threads[TimerOf(w)])
    requires t in s'.threads
    ensures ThreadOk(s', t)
  {
    assert ThreadOk(s, t);
    if s.threads[TimerOf(w)].otp in s.pending {
      assert EntryOk(s, s.threads[TimerOf(w)].otp);
      assert ThreadOk(s, TimerOf(w));
    }
  }

  lemma TakeKeeps(s: State, w: CallId)
    requires WellFormed(s) && TimerOf(w) in s.threads && s.threads[TimerOf(w)].pc.Fired?
    ensures WellFormed(ResolveLocked(s, w, s.threads[TimerOf(w)]))
  {
    var x := s.threads[TimerOf(w)].otp;
    var s' := ResolveLocked(s, w, s.threads[TimerOf(w)]);
    assert ThreadOk(s, TimerOf(w)) && WindowOk(s, w);
    assert x in s.pending ==> EntryOk(s, x);
    forall t | t in s'.threads ensures ThreadOk(s', t) { TakeThread(s, s', w, t); }
    forall u | u in s'.windows ensures WindowOk(s', u) { assert WindowOk(s, u); }
    forall y | y in s'.pending ensures EntryOk(s', y) { assert EntryOk(s, y); }
  }

  lemma RepeatKeeps(s: State, h: CallId)
    requires WellFormed(s) && CallOf(h) in s.threads && s.threads[CallOf(h)].pc.Locking?
    ensures WellFormed(Become(s, CallOf(h), Repeated))
  {
    var s' := Become(s, CallOf(h), Repeated);
    assert ThreadOk(s, CallOf(h));
    forall t | t in s'.threads ensures ThreadOk(s', t) { assert ThreadOk(s, t); }
    forall w | w in s'.windows ensures WindowOk(s', w) { assert WindowOk(s, w); }
    forall x | x in s'.pending ensures EntryOk(s', x) { assert EntryOk(s, x); }
  }

  predicate Local(pc: Pc) {
    Runnable(pc) && !pc.Locking? && !pc.Fired?
  }

  lemma LocalThread(s: State, t: Tid, ok: bool)
    requires t in s.threads && ThreadOk(s, t) && Local(s.threads[t].pc)
    ensures ThreadOk(LocalStep(s, t, s.threads[t], ok), t)
  {
  }

  lemma LocalKeeps(s: State, t: Tid, ok: bool)
    requires WellFormed(s) && t in s.threads && Local(s.threads[t].pc)
    ensures WellFormed(LocalStep(s, t, s.threads[t], ok))
  {
    var s' := LocalStep(s, t, s.threads[t], ok);
    assert ThreadOk(s, t);
    LocalThread(s, t, ok);
    forall u | u in s'.threads ensures ThreadOk(s', u) { assert ThreadOk(s, u); }
    forall w | w in s'.windows ensures WindowOk(s', w) { assert WindowOk(s, w); }
    forall x | x in s'.pending ensures EntryOk(s', x) { assert EntryOk(s, x); }
  }

  lemma ThreadKeeps(s: State, t: Tid, ok: bool)
    requires WellFormed(s) && t in s.threads && Runnable(s.threads[t].pc)
    ensures WellFormed(StepThread(s, t, ok))
  {
    var th := s.threads[t];
    assert ThreadOk(s, t);
    if th.pc.Locking? {
      if th.otp !in s.pending {
        OpenKeeps(s, t.call, th.pc.row, th.pc.liveAt);
      } else if HasClaimed(s.pending[th.otp].claimants, th.device) {
        RepeatKeeps(s, t.call);
      } else {
        KillKeeps(s, t.call);
      }
    } else if th.pc.Fired? {
      TakeKeeps(s, t.window);
    } else {
      LocalKeeps(s, t, ok);
    }
  }

  lemma OpenerStillThere(s: State, w: CallId)
    requires WellFormed(s)
    ensures w in s.windows ==> CallOf(w) in s.threads
  {
    if w in s.windows {
      assert WindowOk(s, w);
    }
  }

  lemma SharedKeeps(c: Config, s: State, e: Event)
    requires WellFormed(s) && Enabled(c, s, e) && !e.Step?
    ensures WellFormed(Next(c, s, e))
  {
    var s' := Next(c, s, e);
    forall u | u in s'.threads ensures ThreadOk(s', u) {
      if u in s.threads {
        assert ThreadOk(s, u);
      } else {
        OpenerStillThere(s, u.call);
      }
    }
    forall w | w in s'.windows ensures WindowOk(s', w) { assert WindowOk(s, w); }
    forall x | x in s'.pending ensures EntryOk(s', x) { assert EntryOk(s, x); }
  }

  lemma StepKeeps(c: Config, s: State, e: Event)
    requires WellFormed(s) && Enabled(c, s, e)
    ensures WellFormed(Next(c, s, e))
  {
    if e.Step? {
      ThreadKeeps(s, e.tid, e.ok);
    } else {
      SharedKeeps(c, s, e);
    }
  }
}
