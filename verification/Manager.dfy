/**
  The claim coordinator as it is written: a pending map and timers updated in place, over the
  database.  Each method is proved against the effect of its step on the coordinator's state.
 */
module Claims {
  import opened Types
  import opened Serial
  import opened Databases

  /** The row cannot be read again: the call fails, or the row is gone. */
  predicate ReloadFails(m: Mem, otpId: OtpId) {
    Faulty(m.faults) || otpId !in m.rows
  }

  /** The row is read, pending and unexpired, and the call that marks it fails. */
  predicate MarkFails(m: Mem, otpId: OtpId) {
    && !Faulty(m.faults) && otpId in m.rows
    && m.rows[otpId].status == Pending && m.now < m.rows[otpId].expiresAt
    && Faulty(Rest(m.faults))
  }

  class Manager {
    const db: Database
    const window: int
    const ttl: int
    var now: Millis
    var pending: map<OtpId, ClaimState>
    var timers: map<nat, Timer>
    var nextCall: nat
    var outbox: seq<Envelope>

    function Memory(): Mem
      reads this, db
    {
      Mem(now, db.otps, db.faults, pending, timers, outbox)
    }

    /** Since `m` nothing has changed but that one envelope was sent, and the foretold faults used up. */
    ghost predicate Answers(m: Mem, to: DeviceId, otpId: OtpId, body: Body)
      reads this, db
    {
      && outbox == m.outbox + [Envelope(to, otpId, body)]
      && pending == m.pending && timers == m.timers && db.otps == m.rows && now == m.now
    }

    /** Calls are numbered in order, and a timer bears the number of the call that armed it. */
    ghost predicate Valid()
      reads this
    {
      forall t | t in timers :: t < nextCall
    }

    constructor (db: Database, window: int, ttl: int, now: Millis)
      ensures Valid() && this.db == db && this.window == window && this.ttl == ttl
      ensures Memory() == Mem(now, db.otps, db.faults, map[], map[], [])
    {
      this.db, this.window, this.ttl, this.now := db, window, ttl, now;
      pending, timers, nextCall, outbox := map[], map[], 0, [];
    }

    /** The clock, which never goes backwards. */
    method Advance(to: Millis)
      requires Valid() && now <= to
      modifies this`now
      ensures Valid() && Memory() == old(Memory()).(now := to)
    {
      now := to;
    }

    /** `id` is the fresh random id of the new OTP. */
    method Ingest(id: OtpId, sourceId: DeviceId, ciphertext: string, iv: string) returns (r: Result<OtpId>)
      requires Valid()
      modifies db`otps, db`faults
      ensures Valid() && Memory() == IngestEffect(old(Memory()), ttl, id, sourceId, ciphertext, iv)
      ensures r == if Faulty(old(db.faults)) then Err(Unavailable) else if id in old(db.otps) then Err(Conflict) else Ok(id)
    {
      var row := Row(ciphertext, iv, sourceId, now, now + ttl, None, Pending);
      var stored := db.InsertOtp(id, row);
      if stored.Err? { return Err(stored.error); }
      r := Ok(id);
    }

    method SendToDevice(deviceId: DeviceId, otpId: OtpId, body: Body)
      modifies this`outbox
      ensures outbox == old(outbox) + [Envelope(deviceId, otpId, body)]
    {
      outbox := outbox + [Envelope(deviceId, otpId, body)];
    }

    method Claim(claimantId: DeviceId, otpId: OtpId)
      requires Valid()
      modifies this`pending, this`timers, this`nextCall, this`outbox, db`otps, db`faults
      ensures Valid() && Memory() == ClaimEffect(old(Memory()), old(nextCall), claimantId, otpId)
      ensures nextCall == old(nextCall) + 1
      ensures Faulty(old(db.faults)) ==> Answers(old(Memory()), claimantId, otpId, Rejection(InternalError))
      ensures !Faulty(old(db.faults)) && otpId !in old(db.otps) ==>
                Answers(old(Memory()), claimantId, otpId, Rejection(OtpNotFound))
    {
      var t := nextCall;
      nextCall := nextCall + 1;
      var o := db.GetOtp(otpId);
      if o.Err? {
        SendToDevice(claimantId, otpId, Rejection(if o.error == NotFound then OtpNotFound else InternalError));
        return;
      }
      var row := o.value;
      if row.status == Expired || (row.status == Pending && row.expiresAt <= now) {
        SendToDevice(claimantId, otpId, Rejection(OtpExpired));
        return;
      }
      match row.status {
        case Claimed =>
          SendToDevice(claimantId, otpId, Rejection(AlreadyClaimed));
          return;
        case Invalidated =>
          SendToDevice(claimantId, otpId, InvalidatedNotice);
          return;
        case _ =>
      }
      if otpId !in pending {
        timers := timers[t := Timer(otpId, now, Ticking)];
        pending := pending[otpId := ClaimState([claimantId], t)];
        return;
      }
      var st := pending[otpId];
      for i := 0 to |st.claimants|
        invariant claimantId !in st.claimants[..i]
        invariant Memory() == old(Memory()).(faults := Rest(old(db.faults)))
      {
        if st.claimants[i] == claimantId { return; }
      }
      if st.timer in timers && timers[st.timer].phase == Ticking {
        timers := timers[st.timer := timers[st.timer].(phase := Stopped)];
      }
      pending := pending - {otpId};
      Invalidate(otpId, st.claimants + [claimantId]);
    }

    method Invalidate(otpId: OtpId, claimants: seq<DeviceId>)
      requires Valid()
      modifies this`outbox, db`otps, db`faults
      ensures Valid() && Memory() == InvalidateEffect(old(Memory()), otpId, claimants)
      ensures Faulty(old(db.faults)) ==> db.otps == old(db.otps)
      ensures |outbox| == |old(outbox)| + |claimants| && old(outbox) <= outbox
      ensures forall i :: 0 <= i < |claimants| ==>
                outbox[|old(outbox)| + i] == Envelope(claimants[i], otpId, InvalidatedNotice)
    {
      var _ := db.SetOtpStatus(otpId, Invalidated, None);
      ghost var marked := Memory();
      for i := 0 to |claimants|
        invariant Memory() == marked.(outbox := old(outbox) + NoticesTo(claimants, otpId)[..i])
      {
        SendToDevice(claimants[i], otpId, InvalidatedNotice);
      }
      assert NoticesTo(claimants, otpId)[..|claimants|] == NoticesTo(claimants, otpId);
    }

    method Resolve(otpId: OtpId)
      requires Valid()
      modifies this`pending, this`outbox, db`otps, db`faults
      ensures Valid() && Memory() == ResolveEffect(old(Memory()), otpId)
      ensures otpId in old(pending) && |old(pending)[otpId].claimants| == 1
              && (ReloadFails(old(Memory()), otpId) || MarkFails(old(Memory()), otpId)) ==>
                && Answers(old(Memory()).(pending := old(pending) - {otpId}), old(pending)[otpId].claimants[0], otpId,
                           Rejection(InternalError))
    {
      if otpId !in pending { return; }
      var claimants := pending[otpId].claimants;
      pending := pending - {otpId};
      if |claimants| != 1 {
        Invalidate(otpId, claimants);
        return;
      }
      var winner := claimants[0];
      var o := db.GetOtp(otpId);
      if o.Err? {
        SendToDevice(winner, otpId, Rejection(InternalError));
        return;
      }
      if o.value.status != Pending || o.value.expiresAt <= now {
        SendToDevice(winner, otpId, Rejection(OtpExpired));
        return;
      }
      var marked := db.SetOtpStatus(otpId, Claimed, Some(winner));
      if marked.Err? {
        SendToDevice(winner, otpId, Rejection(InternalError));
        return;
      }
      SendToDevice(winner, otpId, Payload(o.value.ciphertext, o.value.iv));
    }

    /** Timer `t` goes off, no sooner than a window after it was armed, and runs its callback. */
    method Fire(t: nat)
      requires Valid() && CanFire(Memory(), window, t)
      modifies this`pending, this`timers, this`outbox, db`otps, db`faults
      ensures Valid() && Memory() == FireEffect(old(Memory()), t)
    {
      timers := timers[t := timers[t].(phase := Rung)];
      Resolve(timers[t].otp);
    }

    /** One tick of the janitor. */
    method Sweep()
      requires Valid()
      modifies db`otps, db`faults
      ensures Valid() && Memory() == SweepEffect(old(Memory()))
    {
      var _ := db.ExpireStaleOtps(now);
    }
  }
}
