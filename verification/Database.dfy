/**
  The database: the `otps` and `devices` tables as keyed maps, each statement one update in place.
 */
module Databases {
  import opened Types
  import opened Tables
  import opened Serial

  /** Ids are keys, and tokens are unique. */
  ghost predicate UniqueTokens(devices: map<DeviceId, Device>) {
    forall a, b | a in devices && b in devices && devices[a].token == devices[b].token :: a == b
  }

  class Database {
    var otps: map<OtpId, Row>
    var devices: map<DeviceId, Device>
    var faults: seq<bool>

    ghost predicate Valid()
      reads this
    {
      UniqueTokens(devices)
    }

    constructor (faults: seq<bool>)
      ensures Valid() && otps == map[] && devices == map[] && this.faults == faults
    {
      otps, devices, this.faults := map[], map[], faults;
    }

    /** The outcome foretold for this call. */
    method Call() returns (up: bool)
      modifies this`faults
      ensures up == !Faulty(old(faults)) && faults == Rest(old(faults))
    {
      up := true;
      if faults != [] {
        up := !faults[0];
        faults := faults[1..];
      }
    }

    method InsertOtp(id: OtpId, row: Row) returns (r: Result<()>)
      modifies this`otps, this`faults
      ensures faults == Rest(old(faults))
      ensures r == if Faulty(old(faults)) then Err(Unavailable) else if id in old(otps) then Err(Conflict) else Ok(())
      ensures otps == if r.Ok? then old(otps)[id := row] else old(otps)
    {
      var up := Call();
      if !up { return Err(Unavailable); }
      if id in otps { return Err(Conflict); }
      otps := otps[id := row];
      r := Ok(());
    }

    method GetOtp(id: OtpId) returns (r: Result<Row>)
      modifies this`faults
      ensures faults == Rest(old(faults))
      ensures r == if Faulty(old(faults)) then Err(Unavailable) else if id in otps then Ok(otps[id]) else Err(NotFound)
    {
      var up := Call();
      if !up { return Err(Unavailable); }
      if id !in otps { return Err(NotFound); }
      r := Ok(otps[id]);
    }

    method SetOtpStatus(id: OtpId, status: Status, claimedBy: Option<DeviceId>) returns (r: Result<()>)
      modifies this`otps, this`faults
      ensures faults == Rest(old(faults))
      ensures r == if Faulty(old(faults)) then Err(Unavailable) else if id in old(otps) then Ok(()) else Err(NotFound)
      ensures otps == if Faulty(old(faults)) then old(otps) else SetStatus(old(otps), id, status, claimedBy)
    {
      var up := Call();
      if !up { return Err(Unavailable); }
      if id !in otps { return Err(NotFound); }
      otps := otps[id := otps[id].(status := status, claimedBy := claimedBy)];
      r := Ok(());
    }

    /** Counts the rows it moves. */
    method ExpireStaleOtps(now: Millis) returns (r: Result<nat>)
      modifies this`otps, this`faults
      ensures faults == Rest(old(faults))
      ensures r.Ok? <==> !Faulty(old(faults))
      ensures r.Ok? ==> otps == SweptRows(old(otps), now)
      ensures r.Ok? ==> r.value == |set id | id in old(otps) && old(otps)[id] != otps[id]|
      ensures r.Err? ==> otps == old(otps) && r.error == Unavailable
    {
      var up := Call();
      if !up { return Err(Unavailable); }
      var stale := set id | id in otps && otps[id].status == Pending && otps[id].expiresAt <= now;
      ghost var before := otps;
      otps := map id | id in otps :: if id in stale then otps[id].(status := Expired) else otps[id];
      assert otps == SweptRows(before, now);
      assert stale == set id | id in before && before[id] != otps[id];
      r := Ok(|stale|);
    }

    method InsertDevice(id: DeviceId, device: Device) returns (r: Result<()>)
      requires Valid()
      modifies this`devices, this`faults
      ensures Valid() && faults == Rest(old(faults))
      ensures r.Ok? <==> !Faulty(old(faults)) && id !in old(devices)
                         && forall d | d in old(devices) :: old(devices)[d].token != device.token
      ensures r.Err? ==> r.error == if Faulty(old(faults)) then Unavailable else Conflict
      ensures devices == if r.Ok? then old(devices)[id := device] else old(devices)
    {
      var up := Call();
      if !up { return Err(Unavailable); }
      if id in devices || exists d | d in devices :: devices[d].token == device.token { return Err(Conflict); }
      devices := devices[id := device];
      r := Ok(());
    }

    method GetDeviceByToken(token: string) returns (r: Result<(DeviceId, Device)>)
      requires Valid()
      modifies this`faults
      ensures Valid() && faults == Rest(old(faults))
      ensures r.Ok? ==> r.value.0 in devices && devices[r.value.0] == r.value.1 && r.value.1.token == token
      ensures r.Err? ==> r.error == if Faulty(old(faults)) then Unavailable else NotFound
      ensures r.Err? && r.error == NotFound ==> forall d | d in devices :: devices[d].token != token
      ensures Faulty(old(faults)) ==> r.Err?
    {
      var up := Call();
      if !up { return Err(Unavailable); }
      if d :| d in devices && devices[d].token == token {
        r := Ok((d, devices[d]));
      } else {
        r := Err(NotFound);
      }
    }

    method RevokeDevice(id: DeviceId) returns (r: Result<()>)
      requires Valid()
      modifies this`devices, this`faults
      ensures Valid() && faults == Rest(old(faults))
      ensures r == if Faulty(old(faults)) then Err(Unavailable) else if id in old(devices) then Ok(()) else Err(NotFound)
      ensures devices == if r.Ok? then old(devices)[id := old(devices)[id].(revoked := true)] else old(devices)
    {
      var up := Call();
      if !up { return Err(Unavailable); }
      if id !in devices { return Err(NotFound); }
      devices := devices[id := devices[id].(revoked := true)];
      r := Ok(());
    }
  }
}
