/**
  The device registry: registration with a checked kind, the token gate, and revocation.
 */
module Registries {
  import opened Types
  import opened Serial
  import opened Databases

  datatype RegistryError = InvalidKind | Revoked | Database(error: DbError)

  datatype Outcome<+T> = Granted(value: T) | Denied(why: RegistryError)

  function ParseKind(kind: string): Option<DeviceKind> {
    if kind == "source" then Some(Source) else if kind == "destination" then Some(Destination) else None
  }

  /** `id` holds `token`, and has not been revoked. */
  predicate LiveToken(devices: map<DeviceId, Device>, id: DeviceId, token: string) {
    id in devices && devices[id].token == token && !devices[id].revoked
  }

  class Registry {
    const db: Databases.Database

    constructor (db: Databases.Database)
      ensures this.db == db
    {
      this.db := db;
    }

    /** `id` and `token` are fresh and random; the database backs that up. */
    method Register(name: string, kind: string, pushSub: Option<string>, id: DeviceId, token: string, now: Millis)
      returns (r: Outcome<DeviceId>)
      requires db.Valid()
      modifies db`devices, db`faults
      ensures db.Valid()
      ensures r == Denied(InvalidKind) <==> kind != "source" && kind != "destination"
      ensures r.Granted? <==> (kind == "source" || kind == "destination") && !Faulty(old(db.faults)) && id !in old(db.devices)
                              && forall d | d in old(db.devices) :: old(db.devices)[d].token != token
      ensures r.Granted? ==> r.value == id && LiveToken(db.devices, id, token)
      ensures r.Denied? && (kind == "source" || kind == "destination") ==> r.why == Database(if Faulty(old(db.faults)) then Unavailable else Conflict)
      ensures db.devices == if r.Granted?
        then old(db.devices)[id := Device(name, if kind == "source" then Source else Destination, pushSub, token, now, false)]
        else old(db.devices)
    {
      var parsed := ParseKind(kind);
      if parsed.None? { return Denied(InvalidKind); }
      var inserted := db.InsertDevice(id, Device(name, parsed.value, pushSub, token, now, false));
      if inserted.Err? { return Denied(Database(inserted.error)); }
      r := Granted(id);
    }

    /** Grants exactly the holder of a live token, who is unique. */
    method Authenticate(token: string) returns (r: Outcome<DeviceId>)
      requires db.Valid()
      modifies db`faults
      ensures db.Valid()
      ensures r.Granted? ==> LiveToken(db.devices, r.value, token)
      ensures !Faulty(old(db.faults)) ==>
                && (r.Granted? <==> exists d | d in db.devices :: LiveToken(db.devices, d, token))
                && (r == Denied(Revoked) <==> exists d | d in db.devices :: db.devices[d].token == token && db.devices[d].revoked)
                && (r == Denied(Database(NotFound)) <==> forall d | d in db.devices :: db.devices[d].token != token)
      ensures Faulty(old(db.faults)) ==> r == Denied(Database(Unavailable))
    {
      var dev := db.GetDeviceByToken(token);
      if dev.Err? { return Denied(Database(dev.error)); }
      if dev.value.1.revoked { return Denied(Revoked); }
      r := Granted(dev.value.0);
    }

    /** Cuts the token off: from now on nobody authenticates with it. */
    method Revoke(id: DeviceId) returns (r: Outcome<()>)
      requires db.Valid()
      modifies db`devices, db`faults
      ensures db.Valid()
      ensures r.Granted? <==> !Faulty(old(db.faults)) && id in old(db.devices)
      ensures r.Denied? ==> r.why == Database(if Faulty(old(db.faults)) then Unavailable else NotFound)
      ensures db.devices == if r.Granted? then old(db.devices)[id := old(db.devices)[id].(revoked := true)] else old(db.devices)
      ensures r.Granted? ==> forall d :: !LiveToken(db.devices, d, old(db.devices)[id].token)
    {
      var revoked := db.RevokeDevice(id);
      if revoked.Err? { return Denied(Database(revoked.error)); }
      r := Granted(());
    }
  }
}
