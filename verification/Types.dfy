/**
  The values that travel through the relay: device and OTP ids, rows of the `otps` table,
  and the envelopes a device receives.  Instants are whole milliseconds, the unit of every
  timestamp in the schema.
 */
module Types {
  type DeviceId = string
  type OtpId = string
  type Millis = int

  datatype Option<+T> = None | Some(value: T)

  datatype Result<+T> = Ok(value: T) | Err(error: DbError)

  /** What a database call can report: no such row, a violated constraint, or the driver failing. */
  datatype DbError = NotFound | Conflict | Unavailable

  datatype Status = Pending | Claimed | Invalidated | Expired

  /** A row of the `otps` table; the id is its key. */
  datatype Row = Row(
    ciphertext: string,
    iv: string,
    source: DeviceId,
    createdAt: Millis,
    expiresAt: Millis,
    claimedBy: Option<DeviceId>,
    status: Status)

  datatype Reason = OtpNotFound | InternalError | OtpExpired | AlreadyClaimed

  /** The body of an outbound envelope. */
  datatype Body =
    | Payload(ciphertext: string, iv: string)
    | InvalidatedNotice
    | Rejection(reason: Reason)

  datatype Envelope = Envelope(to: DeviceId, otp: OtpId, body: Body)

  datatype DeviceKind = Source | Destination

  /** A row of the `devices` table; the id is its key, and the token is unique. */
  datatype Device = Device(
    name: string,
    kind: DeviceKind,
    pushSub: Option<string>,
    token: string,
    createdAt: Millis,
    revoked: bool)
}
