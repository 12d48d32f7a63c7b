/**
  The SQL statements of the `otps` table as functions on a keyed map.
 */
module Tables {
  import opened Types

  /** The row can no longer be delivered at instant `now`: decided already, or past its expiry. */
  predicate Dead(row: Row, now: Millis) {
    row.status != Pending || row.expiresAt <= now
  }

  /** The row `Ingest` stores at instant `now`. */
  function FreshRow(ttl: int, now: Millis, source: DeviceId, ciphertext: string, iv: string): Row {
    Row(ciphertext, iv, source, now, now + ttl, None, Pending)
  }

  /** Sets status and claimant of one row, whatever the status was before. */
  function SetStatus(rows: map<OtpId, Row>, id: OtpId, status: Status, claimedBy: Option<DeviceId>): map<OtpId, Row> {
    if id in rows then rows[id := rows[id].(status := status, claimedBy := claimedBy)] else rows
  }

  function SweptRow(row: Row, now: Millis): Row {
    if row.status == Pending && row.expiresAt <= now then row.(status := Expired) else row
  }

  /** The sweep: every row that is still pending when its time is up becomes expired. */
  function SweptRows(rows: map<OtpId, Row>, now: Millis): map<OtpId, Row> {
    map id | id in rows :: SweptRow(rows[id], now)
  }
}
