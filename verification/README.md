# A verified model of the OTP relay's claim coordinator

The relay stores encrypted one-time passwords pushed by *source* devices and hands each of them to
the *destination* device that claims it. The first claim of an OTP opens a claim window; if no
second device claims within it, a timer delivers the payload to the sole claimant; if one does,
the OTP is invalidated and all claimants are told. The arbitration has two sources of truth, the
in-memory `pending` map (behind a mutex) and the row status in the database (outside it), and
claims, retries, timers, wall-clock expiry and a background sweep race on both. This project
models that protocol, the connection hub that carries its envelopes, the device registry that
decides who may do what, and the dashboard's session cookie, and proves what they promise over
whole runs.

`dafny verify dfyconfig.toml` checks everything.

## The model

**One transition system, four scheduling rules** (`Protocol.dfy`). A handler is a thread with a
program counter, cut where the source touches shared state: a claim at the row read, the clock
check, the locked section, the status write and each send; a timer callback at its locked section,
the reload, the clock check, the write and the send. Timers, clock ticks, ingests and sweeps are
events of their own. `Free` allows every interleaving and lets any database call of a handler fail
(a failing ingest or sweep changes nothing, so it is no event). `Lossy` assumes that a handler which
has left the lock is done with its status write within `tail` milliseconds, landed or failed. `Timed`
assumes that calls succeed as well. `Atomic` makes the read-and-check of a claim one step, and
everything from the locked section on another, with calls that succeed and no assumption on time: the
row snapshot may be arbitrarily stale.

**The coordinator as it is written** (`Database.dfy`, `Manager.dfy`). Classes over a `pending` map,
timers and tables updated in place, each method proved against the effect of its step
(`Serial.dfy`). Every trace of it is a run of the interleaved system (`Refinement.dfy`), so what is
proved of all `Free` runs holds of it, and it refines a closed-form oracle (`Oracle.dfy`).

**The hub** (`HubModel.dfy`, `Hub.dfy`): a state machine over connections and the classes `Hub` and
`Client` which refine it. `EndToEnd.dfy` joins it to the coordinator, `Roles.dfy` joins devices,
sockets and both entry routes to it.

**The session cookie** (`Base64Url.dfy`, `Base64Number.dfy`, `Decimal.dfy`, `Session.dfy`): unpadded
base64url as in sections 3.2 and 5 of RFC 4648, 64-bit decimal text, and an uninterpreted mac. Text is
tied to numbers by the literal alphabets, not only to itself by round trips.

Conventions:

- Instants are whole milliseconds, as in the schema. When a whole number of milliseconds has passed
  on the exact clock, at least as many have passed between the truncated instants, so a timer of the
  source never fires earlier than the model allows.
- A window, its timer and the call that opened it share one id. `windows`, `first` and the tags of
  a `Sent` envelope are history; no branch reads them.
- A run starts with nothing in memory and an arbitrary table, as after a start or restart of the
  process. Where a result needs the table to have been written by the relay itself, it says so
  (`TableOk`, `Restarted`).
- Fresh ids, tokens and instants are parameters; the primary key and the unique token column back
  them up. In the classes, `faults` foretells which database calls fail; in the transition system,
  the `ok` of a step does.
- Hypotheses on the configuration: a positive window, and a lifetime of at least 30 seconds as
  `internal/config/config.go:116` demands.

## What is proved

1. *At most one payload.* Under `Timed`, at most one payload per OTP is sent in any run, despite stale
   snapshots, re-opened windows and late callbacks (`AtMostOnePayload`). Stated exactly
   (`OnceIffShort`): over all runs this holds if and only if handlers owe their writes for less
   than a window, or an OTP does not outlive two windows. When database calls may fail, only the
   second of these helps (`LossyOnceIffShort`).
2. *Dual claims.* When a second claimant ends a window, whichever window it is, a device, whichever it
   is, is never sent the payload if and only if the timer of the OTP's first window cannot pay it from
   where it stands (`DualClaimPays`), and the OTP stays invalidated if and only if that timer cannot
   come to its write any more (`DualClaimInvalidates`). For the first window itself either means that
   the timer had not yet fired, so that stopping it works, or that the row was dead already
   (`DualClaimExactly`, `FirstDualClaimInvalidates`). How long handlers may take is exact too
   (`CancelledNeverDelivers`, `NeverIffShort`).
3. *Delivery under stale snapshots.* Under `Atomic`, the only payload answers the first window
   through its own timer, with claim + window <= check < created + ttl (`AtomicDelivery`). Under
   `Timed`, when only one device claims, its first window's claim is answered with the payload exactly
   when the re-check precedes the expiry (`SoleClaimantAnswered`).
4. *Accounting.* Every claim but a same-device repeat gets exactly one answer, even with failing
   database calls (`ExactlyOneAnswer`, `AnswersBalance`), and everything settles, however the
   scheduler goes on (`RunsAreBounded`, `AlwaysSettles`, `SpentRunsAnsweredAll`).
5. *Window lifecycle, row invariants, provenance, non-interference of OTPs, invisibility of the
   janitor*, over every interleaving.
6. *Atomicity of delivery.* Exactly when, over all runs, the write that delivers lands in time
   (`InTimeIffPrompt`), lands on a pending row (`OntoPendingIffShort`), and when a claimed row stays
   claimed (`ClaimedAbsorbsIffShort`); and within one run, exactly which callbacks are bound to write
   in time (`InTimeExactly`) and which claimed rows are bound to stay (`ClaimedStaysExactly`).
7. *The hub* follows its history, closes each channel once and writes in order; *end to end*, every
   envelope is accepted by its recipient's connection if that has room (`SentIsAccepted`), and at most
   one payload frame per OTP reaches a socket (`AtMostOneFrame`).
8. *Roles*: sources push, destinations claim and receive, across routes and reconnects; exactly which
   requests become calls and rows (`SocketClaims`, `RestClaims`, `SocketPushes`, `RestPushes`); and what still
   reaches the coordinator from a revoked device (`RevokedOnlyBySocket`).
9. *The cookie* is valid exactly until its expiry, and its text is what the formats say
   (`SignSpells`, `EncodeSpells`, `FormatSpells`).

**Where the code and its documentation part.** The model follows the code, and says when the
documentation is right.

- The package comment (`internal/claim/claim.go:5-9`) and `docs/SECURITY.md:28-30` say that an OTP
  claimed by two devices within the window is invalidated and reaches neither. For a dual claim that
  ends the OTP's first window that is so exactly when the second claimant stops the timer before it
  fires, or the row is dead (`DualClaimExactly`, `FirstDualClaimInvalidates`): the result of
  `st.timer.Stop()` (`internal/claim/claim.go:170`), which the code does not look at, decides it. A
  timer that has fired, but whose callback has not yet run, can take a window which a later claim
  opens before the invalidation is written; `DualClaimDelivers` is a run in which the second claimant
  itself does so, for every window shorter than the lifetime and however prompt the handlers are. For
  a dual claim that ends a later window, opened by a call with a stale snapshot, stopping its timer
  decides nothing (`LaterDualClaimDelivers`): there it depends on whether the first window's timer can
  still pay the device (`DualClaimPays`) or come to its write (`DualClaimInvalidates`).
- `docs/ARCHITECTURE.md:57-58` says that reloading the row makes delivery atomic with respect to
  expiry. The clock is always read before the expiry (`PayloadProvenance`), but the write that
  follows is unconditional. It can land on a row that the janitor has expired
  (`ExpiresBeforeWrite`), and over all runs it never does if and only if handlers write in the instant
  in which they left the lock, or no OTP lives long enough to be delivered (`InTimeIffPrompt`). It can
  land on an invalidated row however prompt the handlers are (`InvalidatedBeforeWrite`,
  `OntoPendingIffShort`).
- For the same reason `claimed` is final in the serial coordinator (`DecidedForGood`), but between
  handlers only if the lifetime does not exceed the window (`ClaimedAbsorbsIffShort`), or no dual claim
  of the row is under way (`ClaimedStaysExactly`).
- `docs/SECURITY.md:45-46` says that revocation is immediate. It is for requests and connects; a socket
  connected before goes on claiming, and is paid (`RevokedOnlyBySocket`, `PaidThoughRevoked`).

## Model

| member | source | states |
|---|---|---|
| Delivery.AtMostOnePayload | internal/claim/claim.go:117-222 | In every run under the tail bound, for every OTP, at most one payload is ever sent, to anyone |
| ExactBound.OnceIffShort | internal/claim/claim.go:147-222 | For every accepted configuration, "at most one payload in every run" holds if and only if the tail is shorter than the window or the lifetime is at most two windows |
| ExactBound.ShortLivedOnce | internal/claim/claim.go:151-152 | When the lifetime is at most two windows, at most one payload is sent under any interleaving, with slow handlers and failing calls |
| ExactBound.LossyOnceIffShort | internal/claim/claim.go:225-228 | With database calls that may fail, and whatever the tail, at most one payload is sent in every run if and only if the lifetime is at most two windows |
| Sharpness.FailedWritePaysTwice | internal/claim/claim.go:225-228 | Otherwise one failed write of an invalidation is enough for a run that sends the payload to two devices |
| Sharpness.TwoPayloads | internal/claim/claim.go:181-222 | Otherwise a run sends the payload of one OTP to two devices: two callbacks, a window apart, pass the re-check before either writes |
| Delivery.CancelledNeverDelivers | internal/claim/claim.go:168-177 | Once the first window's timer is cancelled, no payload of that OTP has been or will be sent |
| ExactBound.NeverIffShort | internal/claim/claim.go:168-177 | A cancelled first window rules out every payload, in all runs, if and only if the tail is shorter than the window or the lifetime does not exceed one window |
| ExactBound.LossyNeverIffShort | internal/claim/claim.go:225-228 | With database calls that may fail, a cancelled first window rules out every payload, in all runs, if and only if the lifetime does not exceed one window |
| Sharpness.FailedWriteDelivers | internal/claim/claim.go:225-228 | Otherwise a failed write of the invalidation lets the next claim be paid after a cancelled first window |
| ExactBound.TooShortLived | internal/claim/claim.go:204-207 | An OTP whose lifetime does not exceed the window is never delivered |
| Sharpness.CancelledDelivers | internal/claim/claim.go:226-232 | With a longer tail and lifetime, the second claimant of a cancelled window is sent the payload on a retry |
| Payments.DualClaimPays | internal/claim/claim.go:168-177 | For every run in which a second claimant is about to end a window, whichever it is, and every device: the device is never sent the payload, in any continuation, if and only if it has not been already and the first window's timer cannot pay it: has fired with a live row, holds a window of the device with a live row or a live row in hand, is about to write for it, or is sending to it |
| Payments.PaidIffMayPay | internal/claim/claim.go:181-222 | The same of every state that a run can reach with nothing pending after the first window |
| Payments.DualClaimInvalidates | internal/claim/claim.go:209-232 | For every such dual claim: once its write has landed the OTP is invalidated, in every continuation, if and only if the first window's timer cannot come to its own write any more |
| Payments.FirstDualClaimInvalidates | internal/claim/claim.go:168-177 | For a dual claim that ends the first window, that is when the timer has not fired or the row is dead |
| DualClaims.DualClaimExactly | internal/claim/claim.go:168-177 | For every run in which a second claimant is about to end the first window, and every device: the device is never sent the payload, in any continuation, if and only if the timer has not fired or the row is dead |
| Sharpness.LaterDualClaimDelivers | internal/claim/claim.go:159-177 | For every window shorter than the lifetime and any tail, a run in which a dual claim ends a later window, cancels its timer while the row is live, and one of the two claimants is sent the payload none the less |
| DualClaims.SpoiledForGood | internal/claim/claim.go:196-207 | Under every rule, once the row is dead and no handler has its payload in hand, no payload is ever sent |
| Sharpness.DualClaimDelivers | internal/claim/claim.go:168-190 | For every window shorter than the lifetime and any tail, a run in which the second claimant of a dual claim is sent the payload on a retry, and a continuation in which the row goes from claimed to invalidated |
| Atomicity.InTimeIffPrompt | internal/claim/claim.go:198-209 | Over all runs, the write that delivers never lands on an expired row, and always lands before the expiry by the clock, if and only if the tail is zero or the lifetime does not exceed the window |
| Deadlines.InTimeExactly | internal/claim/claim.go:188-209 | For every run and every callback that has left the lock with its row alive: its write lands before the expiry in every continuation if and only if the deadline of its tail comes before the expiry |
| Atomicity.ExpiresBeforeWrite | internal/claim/claim.go:204-209 | Otherwise a run in which the sweep expires the row between check and write, and the write then claims it and the payload is sent |
| Atomicity.OntoPendingIffShort | internal/db/db.go:255-258 | Over all runs, the write that delivers always lands on a pending row if and only if the lifetime does not exceed the window |
| Atomicity.InvalidatedBeforeWrite | internal/claim/claim.go:204-232 | Otherwise a run in which the write of a dual claim lands between check and write, for any tail |
| Atomicity.ClaimedAbsorbsIffShort | internal/db/db.go:255-258 | Over all runs and continuations, a claimed row stays exactly as it is if and only if the lifetime does not exceed the window |
| ClaimedRows.ClaimedStaysExactly | internal/claim/claim.go:147-177 | For every run and claimed row: the row never changes, in any continuation, if and only if no dual claim of it owes its write and no two devices hold its window or have calls in flight that saw it pending |
| Atomicity.ShutForGood | internal/claim/claim.go:136-139 | Under every rule, a claimed row that no handler has seen pending and no window is open for never changes again |
| SoleClaimants.SoleClaimantAnswered | internal/claim/claim.go:181-222 | When only one device claims an OTP and all has settled, its first window's claim has one answer, by that window's own timer: the payload, with the row claimed by the device, exactly when the re-check precedes the expiry, and else the expiry notice; no other payload is ever sent |
| Delivery.AtomicDelivery | internal/claim/claim.go:147-222 | With atomic tails and no timing hypothesis, the only payload answers the first window, comes from its own timer, goes to its opener, and was checked between opening + window and created + ttl |
| Delivery.RunSafe | internal/claim/claim.go:145-222 | The invariant behind the delivery results, kept by every step: once the first window has ended, either its handler owes a write or the row is dead, and only the first window's payload can exist |
| Provenance.PayloadProvenance | internal/claim/claim.go:70-88 | Every payload carries the ciphertext and iv of the first ingest of its id, answers a Claim event of the run by its recipient whose snapshot of that very row was pending and unexpired, and was decided before expiry by a timer that ran its window |
| Provenance.WindowLifecycle | internal/claim/claim.go:147-195 | A pending entry is an open window with exactly one claimant whose callback has not entered its locked section; the defensive branch is never taken; an ended window stays as it ended |
| Provenance.RowInvariants | internal/db/db.go:227-275 | In every run claimed_by is set exactly on claimed rows, expires_at is created_at + ttl, what was ingested never changes and pending is never re-entered |
| Provenance.RowFromIngest | internal/claim/claim.go:70-83 | A row that a run brings into being holds what the first ingest of its id gave it |
| Lifecycle.StepKeeps | internal/claim/claim.go:147-190 | Every step keeps windows, entries, timers and handlers matched to one another |
| Accounting.ExactlyOneAnswer | internal/claim/claim.go:117-248 | For each call, answers sent + window open + answer owed is one, and zero for a same-device repeat; every answer goes to the caller and is about its OTP; database failures included |
| Accounting.AnswersBalance | internal/claim/claim.go:159-177 | For each device and OTP, envelopes sent + windows held + answers owed equals the claims that were not repeats |
| Progress.RunsAreBounded | internal/claim/claim.go:181-232 | Without new claims, the steps and firings of a run are bounded by the work in its first state |
| Progress.CanMove | internal/claim/claim.go:152 | Unless all is settled some handler can step, or a timer can fire, without breaking the tail bound |
| Progress.AlwaysSettles | internal/claim/claim.go:152-222 | From every state finitely many events without a claim settle everything |
| Progress.StoppedRunsAnsweredAll | internal/claim/claim.go:181-248 | A run that has stopped has an empty pending map, no owed write or send, and exactly one answer to every claim but the repeats |
| Progress.SpentRunsAnsweredAll | internal/claim/claim.go:181-248 | From any point of any run, under any rule and scheduling, once as many steps were taken without a new claim as there was work, nothing is pending and each claim but the repeats has its one answer |
| Janitor.JanitorInvisible | internal/db/db.go:267-275 | Deleting every sweep from a run, under any rule, leaves a run with the same outbox and windows, and a table that differs only by rows swept after expiry |
| Projection.NonInterference | internal/claim/claim.go:147-173 | The events of a run that concern one OTP are by themselves a run, ending in exactly that OTP's part of the state and its envelopes |
| Refinement.ClaimIsRun | internal/claim/claim.go:117-177 | A serial claim, whatever calls fail in it, is the run of one handler from start to end |
| Refinement.FireIsRun | internal/claim/claim.go:181-222 | A serial firing is the run of one timer callback from firing to end |
| Refinement.TraceIsRun | internal/claim/claim.go:117-272 | Every trace of the serial coordinator is a run of the interleaved one that ends in the same table, windows, timers and outbox |
| Oracle.OracleDecides | internal/claim/claim.go:117-222 | After any serial trace in which database calls succeed, and for any OTP that was not in the table at its start: its row, its envelopes in order, its open window with its holder, and its one timer with its arming instant are those of a closed form over the first live claim, the first live rival, the firing and the expiry; no second timer is ever armed for it |
| OracleRestarts.OracleDecidesPending | internal/claim/claim.go:117-222 | For an OTP that the table held pending at the start, as this coordinator writes it: the same, over the trace in which it was ingested at its creation |
| OracleRestarts.OracleKeepsDecided | internal/claim/claim.go:131-144 | For an OTP decided before the start: its row stays, it never has a window, and each claim of it gets, in order, the refusal of its status |
| Oracle.DecidedForGood | internal/db/db.go:255-275 | Serially, claimed, invalidated and expired are each absorbing, failing calls included |
| Claims.Manager.constructor | internal/claim/claim.go:53-65 | A new coordinator has nothing pending, armed or sent |
| Claims.Manager.Ingest | internal/claim/claim.go:70-88 | Stores one pending row expiring a lifetime later, or reports why it could not and changes nothing but the foretold faults |
| Claims.Manager.Claim | internal/claim/claim.go:117-177 | Refines the effect of a claim on the whole state: rejections, late notice, opening, repeat, dual claim; a failing read and a missing row have each their own rejection, and change nothing else |
| Claims.Manager.Resolve | internal/claim/claim.go:181-222 | Refines the effect of a timer callback on the whole state; when the reload or the marking fails the sole claimant gets the internal error, the window is gone and the row unchanged |
| Claims.Manager.Invalidate | internal/claim/claim.go:225-232 | Writes invalidated unless the call fails, and notifies all claimants in order either way |
| Claims.Manager.Fire | internal/claim/claim.go:152 | A timer rings once, no sooner than a window after it was armed, and runs its callback |
| Claims.Manager.Sweep | internal/claim/claim.go:258-264 | One janitor tick moves exactly the stale pending rows |
| Databases.Database.InsertOtp | internal/db/db.go:227-234 | Adds the row, or changes no row on a duplicate id or a failing call |
| Databases.Database.GetOtp | internal/db/db.go:237-250 | The row, not found, or a failing call, told apart |
| Databases.Database.SetOtpStatus | internal/db/db.go:255-263 | Writes status and claimant whatever the status was; not found on a missing row |
| Databases.Database.ExpireStaleOtps | internal/db/db.go:267-275 | Expires exactly the pending rows whose expiry has come, and counts them |
| Databases.Database.InsertDevice | internal/db/db.go:124-131 | Adds the device unless its id or token is taken; tokens stay unique |
| Databases.Database.GetDeviceByToken | internal/db/db.go:136-140 | The holder of the token, revoked or not; not found exactly when there is none |
| Databases.Database.RevokeDevice | internal/db/db.go:201-207 | Marks the device revoked, or reports that there is none |
| Registries.Registry.Register | internal/registry/registry.go:34-51 | Rejects exactly the kinds that are neither source nor destination; a registered device is stored with the kind it gave, and authenticates by its token |
| Registries.Registry.Authenticate | internal/registry/registry.go:56-65 | Grants exactly the holder of a live token, and tells a revoked token from an unknown one |
| Registries.Registry.Revoke | internal/registry/registry.go:74 | After it nobody authenticates with the device's token |
| HubModel.HubFollowsHistory | internal/ws/hub.go:84-105 | The map entry of a device is its most recently registered connection if that one has not unregistered, and otherwise absent, for every order of registers and stale unregisters |
| HubModel.OpenWhileEntry | internal/ws/hub.go:84-105 | A connection's channel is open exactly while it is the map entry of its device, and is closed exactly once |
| HubModel.WrittenInOrder | internal/ws/hub.go:110-223 | What is written is a prefix, in order, of what was accepted; the queue never exceeds 16; a pump ended by the closed channel had written everything |
| HubModel.SendIsAccepted | internal/ws/hub.go:116-130 | A frame sent to a device with an entry is queued there as the last one if fewer than 16 are, and nothing else changes |
| HubModel.DisplacedAfterWriting | internal/ws/hub.go:84-223 | A run in which a frame is queued and written, the device connects again, and the displaced pump ends |
| HubModel.LookupStaysOpen | internal/ws/hub.go:116-123 | A connection found by the lookup stays open, in every continuation, exactly until its device registers another or it unregisters |
| Connections.PumpDrains | internal/ws/hub.go:195-223 | On a closed channel and a sound socket the write pump writes all that was accepted, with pings in between, and then ends |
| Connections.Client.WritePump | internal/ws/hub.go:197-223 | For every choice between frames and pings: with no failing write everything queued is written, and the pump ends if the channel is closed; at the first failing write that is reached it ends, having written exactly the frames before it |
| Connections.Client.TrySend | internal/ws/hub.go:226-235 | Queues the frame as the last one if fewer than 16 are queued, and drops it otherwise; on a closed channel it panics and queues nothing |
| Connections.Client.Handle | internal/ws/hub.go:174-193 | A message leads to the reply, queued if there is room, or the call that its type and the sender's kind allow, and to nothing else; a reply on a displaced connection panics |
| Connections.Route | internal/ws/hub.go:174-193 | Only sources push and only destinations claim, each in its own name, and what they send is passed on unchanged |
| Connections.Hub.Register | internal/ws/hub.go:84-93 | Refines registration: displaces and closes the old connection, and keeps the hub's invariant |
| Connections.Hub.Unregister | internal/ws/hub.go:97-105 | Refines unregistration: does nothing for a displaced connection |
| Connections.Hub.Lookup | internal/ws/hub.go:116-118 | Finds the current connection of the device, which is open, or none |
| Connections.Hub.SendToDevice | internal/ws/hub.go:110-130 | Says true exactly when the device has a connection with fewer than 16 frames queued; then this envelope is its last one, and no other connection changes |
| Connections.Hub.IsConnected | internal/ws/hub.go:133-138 | True exactly when the device has an open connection |
| EndToEnd.RelayedIsRun | internal/claim/claim.go:28-30 | The coordinator's part of a joint run with the hub is a run of the coordinator |
| EndToEnd.HubNeverBlocks | internal/claim/claim.go:28-30 | Every run of the coordinator is the coordinator's part of a joint run |
| EndToEnd.SentIsAccepted | internal/ws/hub.go:110-130 | In every joint run each envelope is sent in one step, and if its recipient's connection then has fewer than 16 frames queued it is accepted there, for good |
| EndToEnd.AtMostOneFrame | internal/claim/claim.go:215-220 | Through coordinator and hub, over all connections and reconnects, at most one payload frame per OTP is written, on a socket of the device whose claim opened the delivered window |
| Roles.RolesHold | internal/ws/handler.go:45-86 | From a table in which it holds, over both entry routes and all reconnects and revocations: the source of every row is a registered source, and every caller, every claimant about to be notified, every opener of a window open or ended, every claimed_by and every payload recipient a registered destination |
| Roles.SocketClaims | internal/ws/hub.go:184-189 | A claim by a socket becomes a new call of that device for that OTP exactly when the device is a destination and the id is not empty, and otherwise leaves the coordinator as it is |
| Roles.RestClaims | internal/api/otp.go:53-74 | The same of a claim by REST with a live token |
| Roles.SocketPushes | internal/ws/hub.go:178-183 | A push by a socket becomes a pending row of that device with these texts, under a fresh id, exactly when the device is a source and neither text is empty |
| Roles.RestPushes | internal/api/otp.go:16-40 | The same of a push by REST with a live token |
| Roles.OtherRequests | internal/ws/handler.go:45-86 | No other request reaches the coordinator; a connect is granted to the holder of a live token only, and copies the device's kind |
| Revocations.RevokedOnlyBySocket | internal/ws/handler.go:52-81 | A push or claim in the name of a revoked device comes by a socket that was connected while the device was not revoked, before the event that revoked it |
| Revocations.PaidThoughRevoked | internal/ws/hub.go:174-193 | A run in which a device claims by its socket after it was revoked, and is sent the payload |
| Base64Url.DecodeEncode | internal/totp/totp.go:98 | Decoding undoes encoding on all byte strings, and the text holds no dot |
| Base64Url.EncodeDecode | internal/totp/totp.go:110 | Encoding undoes decoding exactly on text without line breaks whose left-over bits are zero |
| Base64Numbers.EncodeSpells | internal/totp/totp.go:98 | The i-th character is that of the URL-safe alphabet, as a literal text, at the i-th six-bit digit of the bytes read as one big-endian number and filled up with zero bits; as many characters as hold all the bits |
| Base64Numbers.DecodesExactly | internal/totp/totp.go:110 | A text decodes if and only if, line breaks aside, it is of that alphabet and of a length that whole bytes can fill |
| Base64Numbers.DecodeReads | internal/totp/totp.go:110 | What it decodes to are the bytes of the number spelled, without the bits left over at its end |
| Decimal.FormatSpells | internal/totp/totp.go:96 | A printed natural number is its decimal digits without a leading zero |
| Decimal.ValueSpells | internal/totp/totp.go:119 | The value of a text of digits is that of its decimal digits, the most significant first |
| Decimal.ParsesExactly | internal/totp/totp.go:119 | A text parses to n if and only if it is a sign or none, then digits of that value, and n fits in 64 bits |
| Decimal.ParseFormat | internal/totp/totp.go:96-119 | Parsing undoes printing on every 64-bit integer, and fails on every other |
| Session.ValidateSigned | internal/totp/totp.go:95-127 | For every key and 64-bit expiry, a signed cookie validates exactly while now <= expiry |
| Session.SignSpells | internal/totp/totp.go:95-99 | A cookie is the expiry in decimal, a dot, and the mac of that text spelled in the URL-safe alphabet, digit by digit |
| Session.SignInjective | internal/totp/totp.go:95-99 | Cookies of different expiries differ, whatever the keys |
| Session.ValidateExactly | internal/totp/totp.go:104-127 | A text validates if and only if it is an unexpired expiry, a dot, and a dot-free text that decodes to the mac of the first part |

## Left out

- Connections.Hub.SendToDevice: lookup and enqueue are one step; in the source the lock is released between them. What can happen in between is said by `LookupStaysOpen` and by the panic of `Connections.Client.TrySend`, but the end-to-end result is proved for the one step.
- Connections.Hub.Register: requires a connection that was never registered, which is how the upgrade handler uses it.
- Claims.Manager.Claim: each call and each firing is one step on one clock reading; the steps in between are those of `Protocol`.
- Databases.Database.SetOtpStatus: a call that fails has no effect; one that fails after taking effect is not modelled.
- OracleRestarts.OracleDecidesPending: requires that a row pending at the start was created with the configured lifetime and not after the start; one written under another lifetime is not covered by the closed form.
- Restarts lose the windows in memory. A run may start on any table, but a run across a restart is not modelled.
- Clocks that go backwards, and sub-millisecond timing.
- HTTP handlers, routing, CORS, JSON and its malformed messages, request size limits, logging, configuration loading, graceful shutdown.
- Web Push, VAPID and the push fan-out of an ingest, which does not touch the claim state.
- Invite tokens, QR codes, device listings and lookups by id.
- SQLite itself: each statement is one atomic update of a keyed map; indexes, busy timeouts and row scanning are absent.
- HMAC-SHA256, constant-time comparison, the TOTP check and cookie attributes; no cryptographic claim is made.
- Sockets: deadlines and the read pump are absent; a failing write or ping only ends the write pump.
- Randomness of ids: freshness is an input, and a repeated id is refused by the primary key.
- Loss in the hub: an envelope to an absent device or a full queue is dropped, so the results say at most one frame, not exactly one.
