# Callback relay: latest-value store, channel registry and event streams

This project models the core of a small webhook-capture relay, a single actix-web
service. A client picks an identification string. Requests sent to
`/callback/{id}` are captured. The latest capture for an id can be read back from
`/latest/{id}`, and `/events/{id}` streams every later capture live.

Under the HTTP layer sit two tables, shared by all handlers:

- the **latest-value store**, a map from identification to a `RequestInfo`
  record (method, rendered headers, body);
- the **channel registry**, a map from identification to a broadcast sender
  and the instant that entry was created.

The handlers act on these tables:

- **Capture** (`callback_handler`). It builds a record with body `"Body: " + body`
  and overwrites the store entry. It sends the record on the id's channel only
  if a registry entry exists, then echoes the record.
- **Subscribe** (`get_events`). It overwrites the store entry with a marker
  record whose body is `"Identification: " + id`. It gets the id's registry
  entry, or creates one on a fresh channel stamped with the current instant.
  It then subscribes a receiver, and the stream yields one event per message
  until the first receive error.
- **Latest lookup** (`get_latest`). It returns the stored record, or the text
  `"No data available for identification: " + id`.
- **Sweep** (the body of `cleanup_channels`' loop). It keeps only the registry
  entries whose age is strictly under 300 seconds.

## How it is modelled

- `records.dfy` (module `Records`) holds the record type, the fixed texts, and
  the two record builders.
- `hub.dfy` (module `Hub`) holds the relay state as a value `State(store,
  registry, logs)` and each handler as a function from state to state.
  - A broadcast channel is an abstract number `c`. `logs[c]` is every message
    ever sent on it, in send order.
  - A receiver is a `Cursor(channel, next)` into one log.
  - A channel is open while some registry entry refers to it. The registry
    holds the only long-lived clone of the sender: the clone taken in
    `get_events` dies when the handler returns, and `callback_handler` only
    borrows it. So once the entry is swept, the sender is dropped. A receiver
    then gets what was already sent, followed by the end of its stream.
  - `Step` and `Run` apply a sequence of handler calls, each modelled as one
    atomic call.
- `hub_properties.dfy` (module `HubProperties`) holds lemmas over arbitrary
  call sequences: the last write wins, what a receiver gets, fan-out without
  replay, channel isolation after a sweep, and sweep idempotence.
- `service.dfy` (module `Service`) holds the service as imperative objects.
  - Class `Relay` has the two map fields plus the channel logs. Its methods are
    the handlers, and each is proved to produce exactly the `Hub` function's
    new state.
  - Class `Receiver` has the relay that created it, a channel and a cursor.
    `Recv` models one receive.
    `Drain` models the stream's `while let Ok(info) = rx.recv()` loop, run
    until it would wait or until the stream ends.

Time is a `nat` count of nanoseconds, passed in by the caller. The TTL is
`300 * 10^9`. Age is computed the way `Instant::duration_since` does it: zero
when the entry's instant is later than `now`.

Two facts about the registry follow from the code and shape the model:

- A capture never creates a registry entry. It sends only when an entry
  already exists (src/main.rs:83-85). Only `get_events` creates entries
  (src/main.rs:42-47). So after a sweep, a capture for that id sends nothing
  until the next subscribe creates a new entry on a new channel.
- An entry's timestamp is set once, when the entry is created
  (src/main.rs:44-46). The retain closure calls it `last_used`
  (src/main.rs:111), but later captures and subscribes never refresh it. The
  TTL therefore counts from creation. `ActivityDoesNotExtendLifetime` states
  this.

## Model

| member | source | states |
|---|---|---|
| Records.CaptureRecord | src/main.rs:72-76 | the capture record keeps the request's method and header text, and its body is `"Body: "` followed by exactly the body sent |
| Records.SubscribeRecord | src/main.rs:29-33 | the marker record keeps the request's method and header text, and its body is `"Identification: "` followed by exactly the id |
| Records.NotFoundMessage | src/main.rs:97-100 | the 404 text is `"No data available for identification: "` followed by exactly the id |
| Hub.Age | src/main.rs:111 | the elapsed time from creation to `now`, as `Instant::duration_since` gives it: `created + age == now` when `created <= now`, and zero exactly when `now` is not after `created` |
| Hub.Live | src/main.rs:111 | the retain condition: an entry is kept exactly when `now < created + 300 s` |
| Records.CapturedBody | src/main.rs:75 | the captured body is what follows the `"Body: "` prefix of a capture record |
| Records.CaptureBodyRoundTrip | src/main.rs:72-76 | a capture record starts with `"Body: "`, and the body the client sent is recovered from it exactly |
| Records.SubscribeRecordIsNoCapture | src/main.rs:29-33 | the marker a subscribe stores (`"Identification: " + id`) differs from every capture record |
| Hub.Lookup | src/main.rs:90-102 | found exactly when the id is in the store, with the stored record; otherwise the 404 text `"No data available for identification: " + id`, which ends with the id |
| Hub.Capture | src/main.rs:64-88 | the lookup of `id` then gives the record with body `"Body: " + body`, and every other id's lookup is unchanged; the registry is unchanged (no entry added, removed or re-stamped); exactly one message, that record, is appended to `id`'s channel if `id` has an entry, and no log changes otherwise |
| Hub.Subscribe | src/main.rs:21-52 | the lookup of `id` gives the marker record, and other ids are unchanged; an existing entry keeps its channel and timestamp, and no log changes; a missing entry is created on a channel no entry used before, stamped `now`; the receiver is on `id`'s channel, at the end of its log |
| Hub.Sweep | src/main.rs:108-111 | keeps exactly the entries with `now - created < 300 s`; kept entries are unchanged; the store and the channel logs are untouched |
| Hub.Receive | src/main.rs:52-56 | yields the unread messages one by one in send order; once none are left it waits while the channel is registered and reports the end otherwise |
| Hub.Step | src/main.rs:40-50 | every handler call keeps each registered channel existing and never gives two ids the same channel |
| Hub.Run | src/main.rs:40-50 | any sequence of handler calls keeps that invariant |
| HubProperties.LatestUntouched | src/main.rs:78-81 | calls that do not write an id leave its latest value unchanged |
| HubProperties.LatestIsLastCapture | src/main.rs:78-81 | after any history, a capture on `id` followed by calls that do not write `id` makes the lookup return exactly that capture |
| HubProperties.NeverWrittenIsNotFound | src/main.rs:96-100 | an id never written by any call is answered with `"No data available for identification: " + id` |
| HubProperties.LogsOnlyGrow | src/main.rs:83-85 | no call removes or rewrites a message already sent on any channel |
| HubProperties.DetachedChannelFrozen | src/main.rs:42-47 | a channel that no entry refers to is never re-attached and never gets another message |
| HubProperties.LiveChannelGetsPublished | src/main.rs:83-85 | while an id's entry survives every sweep, the entry keeps its channel and creation time, and its channel gets exactly the captures under that id, in call order |
| HubProperties.ReceiverGetsLaterCaptures | src/main.rs:52-56 | a new receiver gets exactly the captures under its id made after it subscribed, in order, and none made before |
| HubProperties.FanOut | src/main.rs:40-52 | two subscribers to one id share one channel; both get every later capture, and the later subscriber gets none of the earlier ones |
| HubProperties.ActivityDoesNotExtendLifetime | src/main.rs:44-47 | an entry is removed by a sweep 300 s after its creation, however many captures and subscribes used it meanwhile |
| HubProperties.SweepCutsOffOldReceivers | src/main.rs:108-111 | after a sweep removes an id's entry, a receiver on the old channel gets only what was already sent, then the end of the stream; later calls under that id use a different channel |
| HubProperties.SweepIdempotent | src/main.rs:110-111 | a second sweep at the same instant changes nothing |
| HubProperties.LaterSweepSubsumes | src/main.rs:105-111 | a sweep at a later instant removes everything an earlier one did |
| Service.Relay.constructor | src/main.rs:131-135 | both tables start empty |
| Service.Relay.Capture | src/main.rs:64-88 | returns the record it stored and published; the new state is `Hub.Capture` of the old one |
| Service.Relay.Subscribe | src/main.rs:21-52 | returns a fresh receiver bound to this relay; the new state and the receiver's position are those of `Hub.Subscribe` |
| Service.Relay.GetLatest | src/main.rs:90-102 | changes nothing; answers `Hub.Lookup`: found exactly when stored, otherwise the 404 text naming the id |
| Service.Relay.Sweep | src/main.rs:108-111 | the new state is `Hub.Sweep` of the old one |
| Service.Receiver.Recv | src/main.rs:54 | one receive: the result and the advanced cursor are those of `Hub.Receive` |
| Service.Receiver.Drain | src/main.rs:53-57 | yields exactly the messages unread at the start, in order, and leaves none unread, with the cursor at the end of the log, so a later drain yields exactly the messages sent meanwhile; it reports the end of the stream exactly when the channel is no longer registered |

## Left out

- HTTP routing, the route table, response building and content types: these are
  transport. The request method and the rendered header text are parameters
  of the handlers.
- Argument parsing, the host and port defaults, and the server bind: these are
  configuration and I/O.
- `RwLock` and `Arc` sharing: each handler is modelled as one atomic call.
  Lock poisoning is not modelled. In the code, a handler's lock sections are
  separate:
  - `get_events` writes the store under one lock (src/main.rs:35-38). It does
    the get-or-create under another lock (src/main.rs:40-50), and subscribes
    with no lock held (src/main.rs:52).
  - `callback_handler` stores (src/main.rs:78-81) and publishes
    (src/main.rs:83-85) under separate locks.

  The model merges these sections, so it loses interleavings the program
  allows, such as:
  - (a) A capture can store and send between `get_events`' lines 50 and 52.
    `/latest` then shows that capture, but the new receiver never gets it.
  - (b) Two captures on one id can store in the order C1, C2 and send in the
    order C2, C1. `/latest` then answers C2, while the stream's last event is
    C1.
  - (c) A capture C can store (src/main.rs:80), then `get_events` can write its
    marker (src/main.rs:37), get or create the entry and subscribe
    (src/main.rs:40-52), and only then can C be sent (src/main.rs:83-84). The
    new receiver gets C, but `/latest` answers the `"Identification: "` marker.
    Neither atomic order gives this pair of outcomes.

  `ReceiverGetsLaterCaptures` and `FanOut` (no capture made before a subscribe
  reaches its receiver) assume atomic calls and exclude (a) and (c).
- The spawned cleanup task and its 60-second interval: only one sweep, at an
  explicit `now`, is modelled. A sequence of sweeps is a `Run` over `SweepOp`s.
- The clock: `Instant::now()` is the caller-supplied `now`.
- The broadcast channel's capacity of 100 and its `Lagged` error: the model's
  logs are unbounded, so a slow receiver never misses messages. A `Lagged`
  error would also end the stream at the first receive error; the model only
  ends it on `Closed`.
- A send with no live receivers: tokio drops the message, but the model
  appends it to the log. A receiver starts at the end of its log, so no
  receiver can tell the difference.
- A client disconnecting: dropping a receiver is not modelled. A receiver that
  is never used again has the same effect.
- JSON encoding of the record and the `data: …` framing of each event, and
  the `Debug` rendering of the headers: these are foreign formatting. Headers
  are an opaque string, and `Drain` returns the records, not their text.
