/**
 The relay's state as a value, and each handler as a function from the state
 before to the state after. This is the specification the `Service` classes
 are proved against, and the `HubProperties` lemmas reason about it.

 A broadcast channel is an abstract number: `logs[c]` is every message sent
 on channel `c`, in send order. The registry maps an identification to the
 channel it currently publishes on and the instant that entry was created.
 A receiver is a position in one channel's log.
 */
module Hub {
  import opened Records

  /** `Instant` differences are compared at nanosecond resolution. */
  const NanosPerSecond: nat := 1_000_000_000

  /** A registry entry survives a sweep only while it is younger than 300 seconds. */
  const ChannelTtl: nat := 300 * NanosPerSecond

  type ChannelId = nat

  /** A registry entry: the broadcast sender (named by its channel) and its creation instant. */
  datatype Entry = Entry(channel: ChannelId, created: nat)

  datatype State = State(
    store: map<string, RequestInfo>,
    registry: map<string, Entry>,
    logs: seq<seq<RequestInfo>>)

  /** Both tables empty, no channel created yet. */
  const Initial: State := State(map[], map[], [])

  /** Where a receiver stands: its channel and the index of the next message it will get. */
  datatype Cursor = Cursor(channel: ChannelId, next: nat)

  /** One `recv`: a message, nothing yet (the receiver would wait), or the end of the stream. */
  datatype RecvResult = Received(info: RequestInfo) | Pending | Closed

  /** Every registered channel exists, and no two identifications share a channel. */
  predicate WellFormed(s: State)
  {
    && (forall id :: id in s.registry ==> s.registry[id].channel < |s.logs|)
    && (forall a, b :: a in s.registry && b in s.registry && a != b ==>
          s.registry[a].channel != s.registry[b].channel)
  }

  /** Channel `ch` still has its sender in the registry, so it is open. */
  predicate Attached(s: State, ch: ChannelId)
  {
    exists id | id in s.registry :: s.registry[id].channel == ch
  }

  /** Elapsed time from `created` to `now`, zero when `created` is later. */
  function Age(now: nat, created: nat): (a: nat)
    ensures created <= now ==> created + a == now
    ensures a == 0 <==> now <= created
  {
    if created <= now then now - created else 0
  }

  /** The retain condition of the sweep: strictly younger than the TTL. */
  predicate Live(e: Entry, now: nat)
    ensures Live(e, now) <==> now < e.created + ChannelTtl
  {
    Age(now, e.created) < ChannelTtl
  }

  /** The latest-value lookup. */
  function Lookup(s: State, id: string): (r: Latest)
    ensures r.Found? <==> id in s.store
    ensures r.Found? ==> r.info == s.store[id]
    ensures r.NotFound? ==> r.message == NotFoundPrefix + id
    ensures r.NotFound? ==> r.message[|NotFoundPrefix|..] == id
  {
    if id in s.store then Found(s.store[id]) else NotFound(NotFoundMessage(id))
  }

  /** A capture: the new record replaces the latest value for `id`, and is sent on
      `id`'s channel only when `id` already has a registry entry. */
  function Capture(s: State, id: string, httpMethod: string, headers: string, body: string): (t: State)
    requires WellFormed(s)
    ensures WellFormed(t)
    ensures Lookup(t, id) == Found(CaptureRecord(httpMethod, headers, body))
    ensures forall other :: other != id ==> Lookup(t, other) == Lookup(s, other)
    ensures t.registry == s.registry
    ensures |t.logs| == |s.logs|
    ensures forall ch :: 0 <= ch < |s.logs| ==>
              t.logs[ch] == if id in s.registry && s.registry[id].channel == ch
                            then s.logs[ch] + [CaptureRecord(httpMethod, headers, body)]
                            else s.logs[ch]
  {
    var info := CaptureRecord(httpMethod, headers, body);
    var logs := if id in s.registry then
                  var ch := s.registry[id].channel;
                  s.logs[ch := s.logs[ch] + [info]]
                else s.logs;
    State(s.store[id := info], s.registry, logs)
  }

  /** A subscribe: overwrites the latest value for `id` with a marker record, gets
      `id`'s registry entry or creates it on a fresh channel stamped `now`, and
      returns a receiver placed at the end of that channel's log. */
  function Subscribe(s: State, id: string, httpMethod: string, headers: string, now: nat): (r: (State, Cursor))
    requires WellFormed(s)
    ensures WellFormed(r.0)
    ensures Lookup(r.0, id) == Found(SubscribeRecord(id, httpMethod, headers))
    ensures forall other :: other != id ==> Lookup(r.0, other) == Lookup(s, other)
    ensures id in s.registry ==> r.0.registry == s.registry && r.0.logs == s.logs
    ensures id !in s.registry ==>
              && !Attached(s, |s.logs|)
              && r.0.registry == s.registry[id := Entry(|s.logs|, now)]
              && r.0.logs == s.logs + [[]]
    ensures id in r.0.registry && r.1.channel == r.0.registry[id].channel
    ensures r.1.channel < |r.0.logs| && r.1.next == |r.0.logs[r.1.channel]|
  {
    var store := s.store[id := SubscribeRecord(id, httpMethod, headers)];
    var (registry, logs) :=
      if id in s.registry then (s.registry, s.logs)
      else (s.registry[id := Entry(|s.logs|, now)], s.logs + [[]]);
    var ch := registry[id].channel;
    (State(store, registry, logs), Cursor(ch, |logs[ch]|))
  }

  /** A sweep at `now` keeps exactly the registry entries younger than the TTL. */
  function Sweep(s: State, now: nat): (t: State)
    ensures t.store == s.store && t.logs == s.logs
    ensures forall id :: id in t.registry <==> id in s.registry && Live(s.registry[id], now)
    ensures forall id :: id in t.registry ==> t.registry[id] == s.registry[id]
    ensures WellFormed(s) ==> WellFormed(t)
  {
    s.(registry := map id | id in s.registry && Live(s.registry[id], now) :: s.registry[id])
  }

  /** The messages a receiver at `c` has yet to take, in send order. */
  function Unread(s: State, c: Cursor): seq<RequestInfo>
    requires c.channel < |s.logs|
  {
    var log := s.logs[c.channel];
    if c.next <= |log| then log[c.next..] else []
  }

  /** One receive: the next unread message, else wait while the channel is open,
      else the stream ends. */
  function Receive(s: State, c: Cursor): (r: (RecvResult, Cursor))
    requires c.channel < |s.logs|
    ensures r.1.channel == c.channel
    ensures Unread(s, c) != [] ==>
              r.0 == Received(Unread(s, c)[0]) && Unread(s, r.1) == Unread(s, c)[1..]
    ensures Unread(s, c) == [] ==> r.1 == c && (r.0 == Closed <==> !Attached(s, c.channel))
    ensures Unread(s, c) == [] ==> (r.0 == Pending <==> Attached(s, c.channel))
  {
    var log := s.logs[c.channel];
    if c.next < |log| then (Received(log[c.next]), Cursor(c.channel, c.next + 1))
    else if Attached(s, c.channel) then (Pending, c)
    else (Closed, c)
  }

  /** A message received is the first unread one, and the rest stay unread. */
  lemma ReceiveTakesFirst(s: State, c: Cursor)
    requires c.channel < |s.logs| && Receive(s, c).0.Received?
    ensures Unread(s, c) == [Receive(s, c).0.info] + Unread(s, Receive(s, c).1)
  {
  }

  lemma AppendAssoc<T>(a: seq<T>, b: seq<T>, c: seq<T>)
    ensures (a + b) + c == a + (b + c)
  {
  }

  /** A handler call that changes the shared tables. Lookups and receives do not. */
  datatype Op =
    | CaptureOp(id: string, httpMethod: string, headers: string, body: string)
    | SubscribeOp(id: string, httpMethod: string, headers: string, now: nat)
    | SweepOp(now: nat)

  function Step(s: State, op: Op): (t: State)
    requires WellFormed(s)
    ensures WellFormed(t)
  {
    match op
    case CaptureOp(id, m, h, b) => Capture(s, id, m, h, b)
    case SubscribeOp(id, m, h, now) => Subscribe(s, id, m, h, now).0
    case SweepOp(now) => Sweep(s, now)
  }

  /** The state after the handler calls `ops`, each modelled as atomic, in order. */
  function Run(s: State, ops: seq<Op>): (t: State)
    requires WellFormed(s)
    ensures WellFormed(t)
    decreases |ops|
  {
    if ops == [] then s else Run(Step(s, ops[0]), ops[1..])
  }
}
