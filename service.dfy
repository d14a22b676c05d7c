/**
 The running service: one object owning the latest-value store and the
 channel registry, whose methods are the handlers, and one object per open
 event stream. Each handler is modelled as one atomic call; every method is proved
 against the `Hub` function of the same name.
 */
module Service {
  import opened Records
  import opened Hub

  class Relay {
    /** The latest record per identification. */
    var store: map<string, RequestInfo>
    /** Per identification: the channel its sender publishes on, and when the entry was created. */
    var registry: map<string, Entry>
    /** Per channel ever created, every message sent on it. */
    var logs: seq<seq<RequestInfo>>

    function Model(): State
      reads this
    {
      State(store, registry, logs)
    }

    predicate Valid()
      reads this
    {
      WellFormed(Model())
    }

    constructor ()
      ensures Valid() && Model() == Initial
    {
      store := map[];
      registry := map[];
      logs := [];
    }

    /** The capture handler: store, publish if someone registered `id`, echo. */
    method Capture(id: string, httpMethod: string, headers: string, body: string) returns (info: RequestInfo)
      requires Valid()
      modifies this
      ensures Valid()
      ensures info == CaptureRecord(httpMethod, headers, body)
      ensures Lookup(Model(), id) == Found(info)
      ensures Model() == Hub.Capture(old(Model()), id, httpMethod, headers, body)
    {
      info := CaptureRecord(httpMethod, headers, body);
      store := store[id := info];
      if id in registry {
        var ch := registry[id].channel;
        logs := logs[ch := logs[ch] + [info]];
      }
    }

    /** The event-stream handler up to the stream itself: store the marker record,
        get or create `id`'s entry, and subscribe a new receiver to its channel. */
    method Subscribe(id: string, httpMethod: string, headers: string, now: nat) returns (rx: Receiver)
      requires Valid()
      modifies this
      ensures Valid() && fresh(rx) && rx.hub == this
      ensures Model() == Hub.Subscribe(old(Model()), id, httpMethod, headers, now).0
      ensures rx.Position() == Hub.Subscribe(old(Model()), id, httpMethod, headers, now).1
    {
      store := store[id := SubscribeRecord(id, httpMethod, headers)];
      if id !in registry {
        registry := registry[id := Entry(|logs|, now)];
        logs := logs + [[]];
      }
      var ch := registry[id].channel;
      rx := new Receiver(this, ch, |logs[ch]|);
    }

    /** The latest-value handler; reads only. */
    method GetLatest(id: string) returns (r: Latest)
      ensures r == Lookup(Model(), id)
      ensures r.Found? <==> id in store
      ensures r.NotFound? ==> r.message == NotFoundPrefix + id
    {
      if id in store {
        r := Found(store[id]);
      } else {
        r := NotFound(NotFoundMessage(id));
      }
    }

    /** One tick of the cleanup task: retain the entries younger than the TTL. */
    method Sweep(now: nat)
      requires Valid()
      modifies this
      ensures Valid()
      ensures Model() == Hub.Sweep(old(Model()), now)
    {
      registry := map id | id in registry && Live(registry[id], now) :: registry[id];
    }
  }

  /** A subscribed receiver, bound to the relay that created it; it keeps
      working after its registry entry is swept. Receivers are obtained only
      through `Relay.Subscribe`, which places the cursor at the end of the
      channel's log; the constructor is its building block, and a receiver
      built directly at an earlier cursor would replay history that no
      subscriber can see. */
  class Receiver {
    const hub: Relay
    const channel: ChannelId
    var cursor: nat

    function Position(): Cursor
      reads this
    {
      Cursor(channel, cursor)
    }

    constructor (hub: Relay, channel: ChannelId, cursor: nat)
      ensures this.hub == hub && Position() == Cursor(channel, cursor)
    {
      this.hub := hub;
      this.channel := channel;
      this.cursor := cursor;
    }

    /** One `recv` on this receiver. */
    method Recv() returns (r: RecvResult)
      requires channel < |hub.logs|
      modifies this
      ensures (r, Position()) == Receive(hub.Model(), old(Position()))
    {
      var log := hub.logs[channel];
      if cursor < |log| {
        r := Received(log[cursor]);
        cursor := cursor + 1;
      } else if exists id | id in hub.registry :: hub.registry[id].channel == channel {
        r := Pending;
      } else {
        r := Closed;
      }
    }

    /** The stream's receive loop, run until it would wait or the stream ends:
        `events` are the records it yields, one event each, and `ended` says
        the stream is over. */
    method Drain() returns (events: seq<RequestInfo>, ended: bool)
      requires channel < |hub.logs|
      modifies this
      ensures events == old(Unread(hub.Model(), Position()))
      ensures Unread(hub.Model(), Position()) == []
      ensures old(cursor) <= |hub.logs[channel]| ==> cursor == |hub.logs[channel]|
      ensures ended <==> !Attached(hub.Model(), channel)
    {
      ghost var unread := Unread(hub.Model(), Position());
      events := [];
      while true
        invariant channel < |hub.logs| && hub.Model() == old(hub.Model())
        invariant unread == events + Unread(hub.Model(), Position())
        invariant old(cursor) <= |hub.logs[channel]| ==> cursor <= |hub.logs[channel]|
        decreases |Unread(hub.Model(), Position())|
      {
        ghost var before := Position();
        var r := Recv();
        if !r.Received? {
          ended := r.Closed?;
          return;
        }
        ReceiveTakesFirst(hub.Model(), before);
        AppendAssoc(events, [r.info], Unread(hub.Model(), Position()));
        events := events + [r.info];
      }
    }
  }
}
