/**
 What the relay promises over any sequence of handler calls: the latest value
 is the last write, receivers get exactly the captures sent after they
 subscribed and while their entry lived, and a swept channel is cut off.
 */
module HubProperties {
  import opened Records
  import opened Hub

  /** `op` overwrites the latest value stored for `id`. */
  predicate Writes(op: Op, id: string)
  {
    match op
    case CaptureOp(x, _, _, _) => x == id
    case SubscribeOp(x, _, _, _) => x == id
    case SweepOp(_) => false
  }

  /** The record `op` sends under `id`, if it is a capture under `id`. */
  function PublishedBy(op: Op, id: string): seq<RequestInfo>
  {
    match op
    case CaptureOp(x, m, h, b) => if x == id then [CaptureRecord(m, h, b)] else []
    case _ => []
  }

  /** The records the captures in `ops` send under `id`, in order. */
  function Published(ops: seq<Op>, id: string): seq<RequestInfo>
  {
    if ops == [] then [] else PublishedBy(ops[0], id) + Published(ops[1..], id)
  }

  /** No sweep in `ops` is late enough to remove entry `e`. */
  predicate Survives(e: Entry, ops: seq<Op>)
  {
    forall i :: 0 <= i < |ops| && ops[i].SweepOp? ==> Live(e, ops[i].now)
  }

  lemma {:induction false} RunAppend(s: State, a: seq<Op>, b: seq<Op>)
    requires WellFormed(s)
    ensures Run(s, a + b) == Run(Run(s, a), b)
    decreases |a|
  {
    if a == [] {
      assert a + b == b;
    } else {
      assert (a + b)[0] == a[0];
      assert (a + b)[1..] == a[1..] + b;
      RunAppend(Step(s, a[0]), a[1..], b);
    }
  }

  /** Calls that do not write `id` leave its latest value as it was. */
  lemma {:induction false} LatestUntouched(s: State, ops: seq<Op>, id: string)
    requires WellFormed(s)
    requires forall i :: 0 <= i < |ops| ==> !Writes(ops[i], id)
    ensures Lookup(Run(s, ops), id) == Lookup(s, id)
    decreases |ops|
  {
    if ops != [] {
      assert !Writes(ops[0], id);
      var t := Step(s, ops[0]);
      assert Lookup(t, id) == Lookup(s, id);
      LatestUntouched(t, ops[1..], id);
    }
  }

  /** A lookup answers the last capture for `id`, whatever came before it and
      whatever came after it that did not write `id`. */
  lemma LatestIsLastCapture(s: State, before: seq<Op>, id: string, httpMethod: string, headers: string,
                            body: string, after: seq<Op>)
    requires WellFormed(s)
    requires forall i :: 0 <= i < |after| ==> !Writes(after[i], id)
    ensures Lookup(Run(s, before + [CaptureOp(id, httpMethod, headers, body)] + after), id)
            == Found(CaptureRecord(httpMethod, headers, body))
  {
    var c := [CaptureOp(id, httpMethod, headers, body)];
    RunAppend(s, before + c, after);
    RunAppend(s, before, c);
    var mid := Run(s, before);
    assert Run(mid, c) == Run(Step(mid, c[0]), []);
    LatestUntouched(Run(mid, c), after, id);
  }

  /** An identification nobody wrote is answered with the 404 text naming it. */
  lemma NeverWrittenIsNotFound(ops: seq<Op>, id: string)
    requires forall i :: 0 <= i < |ops| ==> !Writes(ops[i], id)
    ensures Lookup(Run(Initial, ops), id) == NotFound(NotFoundPrefix + id)
  {
    LatestUntouched(Initial, ops, id);
  }

  /** Logs are append-only: no call removes or rewrites a sent message. */
  lemma {:induction false} LogsOnlyGrow(s: State, ops: seq<Op>)
    requires WellFormed(s)
    ensures |s.logs| <= |Run(s, ops).logs|
    ensures forall ch :: 0 <= ch < |s.logs| ==> s.logs[ch] <= Run(s, ops).logs[ch]
    decreases |ops|
  {
    if ops != [] {
      var t := Step(s, ops[0]);
      assert |s.logs| <= |t.logs|;
      assert forall ch :: 0 <= ch < |s.logs| ==> s.logs[ch] <= t.logs[ch];
      LogsOnlyGrow(t, ops[1..]);
    }
  }

  /** One call against a channel with no registry entry: it gets none, and no message. */
  lemma StepKeepsDetached(s: State, op: Op, ch: ChannelId)
    requires WellFormed(s) && ch < |s.logs| && !Attached(s, ch)
    ensures ch < |Step(s, op).logs| && !Attached(Step(s, op), ch)
    ensures Step(s, op).logs[ch] == s.logs[ch]
  {
    var t := Step(s, op);
    match op
    case CaptureOp(id, m, h, b) =>
      assert forall x :: x in t.registry ==> t.registry[x].channel != ch;
    case SubscribeOp(id, m, h, now) =>
      assert forall x :: x in t.registry ==> t.registry[x].channel != ch by {
        forall x | x in t.registry ensures t.registry[x].channel != ch {
          if x in s.registry {
            assert t.registry[x] == s.registry[x];
          }
        }
      }
    case SweepOp(now) =>
  }

  /** Once no registry entry refers to a channel, no later call sends on it or
      re-attaches it: its log is final. */
  lemma {:induction false} DetachedChannelFrozen(s: State, ops: seq<Op>, ch: ChannelId)
    requires WellFormed(s) && ch < |s.logs| && !Attached(s, ch)
    ensures ch < |Run(s, ops).logs| && !Attached(Run(s, ops), ch)
    ensures Run(s, ops).logs[ch] == s.logs[ch]
    decreases |ops|
  {
    if ops != [] {
      StepKeepsDetached(s, ops[0], ch);
      DetachedChannelFrozen(Step(s, ops[0]), ops[1..], ch);
    }
  }

  /** One call, while `id`'s entry survives it: the entry stays as it is, and its
      channel gets exactly what this call publishes under `id`. */
  lemma StepOnLiveEntry(s: State, op: Op, id: string)
    requires WellFormed(s) && id in s.registry
    requires op.SweepOp? ==> Live(s.registry[id], op.now)
    ensures var t := Step(s, op);
            && id in t.registry && t.registry[id] == s.registry[id]
            && t.logs[s.registry[id].channel] == s.logs[s.registry[id].channel] + PublishedBy(op, id)
  {
    var ch := s.registry[id].channel;
    var t := Step(s, op);
    match op
    case CaptureOp(x, m, h, b) =>
      if x != id && x in s.registry {
        assert s.registry[x].channel != ch;
      }
    case SubscribeOp(x, m, h, now) =>
    case SweepOp(now) =>
  }

  lemma SurvivesTail(e: Entry, ops: seq<Op>)
    requires ops != [] && Survives(e, ops)
    ensures Survives(e, ops[1..])
  {
    forall i | 0 <= i < |ops| - 1 && ops[1..][i].SweepOp? ensures Live(e, ops[1..][i].now) {
      assert ops[1..][i] == ops[i + 1];
    }
  }

  /** While `id`'s entry survives, its channel receives every capture under `id`,
      in call order, and nothing else; the entry's channel and creation time stay. */
  lemma {:induction false} LiveChannelGetsPublished(s: State, ops: seq<Op>, id: string)
    requires WellFormed(s) && id in s.registry && Survives(s.registry[id], ops)
    ensures id in Run(s, ops).registry && Run(s, ops).registry[id] == s.registry[id]
    ensures Run(s, ops).logs[s.registry[id].channel]
            == s.logs[s.registry[id].channel] + Published(ops, id)
    decreases |ops|
  {
    if ops != [] {
      var e := s.registry[id];
      var t := Step(s, ops[0]);
      StepOnLiveEntry(s, ops[0], id);
      SurvivesTail(e, ops);
      LiveChannelGetsPublished(t, ops[1..], id);
      RunCons(s, ops);
      AppendAssoc(s.logs[e.channel], PublishedBy(ops[0], id), Published(ops[1..], id));
    }
  }

  lemma RunCons(s: State, ops: seq<Op>)
    requires WellFormed(s) && ops != []
    ensures Run(s, ops) == Run(Step(s, ops[0]), ops[1..])
  {
  }

  /** A receiver gets exactly the captures under `id` made after it subscribed,
      in order, for as long as `id`'s entry lives: none from before (no replay),
      and none missing. */
  lemma ReceiverGetsLaterCaptures(s: State, id: string, httpMethod: string, headers: string, now: nat,
                                  ops: seq<Op>)
    requires WellFormed(s)
    requires var t := Subscribe(s, id, httpMethod, headers, now).0; Survives(t.registry[id], ops)
    ensures var (t, rx) := Subscribe(s, id, httpMethod, headers, now);
            rx.channel < |Run(t, ops).logs| && Unread(Run(t, ops), rx) == Published(ops, id)
  {
    var (t, rx) := Subscribe(s, id, httpMethod, headers, now);
    LiveChannelGetsPublished(t, ops, id);
  }

  /** A receiver positioned after `prefix` has exactly `extra` left to read. */
  lemma UnreadIsSuffix(w: State, c: Cursor, prefix: seq<RequestInfo>, extra: seq<RequestInfo>)
    requires c.channel < |w.logs| && w.logs[c.channel] == prefix + extra && c.next == |prefix|
    ensures Unread(w, c) == extra
  {
    assert (prefix + extra)[|prefix|..] == extra;
  }

  lemma SurvivesAround(e: Entry, a: seq<Op>, op: Op, b: seq<Op>)
    requires Survives(e, a + [op] + b)
    ensures Survives(e, a) && Survives(e, b)
  {
    var all := a + [op] + b;
    forall i | 0 <= i < |a| && a[i].SweepOp? ensures Live(e, a[i].now) {
      assert all[i] == a[i];
    }
    forall i | 0 <= i < |b| && b[i].SweepOp? ensures Live(e, b[i].now) {
      assert all[|a| + 1 + i] == b[i];
    }
  }

  /** Fan-out: a receiver that subscribed earlier and one that subscribed later
      share one channel; both get every capture after the later subscribe, and
      the later one gets none of those before it. */
  lemma FanOut(s: State, id: string, m1: string, h1: string, now1: nat, between: seq<Op>,
               m2: string, h2: string, now2: nat, ops: seq<Op>)
    requires WellFormed(s)
    requires var t := Subscribe(s, id, m1, h1, now1).0;
             Survives(t.registry[id], between + [SubscribeOp(id, m2, h2, now2)] + ops)
    ensures var (t1, rx1) := Subscribe(s, id, m1, h1, now1);
            var (t2, rx2) := Subscribe(Run(t1, between), id, m2, h2, now2);
            var w := Run(t2, ops);
            && rx1.channel == rx2.channel && rx1.channel < |w.logs|
            && Unread(w, rx2) == Published(ops, id)
            && Unread(w, rx1) == Published(between, id) + Published(ops, id)
  {
    var (t1, rx1) := Subscribe(s, id, m1, h1, now1);
    var e := t1.registry[id];
    SurvivesAround(e, between, SubscribeOp(id, m2, h2, now2), ops);
    LiveChannelGetsPublished(t1, between, id);
    var u := Run(t1, between);
    var (t2, rx2) := Subscribe(u, id, m2, h2, now2);
    LiveChannelGetsPublished(t2, ops, id);
    var w := Run(t2, ops);
    UnreadIsSuffix(w, rx2, u.logs[e.channel], Published(ops, id));
    AppendAssoc(t1.logs[e.channel], Published(between, id), Published(ops, id));
    UnreadIsSuffix(w, rx1, t1.logs[e.channel], Published(between, id) + Published(ops, id));
  }

  /** The timestamp is the creation instant, never refreshed: an entry is removed
      by the first sweep at least 300 seconds after it was created, however many
      captures and subscribes used it in between. */
  lemma ActivityDoesNotExtendLifetime(s: State, id: string, httpMethod: string, headers: string,
                                      now: nat, ops: seq<Op>, later: nat)
    requires WellFormed(s) && id !in s.registry
    requires var t := Subscribe(s, id, httpMethod, headers, now).0; Survives(t.registry[id], ops)
    requires later >= now + ChannelTtl
    ensures id !in Sweep(Run(Subscribe(s, id, httpMethod, headers, now).0, ops), later).registry
  {
    var t := Subscribe(s, id, httpMethod, headers, now).0;
    LiveChannelGetsPublished(t, ops, id);
    assert Run(t, ops).registry[id].created == now;
  }

  /** After a sweep removes `id`'s entry, a receiver on the old channel gets what
      was already sent and then the end of the stream; later calls under `id` go
      to another channel and never reach it. */
  lemma SweepCutsOffOldReceivers(s: State, id: string, now: nat, ops: seq<Op>, rx: Cursor)
    requires WellFormed(s) && id in s.registry && !Live(s.registry[id], now)
    requires rx.channel == s.registry[id].channel
    ensures var w := Run(Sweep(s, now), ops);
            && rx.channel < |w.logs|
            && Unread(w, rx) == Unread(s, rx)
            && (Unread(s, rx) == [] ==> Receive(w, rx).0 == Closed)
            && (id in w.registry ==> w.registry[id].channel != rx.channel)
  {
    var t := Sweep(s, now);
    assert !Attached(t, rx.channel) by {
      forall x | x in t.registry ensures t.registry[x].channel != rx.channel {
        assert x != id;
      }
    }
    DetachedChannelFrozen(t, ops, rx.channel);
  }

  /** Sweeping twice at the same instant removes nothing more. */
  lemma SweepIdempotent(s: State, now: nat)
    ensures Sweep(Sweep(s, now), now) == Sweep(s, now)
  {
  }

  /** A later sweep removes everything an earlier one did, so an earlier sweep
      makes no difference to the outcome of a later one. */
  lemma LaterSweepSubsumes(s: State, earlier: nat, later: nat)
    requires earlier <= later
    ensures Sweep(Sweep(s, earlier), later) == Sweep(s, later)
  {
  }
}
