/**
 What two session endpoints have on the way between them: window messages and DATA bytes in the
 channels and in the outbound queues.
 */
module SessionPipes {
  import Q = FairQueue
  import F = FlowControl
  import C = CreditLane
  import opened Session

  // ---------------------------------------------------------------- what is on the way

  predicate Live(st: State) {
    !st.phase.Closed?
  }

  function FrameBodies(frames: seq<Frame>): (r: seq<Body>)
    ensures |r| == |frames|
    ensures forall i :: 0 <= i < |r| ==> r[i] == frames[i].body
  {
    seq(|frames|, i requires 0 <= i < |frames| => frames[i].body)
  }

  function ItemBodies(items: seq<Q.Item<Body>>): (r: seq<Body>)
    ensures |r| == |items|
    ensures forall i :: 0 <= i < |r| ==> r[i] == items[i].body
  {
    seq(|items|, i requires 0 <= i < |items| => items[i].body)
  }

  /** Messages y has committed to and the other side has not taken: those in the channel, then the
      queued control frames, which a closed endpoint will never write. */
  function Outbound(y: State, channel: seq<Frame>): seq<Body> {
    FrameBodies(channel) + if Live(y) then ItemBodies(y.queue.control) else []
  }

  function UpdateOf(b: Body, s: nat): seq<C.Update> {
    if (b.OpenTcp? || b.Opened?) && b.stream == s then [C.Set(b.window)]
    else if b.WindowUpdate? && b.stream == s then [C.Add(b.credit)]
    else []
  }

  function Updates(bodies: seq<Body>, s: nat): seq<C.Update> {
    if bodies == [] then [] else UpdateOf(bodies[0], s) + Updates(bodies[1..], s)
  }

  function Bytes(b: Body): nat {
    if b.Data? then |b.payload| else 0
  }

  function DataOf(b: Body, s: nat): nat {
    if b.Data? && b.stream == s then |b.payload| else 0
  }

  function DataIn(bodies: seq<Body>, s: nat): nat {
    if bodies == [] then 0 else DataOf(bodies[0], s) + DataIn(bodies[1..], s)
  }

  function AllDataIn(bodies: seq<Body>): nat {
    if bodies == [] then 0 else Bytes(bodies[0]) + AllDataIn(bodies[1..])
  }

  /** Credit for the connection window is granted on stream 0. */
  function CreditOf(b: Body): nat {
    if b.WindowUpdate? && b.stream == 0 then b.credit else 0
  }

  function CreditIn(bodies: seq<Body>): nat {
    if bodies == [] then 0 else CreditOf(bodies[0]) + CreditIn(bodies[1..])
  }

  lemma {:induction false} UpdatesConcat(a: seq<Body>, b: seq<Body>, s: nat)
    ensures Updates(a + b, s) == Updates(a, s) + Updates(b, s)
  {
    if a == [] {
      assert a + b == b;
    } else {
      UpdatesConcat(a[1..], b, s);
      assert (a + b)[1..] == a[1..] + b && (a + b)[0] == a[0];
      hide UpdateOf;
      var u, v, w := UpdateOf(a[0], s), Updates(a[1..], s), Updates(b, s);
      assert u + (v + w) == (u + v) + w;
    }
  }

  lemma {:induction false} SumsConcat(a: seq<Body>, b: seq<Body>, s: nat)
    ensures DataIn(a + b, s) == DataIn(a, s) + DataIn(b, s)
    ensures AllDataIn(a + b) == AllDataIn(a) + AllDataIn(b)
    ensures CreditIn(a + b) == CreditIn(a) + CreditIn(b)
  {
    if a == [] {
      assert a + b == b;
    } else {
      SumsConcat(a[1..], b, s);
      assert (a + b)[1..] == a[1..] + b;
    }
  }

  lemma Single(b: Body, s: nat)
    ensures Updates([b], s) == UpdateOf(b, s)
    ensures DataIn([b], s) == DataOf(b, s)
    ensures AllDataIn([b]) == Bytes(b)
    ensures CreditIn([b]) == CreditOf(b)
  {
    assert [b][1..] == [];
  }

  // ---------------------------------------------------------------- queued DATA

  function Weigh(items: seq<Q.Item<Body>>): (r: seq<Q.Item<Body>>)
    ensures |r| == |items|
    ensures forall i :: 0 <= i < |r| ==> r[i] == Q.Item(items[i].body, Bytes(items[i].body))
  {
    seq(|items|, i requires 0 <= i < |items| => Q.Item(items[i].body, Bytes(items[i].body)))
  }

  /** The queue with every frame charged for its DATA bytes only. */
  ghost function Weighed(q: Q.Queue<Body>): Q.Queue<Body> {
    Q.Queue(Weigh(q.control), WeighAll(q.streams), q.active, q.burst)
  }

  ghost function WeighAll(streams: map<nat, seq<Q.Item<Body>>>): map<nat, seq<Q.Item<Body>>> {
    map s | s in streams :: Weigh(streams[s])
  }

  lemma WeighAllUpdate(streams: map<nat, seq<Q.Item<Body>>>, s: nat, items: seq<Q.Item<Body>>)
    ensures WeighAll(streams[s := items]) == WeighAll(streams)[s := Weigh(items)]
    ensures WeighAll(streams - {s}) == WeighAll(streams) - {s}
  {
  }

  ghost function QueuedData(q: Q.Queue<Body>, s: nat): nat {
    Q.SumSizes(Weigh(Q.Pending(q, s)))
  }

  lemma WeighedPending(q: Q.Queue<Body>, s: nat)
    ensures Q.Pending(Weighed(q), s) == Weigh(Q.Pending(q, s))
  {
  }

  lemma WeighPush(items: seq<Q.Item<Body>>, item: Q.Item<Body>)
    ensures Weigh(items + [item]) == Weigh(items) + [Q.Item(item.body, Bytes(item.body))]
  {
  }

  lemma WeighedWellFormed(q: Q.Queue<Body>)
    requires Q.WellFormed(q)
    ensures Q.WellFormed(Weighed(q))
  {
  }

  lemma WeighedPushControl(q: Q.Queue<Body>, item: Q.Item<Body>)
    ensures Weighed(Q.PushControl(q, item)) == Q.PushControl(Weighed(q), Q.Item(item.body, Bytes(item.body)))
  {
    WeighPush(q.control, item);
  }

  lemma WeighedPushStream(q: Q.Queue<Body>, s: nat, item: Q.Item<Body>)
    ensures Weighed(Q.PushStream(q, s, item)) == Q.PushStream(Weighed(q), s, Q.Item(item.body, Bytes(item.body)))
  {
    WeighPush(Q.Pending(q, s), item);
    WeighedPending(q, s);
    WeighAllUpdate(q.streams, s, Q.Pending(q, s) + [item]);
  }

  lemma WeighedRest(q: Q.Queue<Body>)
    requires Q.WellFormed(q) && !Q.Front(q).Nothing?
    ensures Q.WellFormed(Weighed(q)) && Q.WellFormed(Q.Rest(q)) && Q.WellFormed(Weighed(Q.Rest(q)))
    ensures Weighed(Q.Rest(q)) == Q.Rest(Weighed(q))
    ensures Q.Front(Weighed(q)) == var f := Q.Front(q); f.(item := Q.Item(f.item.body, Bytes(f.item.body)))
  {
    WeighedWellFormed(q);
    Q.RestKeeps(q);
    WeighedWellFormed(Q.Rest(q));
    var w := Weighed(q);
    if Q.ControlTurn(q) {
      assert Weigh(q.control[1..]) == Weigh(q.control)[1..];
    } else {
      var s := q.active[0];
      assert s in q.active;
      assert Weigh(q.streams[s][1..]) == w.streams[s][1..];
      WeighAllUpdate(q.streams, s, q.streams[s][1..]);
    }
  }

  lemma WeighedCancel(q: Q.Queue<Body>, s: nat)
    ensures Weighed(Q.Cancel(q, s)) == Q.Cancel(Weighed(q), s)
  {
    WeighAllUpdate(q.streams, s, []);
  }

  /** All DATA bytes queued by an endpoint. */
  ghost function Load(q: Q.Queue<Body>): nat
    requires Q.WellFormed(q)
  {
    WeighedWellFormed(q);
    Q.TotalBytes(Weighed(q))
  }

  lemma LoadPushControl(q: Q.Queue<Body>, item: Q.Item<Body>)
    requires Q.WellFormed(q) && !item.body.Data?
    ensures Q.WellFormed(Q.PushControl(q, item))
    ensures Load(Q.PushControl(q, item)) == Load(q)
  {
    Q.PushControlKeeps(q, item);
    WeighedWellFormed(q);
    WeighedPushControl(q, item);
    Q.PushControlKeeps(Weighed(q), Q.Item(item.body, Bytes(item.body)));
  }

  lemma LoadPushStream(q: Q.Queue<Body>, s: nat, item: Q.Item<Body>)
    requires Q.WellFormed(q)
    ensures Q.WellFormed(Q.PushStream(q, s, item))
    ensures Load(Q.PushStream(q, s, item)) == Load(q) + Bytes(item.body)
    ensures forall t: nat :: QueuedData(Q.PushStream(q, s, item), t)
                          == QueuedData(q, t) + (if t == s then Bytes(item.body) else 0)
  {
    Q.PushStreamKeeps(q, s, item);
    WeighedWellFormed(q);
    WeighedPushStream(q, s, item);
    var w := Q.Item(item.body, Bytes(item.body));
    Q.PushStreamKeeps(Weighed(q), s, w);
    WeighPush(Q.Pending(q, s), item);
    Q.SumSizesPush(Weigh(Q.Pending(q, s)), w);
  }

  lemma LoadRest(q: Q.Queue<Body>)
    requires Q.WellFormed(q) && !Q.Front(q).Nothing?
    ensures Q.WellFormed(Q.Rest(q))
    ensures Load(Q.Rest(q)) == Load(q) - Bytes(Q.Front(q).item.body)
  {
    WeighedRest(q);
    Q.RestKeeps(Weighed(q));
  }

  lemma QueuedDataRest(q: Q.Queue<Body>, t: nat)
    requires Q.WellFormed(q) && !Q.Front(q).Nothing?
    ensures QueuedData(Q.Rest(q), t)
         == QueuedData(q, t) - (if Q.Front(q).FromStream? && Q.Front(q).stream == t then Bytes(Q.Front(q).item.body) else 0)
  {
    if Q.Front(q).FromStream? && Q.Front(q).stream == t {
      assert t in q.active;
      var items := q.streams[t];
      assert Weigh(items)[1..] == Weigh(items[1..]);
      assert Q.Pending(Q.Rest(q), t) == items[1..];
    }
  }

  lemma LoadCancel(q: Q.Queue<Body>, s: nat)
    requires Q.WellFormed(q)
    ensures Q.WellFormed(Q.Cancel(q, s))
    ensures Load(Q.Cancel(q, s)) == Load(q) - QueuedData(q, s)
    ensures forall t: nat :: QueuedData(Q.Cancel(q, s), t) == if t == s then 0 else QueuedData(q, t)
  {
    Q.CancelKeeps(q, s);
    WeighedWellFormed(q);
    WeighedCancel(q, s);
    WeighedPending(q, s);
    Q.CancelKeeps(Weighed(q), s);
  }
}
