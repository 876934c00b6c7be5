/**
 The specification shared by the two fair schedulers of the system: the session scheduler
 of the gateway protocol and the relay multiplexer of the multi-hop gateway.  A queue is a
 control FIFO, one FIFO per stream, and the round-robin order of the non-empty streams.
 */
module FairQueue {

  const USIZE_MAX: nat := 0xFFFF_FFFF_FFFF_FFFF
  const CONTROL_BURST: nat := 8

  /** A queued frame together with the number of bytes it is charged for. */
  datatype Item<+T> = Item(body: T, size: nat)

  datatype Limits = Limits(maxBytes: nat, maxStreamBytes: nat, maxControl: nat)

  datatype Refusal = Backpressure | IntegerOverflow | InvalidField | ProtocolViolation

  datatype Outcome = Accepted | Refused(reason: Refusal)

  datatype Queue<+T> = Queue(
    control: seq<Item<T>>,
    streams: map<nat, seq<Item<T>>>,
    active: seq<nat>,
    burst: nat)

  /** What one pop hands out, and from which FIFO. */
  datatype Popped<+T> = Nothing | FromControl(item: Item<T>) | FromStream(stream: nat, item: Item<T>)

  // ---------------------------------------------------------------- well-formedness

  ghost predicate NoDuplicates<A>(s: seq<A>) {
    forall i, j :: 0 <= i < j < |s| ==> s[i] != s[j]
  }

  /** `active` lists exactly the streams that have something queued, once each. */
  ghost predicate WellFormed<T>(q: Queue<T>) {
    && NoDuplicates(q.active)
    && (forall s :: s in q.active <==> s in q.streams)
    && (forall s :: s in q.streams ==> q.streams[s] != [])
  }

  function Pending<T>(q: Queue<T>, stream: nat): seq<Item<T>> {
    if stream in q.streams then q.streams[stream] else []
  }

  ghost predicate Empty<T>(q: Queue<T>) {
    && q.control == []
    && forall s: nat :: Pending(q, s) == []
  }

  // ---------------------------------------------------------------- byte accounting

  function SumSizes<T>(items: seq<Item<T>>): nat {
    if items == [] then 0 else items[0].size + SumSizes(items[1..])
  }

  ghost function SumStreams<T>(order: seq<nat>, streams: map<nat, seq<Item<T>>>): nat
    requires forall s :: s in order ==> s in streams
  {
    if order == [] then 0 else SumSizes(streams[order[0]]) + SumStreams(order[1..], streams)
  }

  ghost function TotalBytes<T>(q: Queue<T>): nat
    requires WellFormed(q)
  {
    SumSizes(q.control) + SumStreams(q.active, q.streams)
  }

  lemma {:induction false} SumSizesConcat<T>(a: seq<Item<T>>, b: seq<Item<T>>)
    ensures SumSizes(a + b) == SumSizes(a) + SumSizes(b)
  {
    if a == [] {
      assert a + b == b;
    } else {
      SumSizesConcat(a[1..], b);
      assert (a + b)[1..] == a[1..] + b;
    }
  }

  lemma SumSizesPush<T>(a: seq<Item<T>>, item: Item<T>)
    ensures SumSizes(a + [item]) == SumSizes(a) + item.size
  {
    SumSizesConcat(a, [item]);
  }

  lemma {:induction false} SumStreamsConcat<T>(a: seq<nat>, b: seq<nat>, streams: map<nat, seq<Item<T>>>)
    requires forall s :: s in a ==> s in streams
    requires forall s :: s in b ==> s in streams
    ensures forall s :: s in a + b ==> s in streams
    ensures SumStreams(a + b, streams) == SumStreams(a, streams) + SumStreams(b, streams)
  {
    if a == [] {
      assert a + b == b;
    } else {
      SumStreamsConcat(a[1..], b, streams);
      assert (a + b)[1..] == a[1..] + b;
    }
  }

  /** The sum depends only on the queues of the streams it ranges over. */
  lemma {:induction false} SumStreamsFrame<T>(order: seq<nat>, m: map<nat, seq<Item<T>>>, n: map<nat, seq<Item<T>>>)
    requires forall s :: s in order ==> s in m && s in n && m[s] == n[s]
    ensures SumStreams(order, m) == SumStreams(order, n)
  {
    if order != [] {
      SumStreamsFrame(order[1..], m, n);
    }
  }

  /** Changing the queue of one listed stream changes the sum by the difference of that queue. */
  lemma {:induction false} SumStreamsUpdate<T>(order: seq<nat>, m: map<nat, seq<Item<T>>>, stream: nat,
                                               queue: seq<Item<T>>)
    requires NoDuplicates(order) && stream in order
    requires forall s :: s in order ==> s in m
    ensures SumStreams(order, m[stream := queue]) + SumSizes(m[stream]) == SumStreams(order, m) + SumSizes(queue)
  {
    if order[0] == stream {
      SumStreamsFrame(order[1..], m, m[stream := queue]);
    } else {
      SumStreamsUpdate(order[1..], m, stream, queue);
    }
  }

  // ---------------------------------------------------------------- operations

  function PushControl<T>(q: Queue<T>, item: Item<T>): Queue<T> {
    q.(control := q.control + [item])
  }

  function PushStream<T>(q: Queue<T>, stream: nat, item: Item<T>): Queue<T> {
    q.(streams := q.streams[stream := Pending(q, stream) + [item]],
       active := if stream in q.streams then q.active else q.active + [stream])
  }

  /** The control FIFO goes first for at most eight frames in a row while a stream waits. */
  predicate ControlTurn<T>(q: Queue<T>) {
    q.control != [] && (q.burst < CONTROL_BURST || q.active == [])
  }

  function Front<T>(q: Queue<T>): Popped<T>
    requires WellFormed(q)
  {
    if ControlTurn(q) then FromControl(q.control[0])
    else if q.active != [] then
      assert q.active[0] in q.active;
      FromStream(q.active[0], q.streams[q.active[0]][0])
    else Nothing
  }

  function Rest<T>(q: Queue<T>): Queue<T>
    requires WellFormed(q)
  {
    if ControlTurn(q) then q.(control := q.control[1..], burst := q.burst + 1)
    else if q.active != [] then
      var stream := q.active[0];
      assert stream in q.active;
      var tail := q.streams[stream][1..];
      if tail != [] then
        q.(streams := q.streams[stream := tail], active := q.active[1..] + [stream], burst := 0)
      else
        q.(streams := q.streams - {stream}, active := q.active[1..], burst := 0)
    else q
  }

  function Without(s: seq<nat>, x: nat): seq<nat> {
    if s == [] then []
    else if s[0] == x then Without(s[1..], x)
    else [s[0]] + Without(s[1..], x)
  }

  function Cancel<T>(q: Queue<T>, stream: nat): Queue<T> {
    q.(streams := q.streams - {stream}, active := Without(q.active, stream))
  }

  // ---------------------------------------------------------------- `Without`

  lemma {:induction false} WithoutMembers(s: seq<nat>, x: nat)
    ensures forall y :: y in Without(s, x) <==> y in s && y != x
  {
    if s != [] {
      WithoutMembers(s[1..], x);
      assert s == [s[0]] + s[1..];
    }
  }

  lemma {:induction false} WithoutAbsent(s: seq<nat>, x: nat)
    requires x !in s
    ensures Without(s, x) == s
  {
    if s != [] {
      WithoutAbsent(s[1..], x);
    }
  }

  lemma {:induction false} WithoutNoDuplicates(s: seq<nat>, x: nat)
    requires NoDuplicates(s)
    ensures NoDuplicates(Without(s, x))
  {
    if s != [] {
      var rest := Without(s[1..], x);
      WithoutNoDuplicates(s[1..], x);
      WithoutMembers(s[1..], x);
      assert s[0] !in s[1..];
      assert forall j :: 0 <= j < |rest| ==> rest[j] in rest;
    }
  }

  lemma {:induction false} SumStreamsWithout<T>(order: seq<nat>, m: map<nat, seq<Item<T>>>, stream: nat)
    requires NoDuplicates(order)
    requires forall s :: s in order ==> s in m
    ensures forall s :: s in Without(order, stream) ==> s in m - {stream}
    ensures SumStreams(Without(order, stream), m - {stream})
         == SumStreams(order, m) - (if stream in order then SumSizes(m[stream]) else 0)
  {
    WithoutMembers(order, stream);
    if order == [] {
    } else if order[0] == stream {
      assert stream !in order[1..];
      WithoutAbsent(order[1..], stream);
      SumStreamsFrame(order[1..], m, m - {stream});
    } else {
      SumStreamsWithout(order[1..], m, stream);
    }
  }

  // ---------------------------------------------------------------- every operation keeps the invariant and the byte total

  lemma PushControlKeeps<T>(q: Queue<T>, item: Item<T>)
    requires WellFormed(q)
    ensures WellFormed(PushControl(q, item))
    ensures TotalBytes(PushControl(q, item)) == TotalBytes(q) + item.size
  {
    SumSizesPush(q.control, item);
  }

  lemma PushStreamKeeps<T>(q: Queue<T>, stream: nat, item: Item<T>)
    requires WellFormed(q)
    ensures WellFormed(PushStream(q, stream, item))
    ensures TotalBytes(PushStream(q, stream, item)) == TotalBytes(q) + item.size
  {
    var r := PushStream(q, stream, item);
    SumSizesPush(Pending(q, stream), item);
    if stream in q.streams {
      SumStreamsUpdate(q.active, q.streams, stream, Pending(q, stream) + [item]);
    } else {
      SumStreamsConcat(q.active, [stream], r.streams);
      SumStreamsFrame(q.active, q.streams, r.streams);
      assert [stream][1..] == [];
      assert SumStreams([stream], r.streams) == item.size;
    }
  }

  lemma RestWellFormed<T>(q: Queue<T>)
    requires WellFormed(q)
    ensures WellFormed(Rest(q))
  {
    if !ControlTurn(q) && q.active != [] {
      var stream := q.active[0];
      var rest := q.active[1..];
      assert q.active == [stream] + rest;
      assert stream in q.active && stream !in rest;
      if |q.streams[stream]| > 1 {
        assert Rest(q).active == rest + [stream];
        assert forall s :: s in rest + [stream] <==> s in q.active;
      } else {
        assert Rest(q).active == rest;
        assert forall s :: s in rest <==> s in q.active && s != stream;
      }
    }
  }

  lemma RestKeeps<T>(q: Queue<T>)
    requires WellFormed(q)
    ensures WellFormed(Rest(q))
    ensures TotalBytes(Rest(q)) == TotalBytes(q) - (if Front(q).Nothing? then 0 else Front(q).item.size)
  {
    RestWellFormed(q);
    if !ControlTurn(q) && q.active != [] {
      var stream := q.active[0];
      assert stream in q.active;
      var tail := q.streams[stream][1..];
      assert q.active == [stream] + q.active[1..];
      assert stream !in q.active[1..];
      if tail != [] {
        var m := q.streams[stream := tail];
        SumStreamsFrame(q.active[1..], q.streams, m);
        SumStreamsConcat(q.active[1..], [stream], m);
        assert [stream][1..] == [];
        assert SumStreams([stream], m) == SumSizes(tail);
      } else {
        assert Rest(q).streams == q.streams - {stream} && Rest(q).active == q.active[1..];
        assert SumSizes(q.streams[stream]) == q.streams[stream][0].size;
        SumStreamsFrame(q.active[1..], q.streams, q.streams - {stream});
      }
    }
  }

  lemma CancelKeeps<T>(q: Queue<T>, stream: nat)
    requires WellFormed(q)
    ensures WellFormed(Cancel(q, stream))
    ensures TotalBytes(Cancel(q, stream)) == TotalBytes(q) - SumSizes(Pending(q, stream))
  {
    WithoutMembers(q.active, stream);
    WithoutNoDuplicates(q.active, stream);
    SumStreamsWithout(q.active, q.streams, stream);
  }

  /** A pop hands out nothing exactly when nothing at all is queued. */
  lemma NothingIffEmpty<T>(q: Queue<T>)
    requires WellFormed(q)
    ensures Front(q).Nothing? <==> Empty(q)
  {
    if q.active != [] {
      assert q.active[0] in q.active;
      assert Pending(q, q.active[0]) != [];
    }
  }

  // ---------------------------------------------------------------- limits

  predicate LimitsOk(limits: Limits) {
    && 0 < limits.maxStreamBytes <= limits.maxBytes <= USIZE_MAX
    && 0 < limits.maxControl
  }

  ghost predicate WithinLimits<T>(q: Queue<T>, limits: Limits)
    requires WellFormed(q)
  {
    && |q.control| <= limits.maxControl
    && TotalBytes(q) <= limits.maxBytes
    && (forall s :: s in q.streams ==> SumSizes(q.streams[s]) <= limits.maxStreamBytes)
  }

  function Reserve(used: nat, size: nat, maximum: nat): Outcome {
    if used + size > USIZE_MAX then Refused(IntegerOverflow)
    else if used + size > maximum then Refused(Backpressure)
    else Accepted
  }

  /** Admission of a control frame, decided from the queued items alone. */
  ghost function ControlAdmission<T>(q: Queue<T>, limits: Limits, size: nat): Outcome
    requires WellFormed(q)
  {
    if |q.control| >= limits.maxControl then Refused(Backpressure) else Reserve(TotalBytes(q), size, limits.maxBytes)
  }

  ghost function StreamAdmission<T>(q: Queue<T>, limits: Limits, stream: nat, size: nat): Outcome
    requires WellFormed(q)
  {
    var whole := Reserve(TotalBytes(q), size, limits.maxBytes);
    if whole.Refused? then whole else Reserve(SumSizes(Pending(q, stream)), size, limits.maxStreamBytes)
  }

  function SaturatingSub(a: nat, b: nat): nat {
    if b <= a then a - b else 0
  }

  function SaturatingAdd(a: nat, b: nat): nat {
    if a + b <= USIZE_MAX then a + b else USIZE_MAX
  }

  // ---------------------------------------------------------------- the redundant counters

  /** `counts` holds the queued bytes of every non-empty stream and `total` those of everything. */
  ghost predicate Counted<T>(q: Queue<T>, counts: map<nat, nat>, total: nat)
    requires WellFormed(q)
  {
    && total == TotalBytes(q)
    && counts.Keys == q.streams.Keys
    && (forall s :: s in q.streams ==> counts[s] == SumSizes(q.streams[s]))
  }

  ghost predicate Accounted<T>(q: Queue<T>, limits: Limits, counts: map<nat, nat>, total: nat) {
    && LimitsOk(limits)
    && WellFormed(q)
    && WithinLimits(q, limits)
    && Counted(q, counts, total)
  }

  lemma PushControlAccounted<T>(q: Queue<T>, limits: Limits, counts: map<nat, nat>, total: nat, item: Item<T>)
    requires Accounted(q, limits, counts, total)
    requires ControlAdmission(q, limits, item.size).Accepted?
    ensures Accounted(PushControl(q, item), limits, counts, total + item.size)
  {
    PushControlKeeps(q, item);
  }

  lemma PushStreamAccounted<T>(q: Queue<T>, limits: Limits, counts: map<nat, nat>, total: nat, stream: nat,
                               item: Item<T>,
                               count: nat)
    requires Accounted(q, limits, counts, total)
    requires StreamAdmission(q, limits, stream, item.size).Accepted?
    requires count == SumSizes(Pending(q, stream)) + item.size
    ensures Accounted(PushStream(q, stream, item), limits, counts[stream := count], total + item.size)
  {
    PushStreamKeeps(q, stream, item);
    SumSizesPush(Pending(q, stream), item);
  }

  /** A control frame is admitted exactly when the queue with it keeps to the limits. */
  lemma ControlAdmittedIff<T>(q: Queue<T>, limits: Limits, item: Item<T>)
    requires WellFormed(q) && LimitsOk(limits) && WithinLimits(q, limits)
    ensures WellFormed(PushControl(q, item))
    ensures ControlAdmission(q, limits, item.size).Accepted? <==> WithinLimits(PushControl(q, item), limits)
    ensures ControlAdmission(q, limits, item.size) == Refused(IntegerOverflow) <==>
              |q.control| < limits.maxControl && TotalBytes(q) + item.size > USIZE_MAX
    ensures ControlAdmission(q, limits, item.size) in {Accepted, Refused(Backpressure), Refused(IntegerOverflow)}
  {
    PushControlKeeps(q, item);
  }

  /** The same for a frame of a stream. */
  lemma StreamAdmittedIff<T>(q: Queue<T>, limits: Limits, stream: nat, item: Item<T>)
    requires WellFormed(q) && LimitsOk(limits) && WithinLimits(q, limits)
    ensures WellFormed(PushStream(q, stream, item))
    ensures StreamAdmission(q, limits, stream, item.size).Accepted? <==> WithinLimits(PushStream(q, stream, item), limits)
    ensures StreamAdmission(q, limits, stream, item.size) == Refused(IntegerOverflow) <==>
              TotalBytes(q) + item.size > USIZE_MAX
    ensures StreamAdmission(q, limits, stream, item.size) in {Accepted, Refused(Backpressure), Refused(IntegerOverflow)}
  {
    PushStreamKeeps(q, stream, item);
    SumSizesPush(Pending(q, stream), item);
    hide TotalBytes, WellFormed, SumSizes;
    assert PushStream(q, stream, item).streams[stream] == Pending(q, stream) + [item];
    PendingFits(q, stream);
  }

  lemma PendingFits<T>(q: Queue<T>, stream: nat)
    requires WellFormed(q)
    ensures SumSizes(Pending(q, stream)) <= TotalBytes(q)
  {
    if stream in q.streams {
      SumStreamsUpdate(q.active, q.streams, stream, []);
    }
  }

  /** Popping: no counter would go below zero. */
  lemma RestFitsCounters<T>(q: Queue<T>, limits: Limits, counts: map<nat, nat>, total: nat)
    requires Accounted(q, limits, counts, total)
    requires !Front(q).Nothing?
    ensures Front(q).item.size <= total
    ensures Front(q).FromStream? ==>
      var s := Front(q).stream;
      s in q.streams && s in counts && Front(q).item.size <= counts[s]
  {
    RestKeeps(q);
    if Front(q).FromStream? {
      var s := Front(q).stream;
      assert s in q.active;
    }
  }

  /** Popping: subtracting the popped item keeps both counters exact. */
  lemma RestAccounted<T>(q: Queue<T>, limits: Limits, counts: map<nat, nat>, total: nat,
                         counts': map<nat, nat>, total': int)
    requires Accounted(q, limits, counts, total)
    requires !Front(q).Nothing?
    requires total' == total - Front(q).item.size
    requires Front(q).FromControl? ==> counts' == counts
    requires Front(q).FromStream? ==>
      var s := Front(q).stream;
      s in q.streams && s in counts && counts[s] >= Front(q).item.size
      && counts' == if |q.streams[s]| > 1 then counts[s := counts[s] - Front(q).item.size] else counts - {s}
    ensures total' >= 0
    ensures Accounted(Rest(q), limits, counts', total')
  {
    RestKeeps(q);
    if Front(q).FromStream? {
      var s := Front(q).stream;
      assert s in q.active;
    }
  }

  lemma CancelAccounted<T>(q: Queue<T>, limits: Limits, counts: map<nat, nat>, total: nat, stream: nat,
                           counts': map<nat, nat>, total': int)
    requires Accounted(q, limits, counts, total)
    requires counts' == counts - {stream}
    requires total' == total - SumSizes(Pending(q, stream))
    ensures total' >= 0
    ensures Accounted(Cancel(q, stream), limits, counts', total')
  {
    CancelKeeps(q, stream);
  }
}
