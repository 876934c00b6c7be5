/**
 The bounded outbound scheduler of a gateway session: deques, maps and byte counters that are
 updated in place, proved to refine `FairQueue`.
 */
module GatewayScheduler {
  import opened Options
  import opened FairQueue

  class FairScheduler<T> {
    const limits: Limits
    var control: seq<Item<T>>
    var streams: map<nat, seq<Item<T>>>
    var perStreamBytes: map<nat, nat>
    var active: seq<nat>
    var queuedBytes: nat
    var controlBurst: nat

    /** The queue this object stands for: everything but the redundant counters. */
    ghost function View(): Queue<T>
      reads this
    {
      Queue(control, streams, active, controlBurst)
    }

    /** The round-robin list is exact, both counters are the sums of what is queued, and the
        queue is within its limits. */
    ghost predicate Valid()
      reads this
    {
      Accounted(View(), limits, perStreamBytes, queuedBytes)
    }

    constructor (limits: Limits)
      requires LimitsOk(limits)
      ensures Valid() && this.limits == limits
      ensures View() == Queue([], map[], [], 0)
    {
      this.limits := limits;
      control, streams, perStreamBytes, active := [], map[], map[], [];
      queuedBytes, controlBurst := 0, 0;
    }

    static method Create(limits: Limits) returns (r: Option<FairScheduler<T>>)
      requires limits.maxBytes <= USIZE_MAX
      ensures r.Some? <==> LimitsOk(limits)
      ensures r.Some? ==> fresh(r.value) && r.value.Valid() && r.value.limits == limits
      ensures r.Some? ==> r.value.View() == Queue([], map[], [], 0)
    {
      if limits.maxBytes == 0 || limits.maxStreamBytes == 0 || limits.maxStreamBytes > limits.maxBytes
         || limits.maxControl == 0
      {
        return None;
      }
      var scheduler := new FairScheduler(limits);
      return Some(scheduler);
    }

    method ReserveGlobal(bytes: nat) returns (r: Outcome)
      requires Valid()
      ensures r == Reserve(TotalBytes(View()), bytes, limits.maxBytes)
    {
      if queuedBytes + bytes > USIZE_MAX {
        return Refused(IntegerOverflow);
      }
      var updated := queuedBytes + bytes;
      if updated > limits.maxBytes {
        return Refused(Backpressure);
      }
      return Accepted;
    }

    method CanEnqueueControl(bytes: nat) returns (r: Outcome)
      requires Valid()
      ensures r == ControlAdmission(View(), limits, bytes)
    {
      if |control| >= limits.maxControl {
        return Refused(Backpressure);
      }
      r := ReserveGlobal(bytes);
    }

    method StreamBytes(stream: nat) returns (n: nat)
      requires Valid()
      ensures n == SumSizes(Pending(View(), stream))
    {
      n := if stream in perStreamBytes then perStreamBytes[stream] else 0;
    }

    method CanEnqueueStream(stream: nat, bytes: nat) returns (r: Outcome)
      requires Valid()
      ensures r == StreamAdmission(View(), limits, stream, bytes)
    {
      r := ReserveGlobal(bytes);
      if r.Refused? {
        return;
      }
      var current := StreamBytes(stream);
      if current + bytes > USIZE_MAX {
        return Refused(IntegerOverflow);
      }
      if current + bytes > limits.maxStreamBytes {
        return Refused(Backpressure);
      }
    }

    method EnqueueControl(item: Item<T>) returns (r: Outcome)
      requires Valid()
      modifies this
      ensures Valid()
      ensures r == ControlAdmission(old(View()), limits, item.size)
      ensures View() == if r.Accepted? then PushControl(old(View()), item) else old(View())
    {
      r := CanEnqueueControl(item.size);
      if r.Refused? {
        return;
      }
      PushControlAccounted(View(), limits, perStreamBytes, queuedBytes, item);
      queuedBytes := queuedBytes + item.size;
      control := control + [item];
    }

    method EnqueueStream(stream: nat, item: Item<T>) returns (r: Outcome)
      requires Valid()
      modifies this
      ensures Valid()
      ensures r == StreamAdmission(old(View()), limits, stream, item.size)
      ensures View() == if r.Accepted? then PushStream(old(View()), stream, item) else old(View())
    {
      r := CanEnqueueStream(stream, item.size);
      if r.Refused? {
        return;
      }
      ghost var before := View();
      var current := StreamBytes(stream);
      var updated := current + item.size;
      var queue := if stream in streams then streams[stream] else [];
      if |queue| == 0 {
        active := active + [stream];
      }
      queue := queue + [item];
      streams := streams[stream := queue];
      perStreamBytes := perStreamBytes[stream := updated];
      queuedBytes := queuedBytes + queue[|queue| - 1].size;
      assert View() == PushStream(before, stream, item);
      PushStreamAccounted(before, limits, old(perStreamBytes), old(queuedBytes), stream, item, updated);
    }

    method PopNext() returns (r: Option<Item<T>>)
      requires Valid()
      modifies this
      ensures Valid()
      ensures View() == Rest(old(View()))
      ensures r == var p := Front(old(View())); if p.Nothing? then None else Some(p.item)
      ensures r.None? <==> Empty(old(View()))
    {
      ghost var before := View();
      NothingIffEmpty(before);
      if |control| != 0 && (controlBurst < CONTROL_BURST || |active| == 0) {
        controlBurst := controlBurst + 1;
        var item := control[0];
        control := control[1..];
        RestFitsCounters(before, limits, perStreamBytes, queuedBytes);
        queuedBytes := SaturatingSub(queuedBytes, item.size);
        RestAccounted(before, limits, old(perStreamBytes), old(queuedBytes), perStreamBytes, queuedBytes);
        return Some(item);
      }
      if |active| != 0 {
        var stream := active[0];
        RestFitsCounters(before, limits, perStreamBytes, queuedBytes);
        active := active[1..];
        var queue := streams[stream];
        var item := queue[0];
        queue := queue[1..];
        controlBurst := 0;
        queuedBytes := SaturatingSub(queuedBytes, item.size);
        var current := if stream in perStreamBytes then perStreamBytes[stream] else 0;
        var updated := SaturatingSub(current, item.size);
        if |queue| != 0 {
          streams := streams[stream := queue];
          active := active + [stream];
          perStreamBytes := perStreamBytes[stream := updated];
        } else {
          streams := streams - {stream};
          perStreamBytes := perStreamBytes - {stream};
        }
        assert View() == Rest(before);
        RestAccounted(before, limits, old(perStreamBytes), old(queuedBytes), perStreamBytes, queuedBytes);
        return Some(item);
      }
      return None;
    }

    method CancelStream(stream: nat)
      requires Valid()
      modifies this
      ensures Valid()
      ensures View() == Cancel(old(View()), stream)
      ensures queuedBytes == old(queuedBytes) - SumSizes(Pending(old(View()), stream))
    {
      ghost var before := View();
      CancelKeeps(before, stream);
      if stream in streams {
        var removed := SumOfSizes(streams[stream]);
        queuedBytes := SaturatingSub(queuedBytes, removed);
      }
      streams := streams - {stream};
      perStreamBytes := perStreamBytes - {stream};
      active := Without(active, stream);
      CancelAccounted(before, limits, old(perStreamBytes), old(queuedBytes), stream, perStreamBytes, queuedBytes);
    }
  }

  /** The fold of a cancelled queue: it saturates only if the items do not fit a machine word. */
  method SumOfSizes<T>(queue: seq<Item<T>>) returns (n: nat)
    ensures n == if SumSizes(queue) <= USIZE_MAX then SumSizes(queue) else USIZE_MAX
  {
    n := 0;
    for i := 0 to |queue|
      invariant n == if SumSizes(queue[..i]) <= USIZE_MAX then SumSizes(queue[..i]) else USIZE_MAX
    {
      assert queue[..i + 1] == queue[..i] + [queue[i]];
      SumSizesPush(queue[..i], queue[i]);
      n := SaturatingAdd(n, queue[i].size);
    }
    assert queue[..|queue|] == queue;
  }
}
