/**
 Whole runs of the fair queue: any interleaving of pushes, pops and cancellations.
 */
module FairQueueRuns {
  import opened FairQueue

  datatype Op<+T> =
    | OfferControl(item: Item<T>)
    | OfferStream(stream: nat, item: Item<T>)
    | Pop
    | Drop(stream: nat)

  function Step<T>(q: Queue<T>, op: Op<T>): Queue<T>
    requires WellFormed(q)
  {
    match op
    case OfferControl(item) => PushControl(q, item)
    case OfferStream(stream, item) => PushStream(q, stream, item)
    case Pop => Rest(q)
    case Drop(stream) => Cancel(q, stream)
  }

  function Emitted<T>(q: Queue<T>, op: Op<T>): Popped<T>
    requires WellFormed(q)
  {
    if op.Pop? then Front(q) else Nothing
  }

  lemma StepKeeps<T>(q: Queue<T>, op: Op<T>)
    requires WellFormed(q)
    ensures WellFormed(Step(q, op))
  {
    match op
    case OfferControl(item) => PushControlKeeps(q, item);
    case OfferStream(stream, item) => PushStreamKeeps(q, stream, item);
    case Pop => RestKeeps(q);
    case Drop(stream) => CancelKeeps(q, stream);
  }

  ghost function Run<T>(q: Queue<T>, ops: seq<Op<T>>): (r: Queue<T>)
    requires WellFormed(q)
    ensures WellFormed(r)
    decreases |ops|
  {
    if ops == [] then q else StepKeeps(q, ops[0]); Run(Step(q, ops[0]), ops[1..])
  }

  ghost function Outputs<T>(q: Queue<T>, ops: seq<Op<T>>): (r: seq<Popped<T>>)
    requires WellFormed(q)
    ensures |r| == |ops|
    decreases |ops|
  {
    if ops == [] then []
    else StepKeeps(q, ops[0]); [Emitted(q, ops[0])] + Outputs(Step(q, ops[0]), ops[1..])
  }

  // ---------------------------------------------------------------- every FIFO is a FIFO

  function Offer<T>(op: Op<T>, stream: nat): seq<Item<T>> {
    if op.OfferStream? && op.stream == stream then [op.item] else []
  }

  function OfferedTo<T>(ops: seq<Op<T>>, stream: nat): seq<Item<T>> {
    if ops == [] then [] else Offer(ops[0], stream) + OfferedTo(ops[1..], stream)
  }

  function ControlOffer<T>(op: Op<T>): seq<Item<T>> {
    if op.OfferControl? then [op.item] else []
  }

  function OfferedToControl<T>(ops: seq<Op<T>>): seq<Item<T>> {
    if ops == [] then [] else ControlOffer(ops[0]) + OfferedToControl(ops[1..])
  }

  function Taken<T>(out: Popped<T>, stream: nat): seq<Item<T>> {
    if out.FromStream? && out.stream == stream then [out.item] else []
  }

  function TakenFrom<T>(outs: seq<Popped<T>>, stream: nat): seq<Item<T>> {
    if outs == [] then [] else Taken(outs[0], stream) + TakenFrom(outs[1..], stream)
  }

  function ControlTaken<T>(out: Popped<T>): seq<Item<T>> {
    if out.FromControl? then [out.item] else []
  }

  function TakenFromControl<T>(outs: seq<Popped<T>>): seq<Item<T>> {
    if outs == [] then [] else ControlTaken(outs[0]) + TakenFromControl(outs[1..])
  }

  lemma StreamStep<T>(q: Queue<T>, op: Op<T>, stream: nat)
    requires WellFormed(q) && op != Drop(stream)
    ensures Pending(q, stream) + Offer(op, stream) == Taken(Emitted(q, op), stream) + Pending(Step(q, op), stream)
  {
    if op.Pop? && Front(q).FromStream? && Front(q).stream == stream {
      assert stream in q.active;
      var queue := q.streams[stream];
      assert queue == [queue[0]] + queue[1..];
    }
  }

  lemma ControlStep<T>(q: Queue<T>, op: Op<T>)
    requires WellFormed(q)
    ensures q.control + ControlOffer(op) == ControlTaken(Emitted(q, op)) + Step(q, op).control
  {
    if op.Pop? && ControlTurn(q) {
      assert q.control == [q.control[0]] + q.control[1..];
    }
  }

  /** Two consecutive FIFO equations compose. */
  lemma Telescope<A>(q0: seq<A>, in0: seq<A>, out0: seq<A>, q1: seq<A>, in1: seq<A>, out1: seq<A>, q2: seq<A>)
    requires q0 + in0 == out0 + q1
    requires q1 + in1 == out1 + q2
    ensures q0 + (in0 + in1) == (out0 + out1) + q2
  {
    assert q0 + (in0 + in1) == (q0 + in0) + in1;
    assert (out0 + q1) + in1 == out0 + (q1 + in1);
    assert out0 + (out1 + q2) == (out0 + out1) + q2;
  }

  /** While a stream is not cancelled, what it had queued plus what it was offered is exactly what
      it handed out, in the same order, plus what it still has queued. */
  lemma {:induction false} StreamFifo<T>(q: Queue<T>, ops: seq<Op<T>>, stream: nat)
    requires WellFormed(q)
    requires Drop(stream) !in ops
    ensures Pending(q, stream) + OfferedTo(ops, stream)
         == TakenFrom(Outputs(q, ops), stream) + Pending(Run(q, ops), stream)
    decreases |ops|
  {
    if ops == [] {
    } else {
      StepKeeps(q, ops[0]);
      var q1 := Step(q, ops[0]);
      var out := Outputs(q1, ops[1..]);
      StreamStep(q, ops[0], stream);
      StreamFifo(q1, ops[1..], stream);
      Telescope(Pending(q, stream), Offer(ops[0], stream), Taken(Emitted(q, ops[0]), stream),
                Pending(q1, stream), OfferedTo(ops[1..], stream), TakenFrom(out, stream), Pending(Run(q, ops), stream));
      assert Outputs(q, ops)[1..] == out;
    }
  }

  /** The control frames leave in the order in which they were accepted; none is lost or repeated. */
  lemma {:induction false} ControlFifo<T>(q: Queue<T>, ops: seq<Op<T>>)
    requires WellFormed(q)
    ensures q.control + OfferedToControl(ops) == TakenFromControl(Outputs(q, ops)) + Run(q, ops).control
    decreases |ops|
  {
    if ops == [] {
    } else {
      StepKeeps(q, ops[0]);
      var q1 := Step(q, ops[0]);
      var out := Outputs(q1, ops[1..]);
      ControlStep(q, ops[0]);
      ControlFifo(q1, ops[1..]);
      Telescope(q.control, ControlOffer(ops[0]), ControlTaken(Emitted(q, ops[0])),
                q1.control, OfferedToControl(ops[1..]), TakenFromControl(out), Run(q, ops).control);
      assert Outputs(q, ops)[1..] == out;
    }
  }

  // ---------------------------------------------------------------- bounded waiting

  function IndexOf(s: seq<nat>, x: nat): (i: nat)
    requires x in s
    ensures i < |s| && s[i] == x && x !in s[..i]
  {
    if s[0] == x then 0 else 1 + IndexOf(s[1..], x)
  }

  lemma {:induction false} IndexOfUnique(s: seq<nat>, x: nat, i: nat)
    requires i < |s| && s[i] == x && NoDuplicates(s)
    ensures IndexOf(s, x) == i
  {
  }

  lemma {:induction false} IndexOfWithout(s: seq<nat>, x: nat, y: nat)
    requires x in s && x != y && NoDuplicates(s)
    ensures x in Without(s, y)
    ensures IndexOf(Without(s, y), x) <= IndexOf(s, x)
  {
    WithoutMembers(s, y);
    if s[0] != x {
      IndexOfWithout(s[1..], x, y);
    }
  }

  /** Pops that may still pass before the head of a waiting stream is handed out. */
  function Patience<T>(q: Queue<T>, stream: nat): nat
    requires stream in q.active
  {
    9 * IndexOf(q.active, stream) + 1 + (if q.burst < CONTROL_BURST then CONTROL_BURST - q.burst else 0)
  }

  function Pops<T>(ops: seq<Op<T>>): nat {
    if ops == [] then 0 else (if ops[0].Pop? then 1 else 0) + Pops(ops[1..])
  }

  /** A pop from another stream moves a waiting stream up by one place. */
  lemma MovesUp<T>(q: Queue<T>, stream: nat)
    requires WellFormed(q) && stream in q.active && !ControlTurn(q) && q.active[0] != stream
    ensures WellFormed(Rest(q)) && stream in Rest(q).active && Rest(q).streams[stream] == q.streams[stream]
    ensures IndexOf(Rest(q).active, stream) == IndexOf(q.active, stream) - 1
  {
    RestWellFormed(q);
    var i, r := IndexOf(q.active, stream), Rest(q);
    assert r.active[i - 1] == stream;
    IndexOfUnique(r.active, stream, i - 1);
  }

  /** One operation either hands out the head of the stream, or cancels the stream, or keeps the
      head in place; a pop of the last kind uses up one unit of patience, no other operation adds any. */
  lemma WaitStep<T>(q: Queue<T>, op: Op<T>, stream: nat)
    requires WellFormed(q) && stream in q.active
    requires op != Drop(stream)
    requires op.Pop? ==> Front(q) != FromStream(stream, q.streams[stream][0])
    ensures WellFormed(Step(q, op))
    ensures stream in Step(q, op).active
    ensures Step(q, op).streams[stream][0] == q.streams[stream][0]
    ensures Patience(Step(q, op), stream) <= Patience(q, stream) - (if op.Pop? then 1 else 0)
  {
    StepKeeps(q, op);
    var r := Step(q, op);
    var i := IndexOf(q.active, stream);
    match op
    case OfferControl(_) =>
    case OfferStream(s, _) =>
      assert r.active[i] == stream;
      IndexOfUnique(r.active, stream, i);
    case Drop(s) =>
      IndexOfWithout(q.active, stream, s);
    case Pop =>
      if !ControlTurn(q) {
        MovesUp(q, stream);
      }
  }

  ghost predicate ServedOrDropped<T>(q: Queue<T>, ops: seq<Op<T>>, stream: nat, head: Item<T>)
    requires WellFormed(q)
  {
    exists i :: 0 <= i < |ops| && (ops[i] == Drop(stream) || Outputs(q, ops)[i] == FromStream(stream, head))
  }

  lemma {:induction false} WaitIsBounded<T>(q: Queue<T>, ops: seq<Op<T>>, stream: nat)
    requires WellFormed(q) && stream in q.active
    requires Pops(ops) >= Patience(q, stream)
    ensures ServedOrDropped(q, ops, stream, q.streams[stream][0])
    decreases |ops|
  {
    var head := q.streams[stream][0];
    var op := ops[0];
    if op == Drop(stream) || (op.Pop? && Front(q) == FromStream(stream, head)) {
      assert ops[0] == Drop(stream) || Outputs(q, ops)[0] == FromStream(stream, head);
    } else {
      WaitStep(q, op, stream);
      WaitIsBounded(Step(q, op), ops[1..], stream);
      var i :| 0 <= i < |ops[1..]|
        && (ops[1..][i] == Drop(stream) || Outputs(Step(q, op), ops[1..])[i] == FromStream(stream, head));
      assert ops[i + 1] == Drop(stream) || Outputs(q, ops)[i + 1] == FromStream(stream, head);
    }
  }

  /** The head of the stream at position p of the round-robin order is handed out, or its stream is
      cancelled, before 9 * (p + 1) pops have been made, whatever else happens in between. */
  lemma BoundedWaiting<T>(q: Queue<T>, ops: seq<Op<T>>, p: nat)
    requires WellFormed(q) && p < |q.active|
    requires Pops(ops) >= 9 * (p + 1)
    ensures q.active[p] in q.streams
    ensures ServedOrDropped(q, ops, q.active[p], q.streams[q.active[p]][0])
  {
    var stream := q.active[p];
    assert stream in q.active;
    IndexOfUnique(q.active, stream, p);
    WaitIsBounded(q, ops, stream);
  }

  /** With control frames to spare, a pop uses up exactly one unit of patience. */
  lemma PopWaits<T>(q: Queue<T>, stream: nat, head: Item<T>)
    requires WellFormed(q) && stream in q.active && q.burst <= CONTROL_BURST && 1 < Patience(q, stream) <= |q.control|
    ensures WellFormed(Rest(q)) && stream in Rest(q).active && Rest(q).burst <= CONTROL_BURST
    ensures Patience(Rest(q), stream) == Patience(q, stream) - 1 <= |Rest(q).control|
    ensures Front(q) != FromStream(stream, head)
  {
    if ControlTurn(q) {
      RestWellFormed(q);
    } else {
      MovesUp(q, stream);
    }
  }

  lemma {:induction false} WaitsThatLong<T>(q: Queue<T>, ops: seq<Op<T>>, stream: nat, head: Item<T>)
    requires WellFormed(q) && stream in q.active && q.burst <= CONTROL_BURST
    requires |ops| < Patience(q, stream) <= |q.control| && forall i :: 0 <= i < |ops| ==> ops[i].Pop?
    ensures !ServedOrDropped(q, ops, stream, head)
    decreases |ops|
  {
    hide Rest, Front, WellFormed, Patience;
    if ops != [] {
      PopWaits(q, stream, head);
      WaitsThatLong(Rest(q), ops[1..], stream, head);
      assert ops[0] == Pop && Step(q, ops[0]) == Rest(q) && Emitted(q, ops[0]) == Front(q);
      assert Outputs(q, ops) == [Front(q)] + Outputs(Rest(q), ops[1..]);
      hide Outputs;
      assert forall j :: 0 < j < |ops| ==> Outputs(q, ops)[j] == Outputs(Rest(q), ops[1..])[j - 1];
    }
  }

  /** The bound is exact at every position: with enough control frames queued and no burst begun, one
      pop fewer does not serve the stream. */
  lemma BoundIsTight<T>(q: Queue<T>, ops: seq<Op<T>>, p: nat)
    requires WellFormed(q) && p < |q.active| && q.burst == 0 && |q.control| >= 9 * (p + 1)
    requires |ops| < 9 * (p + 1) && forall i :: 0 <= i < |ops| ==> ops[i].Pop?
    ensures q.active[p] in q.streams
    ensures !ServedOrDropped(q, ops, q.active[p], q.streams[q.active[p]][0])
  {
    assert q.active[p] in q.active;
    IndexOfUnique(q.active, q.active[p], p);
    WaitsThatLong(q, ops, q.active[p], q.streams[q.active[p]][0]);
  }

  lemma {:induction false} ControlBurst<T>(q: Queue<T>, ops: seq<Op<T>>)
    requires WellFormed(q) && |q.control| >= |ops| && q.burst + |ops| <= CONTROL_BURST
    requires forall i :: 0 <= i < |ops| ==> ops[i].Pop?
    ensures forall i :: 0 <= i < |ops| ==> Outputs(q, ops)[i].FromControl?
    decreases |ops|
  {
    if ops != [] {
      RestKeeps(q);
      ControlBurst(Rest(q), ops[1..]);
      assert Outputs(q, ops) == [Front(q)] + Outputs(Rest(q), ops[1..]);
    }
  }
}
