/**
 The client core: engine and dispatcher joined by the work queue. A call of the core runs one engine
 event and then performs queued actions one at a time until none is left; what an action makes the
 engine ask for is queued behind, and an action that fails discards the queue and fails its flow.
 */
module ClientCore {
  import opened Bytes
  import opened Options
  import opened Packet
  import opened TcpFlow
  import opened TcpFlowTheorems
  import opened Engine
  import opened EngineInvariant
  import opened EngineCloses
  import opened EngineWorld
  import opened EngineRuns
  import opened Dispatcher

  /** `output` is what the core reports to its caller: packets, blocks and diagnostics. */
  datatype Core = Core(world: World, dispatcher: Dispatcher, queue: seq<Action>, output: seq<Action>)

  /** What the outside decides while one action is performed. */
  datatype Fate = Fate(luck: Luck, answer: seq<byte>, now: nat)

  // ---------------------------------------------------------------- performing one action

  /** Success: the engine's reaction is queued behind the rest. */
  ghost function Continue(core: Core, d: Dispatcher, ev: Event): Core
    requires core.queue != [] && Possible(core.world.engine, ev)
  {
    core.(world := Next(core.world, ev), dispatcher := d, queue := core.queue[1..] + Step(core.world.engine, ev).actions)
  }

  /** Failure: the queue is discarded and the flow fails. */
  ghost function Abandon(core: Core, d: Dispatcher, id: nat): Core {
    var ev := StreamFails(id, DownstreamFailure);
    core.(world := Next(core.world, ev), dispatcher := d, queue := Step(core.world.engine, ev).actions)
  }

  ghost function Pass(core: Core, d: Dispatcher): Core
    requires core.queue != []
  {
    core.(dispatcher := d, queue := core.queue[1..])
  }

  ghost function Perform(core: Core, fate: Fate): Core
    requires core.queue != []
  {
    var d := core.dispatcher;
    match core.queue[0]
    case OpenStream(id, _) =>
      var tried := Open(d, id, fate.luck);
      if tried.ok then Continue(core, tried.dispatcher, StreamOpens(id, fate.now)) else Abandon(core, d, id)
    case ForwardPayload(id, payload) =>
      var wrote := WriteAll(d, id, payload, fate.luck);
      if wrote.ok then Continue(core, wrote.dispatcher, StreamTook(id, |payload|, fate.now))
      else Abandon(core, wrote.dispatcher, id)
    case ResolveDns(query, _, _) => Continue(core, d, DnsAnswers(query, fate.answer, fate.now))
    case CloseWrite(id) =>
      var closed := MarkWriteClosed(d, id);
      if closed.ok then Pass(core, closed.dispatcher) else Abandon(core, d, id)
    case CloseBoth(id) => Pass(core, Close(d, id))
    case _ => Pass(core, d).(output := core.output + [core.queue[0]])
  }

  // ---------------------------------------------------------------- calls

  /** What a call may present to the engine. A read delivers at most what the flow and the dispatcher
      allow, and only from a stream that exists. */
  ghost predicate Callable(core: Core, ev: Event) {
    && Possible(core.world.engine, ev)
    && match ev
       case StreamSays(id, payload, _) =>
         && id in core.dispatcher.streams && 0 < |payload| <= ReadCapacity(core.world.engine, id)
         && |payload| <= core.dispatcher.chunkBytes
       case StreamEnds(id, _) => id in core.dispatcher.streams && ReadCapacity(core.world.engine, id) > 0
       case StreamFails(id, reason) => reason == DownstreamFailure && ReadCapacity(core.world.engine, id) > 0
       case StreamOpens(_, _) => false
       case StreamTook(_, _, _) => false
       case DnsAnswers(_, _, _) => false
       case _ => true
  }

  ghost function Call(core: Core, ev: Event): Core
    requires core.queue == [] && Callable(core, ev)
  {
    core.(world := Next(core.world, ev), queue := Step(core.world.engine, ev).actions)
  }

  datatype CoreStep = Calls(event: Event) | Performs(fate: Fate) | DropsAll | Reconnects(sessionStreams: nat)

  ghost predicate Allowed(core: Core, step: CoreStep) {
    match step
    case Calls(ev) => core.queue == [] && Callable(core, ev)
    case Performs(_) => core.queue != []
    case DropsAll => core.queue == []
    case Reconnects(_) => core.queue == []
  }

  ghost function CoreNext(core: Core, step: CoreStep): Core
    requires Allowed(core, step)
  {
    match step
    case Calls(ev) => Call(core, ev)
    case Performs(fate) => Perform(core, fate)
    case DropsAll => core.(dispatcher := CloseAll(core.dispatcher))
    case Reconnects(sessionStreams) => core.(dispatcher := ReplaceSession(core.dispatcher, sessionStreams))
  }

  // ---------------------------------------------------------------- the invariant

  function Front(queue: seq<Action>, id: nat): seq<byte> {
    if queue != [] && queue[0].ForwardPayload? && queue[0].flow == id then queue[0].payload else []
  }

  predicate Serves(w: World, id: nat) {
    Knows(w.engine, id) && id in w.traces && !w.traces[id].dns
  }

  /** A payload is handed on alone or with the close that its FIN asks for. */
  predicate ForwardOk(w: World, queue: seq<Action>) {
    queue != [] && queue[0].ForwardPayload? ==>
      var id := queue[0].flow;
      && Serves(w, id)
      && (|queue| == 1 ==> !FlowOf(w.engine, id).state.Closing?)
      && (|queue| == 1 || (|queue| == 2 &&
            if FlowOf(w.engine, id).state.Closing? then queue[1] == CloseBoth(id)
            else queue[1] == CloseWrite(id) && FlowOf(w.engine, id).state.HalfClosedLocal?))
  }

  predicate OpenOk(w: World, d: Dispatcher, queue: seq<Action>) {
    queue != [] && queue[0].OpenStream? ==> |queue| == 1 && Serves(w, queue[0].flow) && queue[0].flow !in d.streams
  }

  predicate RiskyAt(queue: seq<Action>, i: nat)
    requires i < |queue|
  {
    i > 0 ==> !queue[i].OpenStream? && !queue[i].ForwardPayload?
  }

  predicate WriteCloseOk(w: World, queue: seq<Action>, i: nat)
    requires i < |queue|
  {
    queue[i].CloseWrite? ==>
      && Serves(w, queue[i].flow) && FlowOf(w.engine, queue[i].flow).state.HalfClosedLocal?
      && forall a :: a in queue && a.CloseBoth? ==> a.flow == queue[i].flow
  }

  ghost predicate NoMix(queue: seq<Action>) {
    (exists a :: a in queue && a.ResolveDns?) ==> forall a :: a in queue ==> !Risky(a)
  }

  ghost predicate QueueOk(w: World, d: Dispatcher, queue: seq<Action>) {
    && ForwardOk(w, queue) && OpenOk(w, d, queue) && NoMix(queue)
    && forall i :: 0 <= i < |queue| ==> RiskyAt(queue, i) && WriteCloseOk(w, queue, i)
  }

  /** A stream belongs to a live forwarded flow, or its close is queued. */
  ghost predicate StreamsOk(w: World, d: Dispatcher, queue: seq<Action>) {
    forall id :: id in d.streams ==> Serves(w, id) || CloseBoth(id) in queue
  }

  /** Nothing of the flow will be acknowledged any more. */
  ghost predicate Silenced(w: World, queue: seq<Action>, id: nat) {
    !Knows(w.engine, id) && forall a :: a in queue && a.SendTcp? && a.origin == Some(id) ==> a.segment.flags.rst
  }

  /** Every byte taken from the application is written, except the payload about to be; a flow that
      failed in the middle of a write has written a prefix. */
  ghost predicate WrittenFor(w: World, d: Dispatcher, queue: seq<Action>, id: nat)
    requires id in w.traces
  {
    || w.traces[id].taken == WrittenTo(d, id) + Front(queue, id)
    || (Silenced(w, queue, id) && WrittenTo(d, id) <= w.traces[id].taken)
  }

  ghost predicate WrittenOk(w: World, d: Dispatcher, queue: seq<Action>) {
    forall id :: id in w.traces && !w.traces[id].dns ==> WrittenFor(w, d, queue, id)
  }

  ghost predicate GatewayOk(e: Engine, queue: seq<Action>) {
    forall id :: Knows(e, id) ==> FlowOf(e, id).queuedToGateway == |Front(queue, id)|
  }

  ghost predicate CoversOk(traces: map<nat, Trace>, a: Action) {
    a.SendTcp? && !a.segment.flags.rst ==>
      a.origin.Some? && a.origin.value in traces && Covered(traces[a.origin.value], a.segment.acknowledgement)
  }

  ghost predicate AllCover(traces: map<nat, Trace>, queue: seq<Action>) {
    forall a :: a in queue ==> CoversOk(traces, a)
  }

  ghost predicate CoreInv(core: Core) {
    && WorldInv(core.world)
    && QueueOk(core.world, core.dispatcher, core.queue)
    && StreamsOk(core.world, core.dispatcher, core.queue)
    && WrittenOk(core.world, core.dispatcher, core.queue)
    && GatewayOk(core.world.engine, core.queue)
    && AllCover(core.world.traces, core.queue)
    && core.dispatcher.written.Keys <= core.world.traces.Keys
  }
}
