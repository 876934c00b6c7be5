/** What holds in every run of the client core, whatever the application, the gateway and the clock do. */
module ClientCoreTheorems {
  import opened Bytes
  import opened Options
  import opened Packet
  import opened TcpFlow
  import opened TcpFlowTheorems
  import opened Engine
  import opened EngineCloses
  import opened EngineInvariant
  import opened EngineWorld
  import opened EngineRuns
  import opened EngineTheorems
  import opened Dispatcher
  import opened ClientCore
  import opened ClientCoreInvariant

  predicate NewDispatcher(d: Dispatcher) {
    d.streams == {} && d.written == map[]
  }

  ghost predicate CoreRun(c: Config, cores: seq<Core>, steps: seq<CoreStep>) {
    && |cores| == |steps| + 1
    && NewDispatcher(cores[0].dispatcher) && cores[0] == Core(World(Fresh(c), map[], []), cores[0].dispatcher, [], [])
    && forall i :: 0 <= i < |steps| ==> Allowed(cores[i], steps[i]) && cores[i + 1] == CoreNext(cores[i], steps[i])
  }

  lemma {:induction false} CoreRunInv(c: Config, cores: seq<Core>, steps: seq<CoreStep>, k: nat)
    requires ValidConfig(c) && CoreRun(c, cores, steps) && k < |cores|
    ensures CoreInv(cores[k])
  {
    if k == 0 {
      FreshWorld(c);
      hide WorldInv;
    } else {
      hide CoreInv, CoreNext;
      CoreRunInv(c, cores, steps, k - 1);
      CoreNextKeeps(cores[k - 1], steps[k - 1]);
    }
  }

  // ---------------------------------------------------------------- every call ends

  function Weight(a: Action): nat {
    if Light(a) then 1 else 4
  }

  function TotalWeight(queue: seq<Action>): nat {
    if queue == [] then 0 else Weight(queue[0]) + TotalWeight(queue[1..])
  }

  lemma {:induction false} WeightConcat(a: seq<Action>, b: seq<Action>)
    ensures TotalWeight(a + b) == TotalWeight(a) + TotalWeight(b)
  {
    if a == [] {
      assert a + b == b;
    } else {
      WeightConcat(a[1..], b);
      assert (a + b)[1..] == a[1..] + b;
    }
  }

  lemma {:induction false} LightWeight(queue: seq<Action>)
    requires AllLight(queue)
    ensures TotalWeight(queue) == |queue|
  {
    if queue != [] {
      assert queue[0] in queue;
      LightWeight(queue[1..]);
    }
  }

  lemma FailWeight(core: Core, d: Dispatcher, id: nat)
    requires WorldInv(core.world)
    ensures TotalWeight(Abandon(core, d, id).queue) <= 3
  {
    hide WorldInv, EngineInv, FailFlow, Next, Mild;
    WorldEngine(core.world);
    FailMild(core.world.engine, id, DownstreamFailure);
    LightWeight(Abandon(core, d, id).queue);
  }

  lemma ContinueWeight(core: Core, d: Dispatcher, ev: Event)
    requires core.queue != [] && Possible(core.world.engine, ev)
    requires AllLight(Step(core.world.engine, ev).actions) && |Step(core.world.engine, ev).actions| <= 3
    ensures TotalWeight(Continue(core, d, ev).queue) <= TotalWeight(core.queue) - Weight(core.queue[0]) + 3
  {
    hide Step, Next;
    WeightConcat(core.queue[1..], Step(core.world.engine, ev).actions);
    LightWeight(Step(core.world.engine, ev).actions);
  }

  /** What the engine asks for in reaction to a performed action is light. */
  lemma ReactionLight(w: World, ev: Event)
    requires WorldInv(w) && (ev.StreamOpens? || ev.DnsAnswers? || (ev.StreamTook? && Knows(w.engine, ev.id)))
    ensures AllLight(Step(w.engine, ev).actions) && |Step(w.engine, ev).actions| <= 3
  {
    hide WorldInv, EngineInv, Opened, AcknowledgeForwarded, CompleteDns, Mild, Knows;
    WorldEngine(w);
    match ev {
      case StreamOpens(id, now) => OpensMild(w.engine, id, now);
      case StreamTook(id, bytes, now) => TookShape(w.engine, id, bytes, now);
      case DnsAnswers(query, wire, now) => AnswersMild(w.engine, query, wire, now);
    }
  }

  /** Performing an action makes the queue lighter, so every call ends. */
  lemma PerformShrinks(core: Core, fate: Fate)
    requires CoreInv(core) && core.queue != []
    ensures TotalWeight(Perform(core, fate).queue) < TotalWeight(core.queue)
  {
    hide WorldInv, QueueOk, StreamsOk, WrittenOk, GatewayOk, AllCover, Continue, Abandon, Push, Step, HasRoom, Serves;
    var w, d := core.world, core.dispatcher;
    match core.queue[0] {
      case OpenStream(id, _) =>
        ReactionLight(w, StreamOpens(id, fate.now));
        ContinueWeight(core, Open(d, id, fate.luck).dispatcher, StreamOpens(id, fate.now));
        FailWeight(core, d, id);
      case ForwardPayload(id, payload) =>
        assert Knows(w.engine, id) by { OwnForward(core); ServesKnows(w, id); }
        ReactionLight(w, StreamTook(id, |payload|, fate.now));
        ContinueWeight(core, WriteAll(d, id, payload, fate.luck).dispatcher, StreamTook(id, |payload|, fate.now));
        FailWeight(core, WriteAll(d, id, payload, fate.luck).dispatcher, id);
      case ResolveDns(query, _, _) =>
        ReactionLight(w, DnsAnswers(query, fate.answer, fate.now));
        ContinueWeight(core, d, DnsAnswers(query, fate.answer, fate.now));
      case CloseWrite(id) => FailWeight(core, d, id);
      case _ =>
    }
  }

  lemma ServesKnows(w: World, id: nat)
    requires Serves(w, id)
    ensures Knows(w.engine, id)
  {
  }

  lemma OwnForward(core: Core)
    requires CoreInv(core) && core.queue != [] && core.queue[0].ForwardPayload?
    ensures Serves(core.world, core.queue[0].flow)
  {
    hide WorldInv, StreamsOk, WrittenOk, GatewayOk, AllCover;
    QueueForward(core.world, core.dispatcher, core.queue);
  }

  // ---------------------------------------------------------------- acknowledgements

  /** When a packet without RST of a forwarded flow goes out, every byte ever taken from the
      application on that flow has been written completely, and the acknowledgement covers at most
      those bytes and the FINs taken. */
  lemma AcksOnlyWritten(c: Config, cores: seq<Core>, steps: seq<CoreStep>, k: nat)
    requires ValidConfig(c) && CoreRun(c, cores, steps) && k < |cores|
    requires cores[k].queue != [] && cores[k].queue[0].SendTcp? && !cores[k].queue[0].segment.flags.rst
    ensures var a := cores[k].queue[0]; var traces := cores[k].world.traces;
            && a.origin.Some? && a.origin.value in traces
            && var t := traces[a.origin.value];
               !t.dns ==>
                 && t.taken == WrittenTo(cores[k].dispatcher, a.origin.value)
                 && exists m: nat ::
                      m <= |WrittenTo(cores[k].dispatcher, a.origin.value)| + t.fins && a.segment.acknowledgement == At(t.isn, m)
  {
    hide CoreRun, WorldInv, QueueOk, StreamsOk, GatewayOk;
    var core := cores[k];
    CoreRunInv(c, cores, steps, k);
    var a := core.queue[0];
    assert a in core.queue && CoversOk(core.world.traces, a);
    var id := a.origin.value;
    if !core.world.traces[id].dns {
      assert WrittenFor(core.world, core.dispatcher, core.queue, id);
    }
  }

  // ---------------------------------------------------------------- the end of a call

  /** At the end of every call each stream of the dispatcher belongs to a live flow that is not DNS. */
  lemma StreamsBelong(c: Config, cores: seq<Core>, steps: seq<CoreStep>, k: nat, id: nat)
    requires ValidConfig(c) && CoreRun(c, cores, steps) && k < |cores| && cores[k].queue == []
    requires id in cores[k].dispatcher.streams
    ensures Knows(cores[k].world.engine, id) && !FlowOf(cores[k].world.engine, id).dns
  {
    hide CoreRun, WorldInv, QueueOk, WrittenOk, GatewayOk, AllCover, Follows, Sane;
    CoreRunInv(c, cores, steps, k);
    assert Serves(cores[k].world, id);
    LiveFollows(cores[k].world, id);
    DnsAgrees(FlowOf(cores[k].world.engine, id), cores[k].world.traces[id]);
  }

  /** At the end of every call nothing waits for the gateway in any live flow. */
  lemma GatewayQueuesEmpty(c: Config, cores: seq<Core>, steps: seq<CoreStep>, k: nat, id: nat)
    requires ValidConfig(c) && CoreRun(c, cores, steps) && k < |cores| && cores[k].queue == []
    requires Knows(cores[k].world.engine, id)
    ensures FlowOf(cores[k].world.engine, id).queuedToGateway == 0
  {
    hide CoreRun, WorldInv, QueueOk, WrittenOk, StreamsOk, AllCover;
    CoreRunInv(c, cores, steps, k);
  }

  // ---------------------------------------------------------------- end to end

  ghost predicate StepConforms(core: Core, step: CoreStep, id: nat, stream: seq<byte>) {
    step.Calls? ==> Conforms(core.world, step.event, id, stream)
  }

  ghost predicate CoreConforms(cores: seq<Core>, steps: seq<CoreStep>, id: nat, stream: seq<byte>) {
    && |stream| < WRAP && |cores| == |steps| + 1
    && forall i :: 0 <= i < |steps| ==> StepConforms(cores[i], steps[i], id, stream)
  }

  /** Every step of the core is at most one event of the engine. */
  lemma StepOnStream(core: Core, step: CoreStep, id: nat, stream: seq<byte>)
    requires CoreInv(core) && Allowed(core, step) && StepConforms(core, step, id, stream) && |stream| < WRAP
    requires id in core.world.traces ==> OnStream(core.world.traces[id], stream)
    ensures id in CoreNext(core, step).world.traces ==> OnStream(CoreNext(core, step).world.traces[id], stream)
  {
    hide WorldInv, QueueOk, StreamsOk, WrittenOk, GatewayOk, AllCover, Next, OnStream, Push, HasRoom;
    var w := core.world;
    match step {
      case Calls(ev) => NextOnStream(w, ev, id, stream);
      case Performs(fate) =>
        match core.queue[0] {
          case OpenStream(flow, _) =>
            NextOnStream(w, StreamOpens(flow, fate.now), id, stream);
            NextOnStream(w, StreamFails(flow, DownstreamFailure), id, stream);
          case ForwardPayload(flow, payload) =>
            NextOnStream(w, StreamTook(flow, |payload|, fate.now), id, stream);
            NextOnStream(w, StreamFails(flow, DownstreamFailure), id, stream);
          case ResolveDns(query, _, _) => NextOnStream(w, DnsAnswers(query, fate.answer, fate.now), id, stream);
          case CloseWrite(flow) => NextOnStream(w, StreamFails(flow, DownstreamFailure), id, stream);
          case _ =>
        }
      case _ =>
    }
  }

  lemma {:induction false} CoreOnStream(c: Config, cores: seq<Core>, steps: seq<CoreStep>, k: nat, id: nat,
                                        stream: seq<byte>)
    requires ValidConfig(c) && CoreRun(c, cores, steps) && CoreConforms(cores, steps, id, stream) && k < |cores|
    ensures id in cores[k].world.traces ==> OnStream(cores[k].world.traces[id], stream)
  {
    hide CoreInv, CoreNext, StepConforms, OnStream;
    if k > 0 {
      CoreOnStream(c, cores, steps, k - 1, id, stream);
      CoreRunInv(c, cores, steps, k - 1);
      StepOnStream(cores[k - 1], steps[k - 1], id, stream);
    }
  }

  /** The bytes a flow's protected stream has accepted are at every moment a prefix of what the client
      sent, however the segments were cut, repeated or reordered and whichever writes failed. */
  lemma WrittenPrefix(c: Config, cores: seq<Core>, steps: seq<CoreStep>, k: nat, id: nat, stream: seq<byte>)
    requires ValidConfig(c) && CoreRun(c, cores, steps) && CoreConforms(cores, steps, id, stream) && k < |cores|
    requires id in cores[k].world.traces && !cores[k].world.traces[id].dns
    ensures WrittenTo(cores[k].dispatcher, id) <= stream
  {
    hide CoreRun, CoreConforms, WorldInv, QueueOk, StreamsOk, GatewayOk, AllCover;
    CoreRunInv(c, cores, steps, k);
    CoreOnStream(c, cores, steps, k, id, stream);
    assert WrittenFor(cores[k].world, cores[k].dispatcher, cores[k].queue, id);
  }
}
