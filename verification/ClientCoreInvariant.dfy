/** Every call and every performed action keeps the invariant that joins engine, queue and streams. */
module ClientCoreInvariant {
  import opened Bytes
  import opened Options
  import opened Packet
  import opened TcpFlow
  import opened TcpFlowTheorems
  import opened Engine
  import opened EngineInvariant
  import opened EngineCloses
  import opened EngineWorld
  import opened EngineRuns
  import opened EngineTheorems
  import opened Dispatcher
  import opened ClientCore

  // ---------------------------------------------------------------- events that take nothing from the application

  ghost predicate SameTaken(traces: map<nat, Trace>, traces': map<nat, Trace>) {
    && traces'.Keys == traces.Keys
    && forall id :: id in traces ==>
         && traces'[id].dns == traces[id].dns && traces'[id].isn == traces[id].isn
         && traces'[id].taken == traces[id].taken && traces'[id].fins == traces[id].fins
  }

  ghost predicate Gentle(w: World, ev: Event)
    requires Possible(w.engine, ev)
  {
    Mild(w.engine, Step(w.engine, ev)) && SameTaken(w.traces, TracesAfter(w.engine, ev, w.traces))
  }

  lemma StreamGentle(w: World, ev: Event)
    requires WorldInv(w) && Possible(w.engine, ev) && !ev.Arrives? && !ev.StreamTook?
    ensures Gentle(w, ev)
  {
    hide WorldInv, EngineInv, Mild, FailFlow, Opened, ProtectedPayload, ProtectedClosed, CompleteDns, Tick, Resume,
      FailAll, Stop,
      Accepts, Receptive, Framed;
    var e := w.engine;
    WorldEngine(w);
    match ev {
      case StreamOpens(id, now) => OpensMild(e, id, now);
      case StreamSays(id, payload, now) => SaysMild(e, id, payload, now);
      case StreamEnds(id, now) => EndsMild(e, id, now);
      case StreamFails(id, reason) => FailMild(e, id, reason);
      case DnsAnswers(query, wire, now) => AnswersMild(e, query, wire, now);
      case Clock(now, order) =>
        TickedKeeps(w, now);
        WorldEngine(World(AllTicked(e, now), w.traces, w.history));
        TickMild(e, now, order);
      case Sleeps(now) => SuspendMild(e, now);
      case Wakes(now, healthy, order) => ResumeMild(e, now, healthy, order);
      case PathLost(reason, order) => FailAllMild(e, reason, order);
      case Stops(order) => StopMild(e, order);
    }
  }

  lemma SuspendMild(e: Engine, now: nat)
    ensures Mild(e, Done(Suspend(e, now), []))
  {
  }

  /** A packet that neither opens a flow nor reaches one. */
  lemma StrayGentle(w: World, input: Input)
    requires WorldInv(w)
    requires match Classify(input.packet)
             case Ok(Tcp(s)) => !Admits(w.engine, s, input) && !Delivered(w.engine, s, input)
             case _ => true
    ensures Gentle(w, Arrives(input))
  {
    hide WorldInv, EngineInv, Classify, FailFlow, Remove;
    var e := w.engine;
    WorldEngine(w);
    match Classify(input.packet) {
      case Ok(Tcp(s)) => UndeliveredMild(e, s, input);
      case _ =>
    }
  }

  lemma UndeliveredMild(e: Engine, s: Segment, input: Input)
    requires EngineInv(e) && !Admits(e, s, input) && !Delivered(e, s, input)
    ensures Mild(e, ProcessTcp(e, s, input))
  {
    hide EngineInv, FailFlow, Remove;
    var key := KeyOf(s);
    if key in e.flows {
      var id := e.flows[key].id;
      Listed(e, key);
      FailMild(e, id, MalformedPacket);
      FailMild(e, id, ProtectedPathUnavailable);
      RemoveKnows(e, id);
    }
  }

  // ---------------------------------------------------------------- a gentle event behind a harmless queue

  ghost predicate Calm(queue: seq<Action>) {
    forall a :: a in queue ==> !Risky(a)
  }

  ghost predicate Rested(w: World, d: Dispatcher, queue: seq<Action>) {
    && Calm(queue) && StreamsOk(w, d, queue) && WrittenOk(w, d, queue) && GatewayOk(w.engine, queue)
    && AllCover(w.traces, queue) && d.written.Keys <= w.traces.Keys
  }

  lemma CalmFront(queue: seq<Action>, id: nat)
    requires Calm(queue)
    ensures Front(queue, id) == []
  {
    assert queue != [] ==> queue[0] in queue;
  }

  lemma CalmFronts(queue: seq<Action>)
    requires Calm(queue)
    ensures forall id :: Front(queue, id) == []
  {
    forall id ensures Front(queue, id) == [] {
      CalmFront(queue, id);
    }
  }

  lemma RestedInv(core: Core)
    requires WorldInv(core.world) && Rested(core.world, core.dispatcher, core.queue)
    ensures CoreInv(core)
  {
    hide WorldInv, StreamsOk, WrittenOk, GatewayOk, AllCover;
    assert forall i :: 0 <= i < |core.queue| ==> core.queue[i] in core.queue;
  }

  lemma GentleStreams(w: World, d: Dispatcher, rest: seq<Action>, ev: Event)
    requires WorldInv(w) && Possible(w.engine, ev) && Gentle(w, ev) && StreamsOk(w, d, rest)
    ensures StreamsOk(Next(w, ev), d, rest + Step(w.engine, ev).actions)
  {
    hide WorldInv, Step, TracesAfter;
    var w', queue := Next(w, ev), rest + Step(w.engine, ev).actions;
    forall id | id in d.streams ensures Serves(w', id) || CloseBoth(id) in queue {
      if Serves(w, id) && !Knows(w'.engine, id) {
        assert CloseBoth(id) in Step(w.engine, ev).actions;
      }
    }
  }

  lemma GentleWritten(w: World, d: Dispatcher, rest: seq<Action>, ev: Event)
    requires WorldInv(w) && Possible(w.engine, ev) && Gentle(w, ev) && WrittenOk(w, d, rest) && Calm(rest)
    ensures WrittenOk(Next(w, ev), d, rest + Step(w.engine, ev).actions)
  {
    hide WorldInv, Step, TracesAfter;
    var w', queue := Next(w, ev), rest + Step(w.engine, ev).actions;
    forall id | id in w'.traces && !w'.traces[id].dns
      ensures WrittenFor(w', d, queue, id) {
      CalmFront(rest, id);
      CalmFront(queue, id);
      assert WrittenFor(w, d, rest, id);
      if Silenced(w, rest, id) {
        assert Silenced(w', queue, id);
      }
    }
  }

  lemma GentleCover(w: World, rest: seq<Action>, ev: Event)
    requires WorldInv(w) && Possible(w.engine, ev) && Gentle(w, ev) && AllCover(w.traces, rest)
    ensures AllCover(Next(w, ev).traces, rest + Step(w.engine, ev).actions)
  {
    hide WorldInv, Step, TracesAfter, Mild, Covered;
    NextGood(w, ev);
    var traces' := Next(w, ev).traces;
    forall a | a in rest ensures CoversOk(traces', a) {
      assert CoversOk(w.traces, a);
      if a.SendTcp? && !a.segment.flags.rst {
        CoveredGrows(w.traces[a.origin.value], traces'[a.origin.value], a.segment.acknowledgement);
      }
    }
    forall a | a in Step(w.engine, ev).actions ensures CoversOk(traces', a) {
      assert Truthful(traces', a);
    }
  }

  lemma GentleKeeps(w: World, d: Dispatcher, rest: seq<Action>, ev: Event)
    requires WorldInv(w) && Possible(w.engine, ev) && Gentle(w, ev) && Rested(w, d, rest)
    ensures WorldInv(Next(w, ev)) && Rested(Next(w, ev), d, rest + Step(w.engine, ev).actions)
  {
    hide WorldInv, Step, TracesAfter, StreamsOk, WrittenOk, AllCover;
    NextGood(w, ev);
    GentleStreams(w, d, rest, ev);
    GentleWritten(w, d, rest, ev);
    GentleCover(w, rest, ev);
    CalmFronts(rest);
    CalmFronts(rest + Step(w.engine, ev).actions);
  }

  // ---------------------------------------------------------------- performing an action that cannot fail

  lemma TailQueue(w: World, d: Dispatcher, queue: seq<Action>)
    requires queue != [] && QueueOk(w, d, queue)
    ensures QueueOk(w, d, queue[1..])
    ensures forall id :: Front(queue[1..], id) == []
  {
    var tail := queue[1..];
    if tail != [] {
      assert RiskyAt(queue, 1) && tail[0] == queue[1];
    }
    assert forall a :: a in tail ==> a in queue;
    forall i | 0 <= i < |tail| ensures RiskyAt(tail, i) && WriteCloseOk(w, tail, i) {
      assert tail[i] == queue[i + 1] && RiskyAt(queue, i + 1) && WriteCloseOk(w, queue, i + 1);
    }
  }

  lemma PassKeeps(core: Core, d: Dispatcher)
    requires CoreInv(core) && core.queue != [] && !core.queue[0].ForwardPayload? && !core.queue[0].OpenStream?
    requires d == core.dispatcher.(streams := d.streams, writeClosed := d.writeClosed)
    requires d.streams == core.dispatcher.streams - (if core.queue[0].CloseBoth? then {core.queue[0].flow} else {})
    ensures CoreInv(Pass(core, d))
  {
    hide WorldInv, QueueOk, CoversOk;
    var w, queue, tail := core.world, core.queue, core.queue[1..];
    TailQueue(w, core.dispatcher, queue);
    assert forall a :: a in tail ==> a in queue;
    assert queue == [queue[0]] + tail;
    assert QueueOk(w, d, tail) by {
      SameQueue(w, core.dispatcher, d, tail);
    }
    forall id | id in w.traces && !w.traces[id].dns
      ensures WrittenFor(w, d, tail, id) {
      assert Front(queue, id) == [];
      assert WrittenFor(w, core.dispatcher, queue, id);
    }
  }

  lemma SameQueue(w: World, d: Dispatcher, d': Dispatcher, queue: seq<Action>)
    requires QueueOk(w, d, queue) && d'.streams <= d.streams
    ensures QueueOk(w, d', queue)
  {
  }

  // ---------------------------------------------------------------- performing an action that fails

  lemma AbandonKeeps(core: Core, d: Dispatcher, id: nat)
    requires CoreInv(core) && Serves(core.world, id)
    requires d == core.dispatcher.(written := d.written) && d.written.Keys <= core.world.traces.Keys
    requires forall other :: other != id ==>
               WrittenTo(d, other) == WrittenTo(core.dispatcher, other) && Front(core.queue, other) == []
    requires WrittenTo(d, id) <= core.world.traces[id].taken
    requires forall a :: a in core.queue && a.CloseBoth? ==> a.flow == id
    ensures CoreInv(Abandon(core, d, id))
  {
    hide WorldInv, QueueOk, CoversOk, FailFlow, EngineInv;
    var w, ev := core.world, StreamFails(id, DownstreamFailure);
    WorldEngine(w);
    NextGood(w, ev);
    FailMild(w.engine, id, DownstreamFailure);
    var w', queue := Next(w, ev), Step(w.engine, ev).actions;
    assert w'.traces == w.traces;
    forall other | other in w'.traces && !w'.traces[other].dns
      ensures WrittenFor(w', d, queue, other) {
      CalmFront(queue, other);
      if other != id {
        assert WrittenFor(w, core.dispatcher, core.queue, other);
      }
    }
    forall a | a in queue ensures CoversOk(w'.traces, a) {
      CoversReset(w'.traces, a);
    }
    CalmFronts(queue);
    RestedInv(Abandon(core, d, id));
  }

  lemma CoversReset(traces: map<nat, Trace>, a: Action)
    requires a.SendTcp? ==> a.segment.flags.rst
    ensures CoversOk(traces, a)
  {
  }

  // ---------------------------------------------------------------- performing an action that succeeds

  lemma OpenKeeps(core: Core, id: nat, d: Dispatcher, now: nat)
    requires CoreInv(core) && core.queue != [] && core.queue[0].OpenStream? && core.queue[0].flow == id
    requires d == core.dispatcher.(streams := core.dispatcher.streams + {id})
    ensures CoreInv(Continue(core, d, StreamOpens(id, now)))
  {
    hide WorldInv, NoMix, CoversOk, Step, Gentle, Knows;
    var w := core.world;
    assert core.queue == [core.queue[0]] && core.queue[1..] == [];
    forall other | other in w.traces && !w.traces[other].dns
      ensures WrittenFor(w, d, [], other) {
      assert WrittenFor(w, core.dispatcher, core.queue, other);
    }
    assert Rested(w, d, []);
    StreamGentle(w, StreamOpens(id, now));
    hide Rested, Next;
    GentleKeeps(w, d, [], StreamOpens(id, now));
    RestedInv(Continue(core, d, StreamOpens(id, now)));
  }

  lemma ResolveKeeps(core: Core, query: nat, answer: seq<byte>, now: nat)
    requires CoreInv(core) && core.queue != [] && core.queue[0].ResolveDns? && core.queue[0].query == query
    ensures CoreInv(Continue(core, core.dispatcher, DnsAnswers(query, answer, now)))
  {
    hide WorldInv, CoversOk, Step, Gentle, Knows, Serves;
    var w, d, queue, tail := core.world, core.dispatcher, core.queue, core.queue[1..];
    assert queue[0] in queue;
    assert forall a :: a in tail ==> a in queue;
    assert queue == [queue[0]] + tail;
    CalmFronts(tail);
    CalmFronts(queue);
    forall other | other in w.traces && !w.traces[other].dns
      ensures WrittenFor(w, d, tail, other) {
      assert WrittenFor(w, d, queue, other);
    }
    assert Rested(w, d, tail);
    StreamGentle(w, DnsAnswers(query, answer, now));
    hide Rested, Next;
    GentleKeeps(w, d, tail, DnsAnswers(query, answer, now));
    RestedInv(Continue(core, d, DnsAnswers(query, answer, now)));
  }

  // ---------------------------------------------------------------- a payload written completely

  /** The queue after the write: the close that came with the payload, then the acknowledgement. */
  lemma TookQueue(w: World, w': World, d: Dispatcher, id: nat, queue: seq<Action>, ack: Action)
    requires QueueOk(w, d, queue) && queue != [] && queue[0].ForwardPayload? && queue[0].flow == id
    requires w'.traces == w.traces && ack.SendTcp?
    requires Knows(w'.engine, id) ==> FlowOf(w'.engine, id).state == FlowOf(w.engine, id).state
    requires !Knows(w'.engine, id) ==> FlowOf(w.engine, id).state.Closing?
    ensures QueueOk(w', d, queue[1..] + [ack])
    ensures !Knows(w'.engine, id) ==> CloseBoth(id) in queue[1..] + [ack]
    ensures forall other :: Front(queue[1..] + [ack], other) == []
  {
    assert ForwardOk(w, queue);
    if |queue| == 1 {
      assert queue[1..] + [ack] == [ack];
    } else {
      assert queue[1..] + [ack] == [queue[1], ack];
    }
  }

  lemma TookWritten(w: World, w': World, d: Dispatcher, d': Dispatcher, id: nat, queue: seq<Action>, ack: Action)
    requires WrittenOk(w, d, queue) && queue != [] && queue[0].ForwardPayload? && queue[0].flow == id
    requires Knows(w.engine, id)
    requires w'.traces == w.traces && d' == d.(written := d.written[id := WrittenTo(d, id) + queue[0].payload])
    requires forall other :: other != id ==> (Knows(w'.engine, other) <==> Knows(w.engine, other))
    requires ack.SendTcp? && ack.origin == Some(id)
    requires forall other :: Front(queue[1..] + [ack], other) == []
    ensures WrittenOk(w', d', queue[1..] + [ack])
  {
    var queue' := queue[1..] + [ack];
    assert forall a :: a in queue' ==> a in queue || a == ack;
    forall other | other in w'.traces && !w'.traces[other].dns
      ensures WrittenFor(w', d', queue', other) {
      assert WrittenFor(w, d, queue, other);
    }
  }

  lemma TookStreams(w: World, w': World, d: Dispatcher, d': Dispatcher, id: nat, queue: seq<Action>, ack: Action)
    requires StreamsOk(w, d, queue) && queue != [] && queue[0].ForwardPayload? && d'.streams == d.streams
    requires w'.traces == w.traces
    requires forall other :: other != id ==> (Knows(w'.engine, other) <==> Knows(w.engine, other))
    requires !Knows(w'.engine, id) ==> CloseBoth(id) in queue[1..] + [ack]
    ensures StreamsOk(w', d', queue[1..] + [ack])
  {
    assert queue == [queue[0]] + queue[1..];
    forall other | other in d'.streams ensures Serves(w', other) || CloseBoth(other) in queue[1..] + [ack] {
      assert Serves(w, other) || CloseBoth(other) in queue;
    }
  }

  lemma ForwardKeeps(core: Core, id: nat, payload: seq<byte>, d: Dispatcher, now: nat)
    requires CoreInv(core) && core.queue != [] && core.queue[0] == ForwardPayload(id, payload)
    requires d == core.dispatcher.(written := core.dispatcher.written[id := WrittenTo(core.dispatcher, id) + payload])
    ensures CoreInv(Continue(core, d, StreamTook(id, |payload|, now)))
  {
    hide WorldInv, EngineInv, AcknowledgeForwarded, WrittenOk, StreamsOk, QueueOk, CoversOk;
    var w, queue, ev := core.world, core.queue, StreamTook(id, |payload|, now);
    assert ForwardOk(w, queue) by { QueueForward(w, core.dispatcher, queue); }
    WorldEngine(w);
    NextGood(w, ev);
    TookShape(w.engine, id, |payload|, now);
    var w', ack := Next(w, ev), Step(w.engine, ev).actions[0];
    assert Step(w.engine, ev).actions == [ack];
    assert Front(queue, id) == payload;
    TookQueue(w, w', core.dispatcher, id, queue, ack);
    SameQueue(w', core.dispatcher, d, queue[1..] + [ack]);
    TookStreams(w, w', core.dispatcher, d, id, queue, ack);
    TookWritten(w, w', core.dispatcher, d, id, queue, ack);
    assert forall a :: a in queue[1..] ==> a in queue;
    TruthCovers(w'.traces, [ack]);
    assert ack in [ack] && CoversOk(w'.traces, ack);
  }

  lemma QueueForward(w: World, d: Dispatcher, queue: seq<Action>)
    requires QueueOk(w, d, queue)
    ensures ForwardOk(w, queue)
  {
  }

  lemma OutputApart(core: Core, core': Core)
    requires CoreInv(core) && core' == core.(output := core'.output)
    ensures CoreInv(core')
  {
  }

  /** A live flow has written everything but what is at the front of the queue. */
  lemma OwnWritten(core: Core, id: nat)
    requires CoreInv(core) && Serves(core.world, id)
    ensures core.world.traces[id].taken == WrittenTo(core.dispatcher, id) + Front(core.queue, id)
  {
    hide WorldInv, QueueOk, StreamsOk, GatewayOk, AllCover;
    assert WrittenFor(core.world, core.dispatcher, core.queue, id);
  }

  lemma ForwardPerform(core: Core, id: nat, payload: seq<byte>, fate: Fate)
    requires CoreInv(core) && core.queue != [] && core.queue[0] == ForwardPayload(id, payload)
    ensures CoreInv(Perform(core, fate))
  {
    hide WorldInv, StreamsOk, WrittenOk, GatewayOk, AllCover, Continue, Abandon, Push;
    var w, d, queue := core.world, core.dispatcher, core.queue;
    assert ForwardOk(w, queue);
    var wrote := WriteAll(d, id, payload, fate.luck);
    if wrote.ok {
      assert payload[..|payload|] == payload;
      ForwardKeeps(core, id, payload, wrote.dispatcher, fate.now);
    } else {
      assert forall a :: a in queue && a.CloseBoth? ==> a.flow == id by {
        assert |queue| == 1 ==> queue == [queue[0]];
        assert |queue| == 2 ==> queue == [queue[0], queue[1]];
      }
      forall other | other != id ensures WrittenTo(wrote.dispatcher, other) == WrittenTo(d, other) {
        WriteAllElsewhere(d, id, payload, fate.luck, other);
      }
      OwnWritten(core, id);
      AbandonKeeps(core, wrote.dispatcher, id);
    }
  }

  lemma OpenPerform(core: Core, fate: Fate)
    requires CoreInv(core) && core.queue != [] && core.queue[0].OpenStream?
    ensures CoreInv(Perform(core, fate))
  {
    hide WorldInv, StreamsOk, WrittenOk, GatewayOk, AllCover, Continue, Abandon, HasRoom;
    var d, queue := core.dispatcher, core.queue;
    assert OpenOk(core.world, d, queue) && queue == [queue[0]];
    var id := queue[0].flow;
    if Open(d, id, fate.luck).ok {
      OpenKeeps(core, id, Open(d, id, fate.luck).dispatcher, fate.now);
    } else {
      OwnWritten(core, id);
      AbandonKeeps(core, d, id);
    }
  }

  lemma CloseWritePerform(core: Core, fate: Fate)
    requires CoreInv(core) && core.queue != [] && core.queue[0].CloseWrite?
    ensures CoreInv(Perform(core, fate))
  {
    hide WorldInv, StreamsOk, WrittenOk, GatewayOk, AllCover, Pass, Abandon;
    var d, queue := core.dispatcher, core.queue;
    var id := queue[0].flow;
    assert WriteCloseOk(core.world, queue, 0);
    if id in d.streams {
      PassKeeps(core, MarkWriteClosed(d, id).dispatcher);
    } else {
      OwnWritten(core, id);
      AbandonKeeps(core, d, id);
    }
  }

  /** Performing any queued action keeps the invariant, whatever the gateway does. */
  lemma PerformKeeps(core: Core, fate: Fate)
    requires CoreInv(core) && core.queue != []
    ensures CoreInv(Perform(core, fate))
  {
    hide CoreInv, Continue, Pass, Abandon, Open, WriteAll;
    var d, queue := core.dispatcher, core.queue;
    match queue[0] {
      case OpenStream(_, _) => OpenPerform(core, fate);
      case ForwardPayload(id, payload) => ForwardPerform(core, id, payload, fate);
      case ResolveDns(query, _, _) => ResolveKeeps(core, query, fate.answer, fate.now);
      case CloseWrite(_) => CloseWritePerform(core, fate);
      case CloseBoth(id) => PassKeeps(core, Close(d, id));
      case _ =>
        PassKeeps(core, d);
        OutputApart(Pass(core, d), Perform(core, fate));
    }
  }

  // ---------------------------------------------------------------- calls

  lemma InstallKnows(e: Engine, key: Key, o: Outcome)
    requires EngineInv(e) && Proper(e, key, o)
    ensures var r := Install(e, key, o); var id := o.flow.id;
            && Knows(e, id) && FlowOf(e, id) == e.flows[key]
            && (if o.removed then !Knows(r, id) else Knows(r, id) && FlowOf(r, id) == o.flow)
            && (forall other :: other != id ==>
                  (Knows(r, other) <==> Knows(e, other)) && (Knows(e, other) ==> FlowOf(r, other) == FlowOf(e, other)))
  {
    hide EngineInv, Install, Sane;
    var id, r := o.flow.id, Install(e, key, o);
    Listed(e, key);
    InstallInv(e, key, o);
    forall other | other != id
      ensures (Knows(r, other) <==> Knows(e, other)) && (Knows(e, other) ==> FlowOf(r, other) == FlowOf(e, other)) {
      OthersApart(e, id, other);
    }
  }

  /** Engine, traces and queue after a call that changed one flow: everything about other flows stands. */
  ghost predicate OneFlow(w: World, w': World, id: nat, queue: seq<Action>) {
    && Serving(w, w', id)
    && (forall other :: other != id ==> (Knows(w'.engine, other) <==> Knows(w.engine, other))
                                        && (Knows(w.engine, other) ==> FlowOf(w'.engine, other) == FlowOf(w.engine, other)))
    && (forall a :: a in queue && a.SendTcp? && !a.segment.flags.rst ==> a.origin == Some(id))
    && (forall other :: other != id ==> Front(queue, other) == [])
  }

  ghost predicate Serving(w: World, w': World, id: nat) {
    && w'.traces.Keys == w.traces.Keys + {id}
    && forall other :: other in w.traces && other != id ==> w'.traces[other] == w.traces[other]
  }

  /** What remains to be shown for that flow. */
  ghost predicate OwnFlow(w': World, d: Dispatcher, id: nat, queue: seq<Action>) {
    && id in w'.traces
    && (id in d.streams ==> Serves(w', id) || CloseBoth(id) in queue)
    && (!w'.traces[id].dns ==> w'.traces[id].taken == WrittenTo(d, id) + Front(queue, id))
    && (Knows(w'.engine, id) ==> FlowOf(w'.engine, id).queuedToGateway == |Front(queue, id)|)
  }

  lemma OneFlowKeeps(core: Core, core': Core, id: nat)
    requires CoreInv(core) && core.queue == [] && WorldInv(core'.world) && core'.dispatcher == core.dispatcher
    requires OneFlow(core.world, core'.world, id, core'.queue) && OwnFlow(core'.world, core.dispatcher, id, core'.queue)
    requires QueueOk(core'.world, core.dispatcher, core'.queue) && AllCover(core'.world.traces, core'.queue)
    ensures CoreInv(core')
  {
    hide WorldInv, QueueOk, CoversOk;
    var w, w', d, queue := core.world, core'.world, core.dispatcher, core'.queue;
    forall other | other in d.streams ensures Serves(w', other) || CloseBoth(other) in queue {
      assert Serves(w, other);
    }
    forall other | other in w'.traces && !w'.traces[other].dns
      ensures WrittenFor(w', d, queue, other) {
      if other != id {
        assert WrittenFor(w, d, core.queue, other);
      }
    }
    forall other | Knows(w'.engine, other) ensures FlowOf(w'.engine, other).queuedToGateway == |Front(queue, other)| {
      if other != id {
        assert FlowOf(w.engine, other).queuedToGateway == |Front(core.queue, other)|;
      }
    }
  }

  lemma TruthCovers(traces: map<nat, Trace>, actions: seq<Action>)
    requires AllTruthful(traces, actions)
    ensures AllCover(traces, actions)
  {
    forall a | a in actions ensures CoversOk(traces, a) {
      assert Truthful(traces, a);
    }
  }

  /** The queue after a flow is let in: open its stream, or for DNS answer its handshake at once. */
  lemma AdmittedQueue(w': World, d: Dispatcher, queue: seq<Action>, id: nat)
    requires Knows(w'.engine, id) && id in w'.traces && id !in d.streams && |queue| == 1
    requires if w'.traces[id].dns then queue[0].SendTcp? && queue[0].origin == Some(id)
             else queue[0].OpenStream? && queue[0].flow == id
    ensures QueueOk(w', d, queue) && forall other :: Front(queue, other) == []
    ensures forall a :: a in queue && a.SendTcp? ==> a.origin == Some(id)
  {
    assert queue == [queue[0]];
  }

  lemma AdmittedNext(w: World, s: Segment, input: Input)
    requires Classify(input.packet) == Ok(Tcp(s)) && Admits(w.engine, s, input)
    ensures var w', id := Next(w, Arrives(input)), w.engine.nextFlowId;
            && Step(w.engine, Arrives(input)) == ProcessTcp(w.engine, s, input)
            && w'.engine == ProcessTcp(w.engine, s, input).engine
            && id in w'.traces && w'.traces == w.traces[id := w'.traces[id]]
            && w'.traces[id].taken == [] && w'.traces[id].dns == (s.destinationPort == 53)
  {
    hide Classify, ProcessTcp, InitialSequence;
  }

  /** One flow is new and starts with nothing. */
  ghost predicate OneNew(w: World, w': World, id: nat) {
    && id in w'.traces && w'.traces == w.traces[id := w'.traces[id]] && w'.traces[id].taken == []
    && Knows(w'.engine, id) && FlowOf(w'.engine, id).queuedToGateway == 0
    && (forall other :: other != id ==> (Knows(w'.engine, other) <==> Knows(w.engine, other))
                                        && (Knows(w.engine, other) ==> FlowOf(w'.engine, other) == FlowOf(w.engine, other)))
  }

  lemma NewOne(w: World, w': World, d: Dispatcher, queue: seq<Action>, id: nat)
    requires OneNew(w, w', id) && id !in w.traces && id !in d.streams && d.written.Keys <= w.traces.Keys
    requires forall other :: Front(queue, other) == []
    requires forall a :: a in queue && a.SendTcp? ==> a.origin == Some(id)
    ensures OneFlow(w, w', id, queue) && OwnFlow(w', d, id, queue)
  {
    hide Knows, FlowOf;
    assert id !in d.written.Keys;
    assert WrittenTo(d, id) == [];
    assert Serving(w, w', id);
  }

  /** A flow that is let in is the only one that changes, and starts with nothing. */
  lemma AdmittedOne(w: World, d: Dispatcher, s: Segment, input: Input)
    requires WorldInv(w) && StreamsOk(w, d, []) && d.written.Keys <= w.traces.Keys
    requires Classify(input.packet) == Ok(Tcp(s)) && Admits(w.engine, s, input)
    ensures var w', queue, id := Next(w, Arrives(input)), Step(w.engine, Arrives(input)).actions, w.engine.nextFlowId;
            && OneFlow(w, w', id, queue) && OwnFlow(w', d, id, queue) && QueueOk(w', d, queue)
  {
    hide WorldInv, EngineInv, Classify, QueueOk, ProcessTcp, StreamsOk, Step, Next, Admits, Knows, FlowOf, OneFlow, OwnFlow,
      Front;
    WorldEngine(w);
    var ev, id := Arrives(input), w.engine.nextFlowId;
    var w', queue := Next(w, ev), Step(w.engine, ev).actions;
    AdmittedNext(w, s, input);
    Unborn(w, id);
    AdmittedKnows(w.engine, s, input);
    NoStream(w, d, id);
    AdmittedQueue(w', d, queue, id);
    NewOne(w, w', d, queue, id);
  }

  lemma AdmittedKeeps(core: Core, s: Segment, input: Input)
    requires CoreInv(core) && core.queue == []
    requires Classify(input.packet) == Ok(Tcp(s)) && Admits(core.world.engine, s, input)
    ensures CoreInv(Call(core, Arrives(input)))
  {
    assert WorldInv(core.world) && StreamsOk(core.world, core.dispatcher, [])
        && core.dispatcher.written.Keys <= core.world.traces.Keys;
    hide CoreInv, WorldInv, Classify, QueueOk, StreamsOk, AllCover, Step, TracesAfter, Admits, OneFlow, OwnFlow;
    var w, ev := core.world, Arrives(input);
    NextGood(w, ev);
    TruthCovers(Next(w, ev).traces, Step(w.engine, ev).actions);
    AdmittedOne(w, core.dispatcher, s, input);
    OneFlowKeeps(core, Call(core, ev), w.engine.nextFlowId);
  }

  lemma NoStream(w: World, d: Dispatcher, id: nat)
    requires StreamsOk(w, d, []) && !Knows(w.engine, id)
    ensures id !in d.streams
  {
  }

  lemma Unborn(w: World, id: nat)
    requires WorldInv(w) && id == w.engine.nextFlowId
    ensures id !in w.traces && !Knows(w.engine, id)
  {
    hide AllLive, AllHandedOn, Historic, TablesOk, TargetsOk, AllSane;
    assert id !in w.traces.Keys && id !in w.engine.ids.Keys;
  }

  lemma AdmittedKnows(e: Engine, s: Segment, input: Input)
    requires EngineInv(e) && Admits(e, s, input) && !Knows(e, e.nextFlowId)
    ensures var r := ProcessTcp(e, s, input); var id := e.nextFlowId;
            && Knows(r.engine, id) && FlowOf(r.engine, id).queuedToGateway == 0
            && (forall other :: other != id ==> (Knows(r.engine, other) <==> Knows(e, other))
                                                && (Knows(e, other) ==> FlowOf(r.engine, other) == FlowOf(e, other)))
            && (if s.destinationPort == 53 then |r.actions| == 1 && r.actions[0].SendTcp? && r.actions[0].origin == Some(id)
                else r.actions == [OpenStream(id, KeyOf(s).destination)])
  {
    hide Sane, TargetsOk, AllSane, InitialSequence;
  }

  /** The packet is a segment that reaches a flow. */
  ghost predicate DeliveredTo(e: Engine, input: Input, s: Segment, f: Flow) {
    Classify(input.packet) == Ok(Tcp(s)) && Delivered(e, s, input) && f == e.flows[KeyOf(s)]
  }

  /** A segment whose payload is forwarded. */
  lemma ForwardingKeeps(core: Core, s: Segment, input: Input, f: Flow)
    requires DeliveredTo(core.world.engine, input, s, f) && !f.dns && TakesPayload(core.world.engine.config, f, s)
    requires CoreInv(core) && core.queue == []
    ensures CoreInv(Call(core, Arrives(input)))
  {
    hide WorldInv, EngineInv, Classify, CoversOk, Silenced, Existing, TakesPayload, TakesFin, Install, Sane, Proper,
      QueriesIn, ForwardsIn;
    var w, ev, e := core.world, Arrives(input), core.world.engine;
    DeliveredOne(core, s, input, f);
    var id, o := f.id, Existing(e.config, f, s, input.now, Room(e), e.nextDnsId);
    ForwardedShape(e.config, f, s, input.now, Room(e), e.nextDnsId);
    ExistingEffect(e.config, f, s, input.now, Room(e), e.nextDnsId);
    var w', queue := Next(w, ev), o.actions;
    assert queue[0] == ForwardPayload(id, s.payload);
    assert QueueOk(w', core.dispatcher, queue) by {
      TakesPayloadOpen(e.config, f, s);
    }
    assert w.traces[id].taken == WrittenTo(core.dispatcher, id) + Front(core.queue, id) by {
      assert WrittenFor(w, core.dispatcher, core.queue, id);
      NotSilenced(w, core.queue, id);
    }
    assert FlowOf(w.engine, id).queuedToGateway == |Front(core.queue, id)|;
    OneFlowKeeps(core, Call(core, ev), id);
  }

  lemma NotSilenced(w: World, queue: seq<Action>, id: nat)
    requires Knows(w.engine, id)
    ensures !Silenced(w, queue, id)
  {
  }

  lemma TakesPayloadOpen(c: Config, f: Flow, s: Segment)
    requires TakesPayload(c, f, s)
    ensures !Shut(f)
  {
  }

  /** Common to all delivered segments. */
  lemma DeliveredOne(core: Core, s: Segment, input: Input, f: Flow)
    requires DeliveredTo(core.world.engine, input, s, f)
    requires CoreInv(core) && core.queue == []
    ensures var w := core.world; var e := w.engine; var id := f.id;
            var o := Existing(e.config, f, s, input.now, Room(e), e.nextDnsId); var w' := Next(w, Arrives(input));
            && Step(e, Arrives(input)).actions == o.actions
            && WorldInv(w') && AllCover(w'.traces, o.actions) && id in w.traces && Serving(w, w', id)
            && w'.traces[id] == Took(e.config, f, s, Room(e), w.traces[id]) && w.traces[id].dns == f.dns
            && Knows(e, id) && FlowOf(e, id) == f && Sane(e.config, f) && o.flow.id == id
            && (if o.removed then !Knows(w'.engine, id) else Knows(w'.engine, id) && FlowOf(w'.engine, id) == o.flow)
            && (forall other :: other != id ==> (Knows(w'.engine, other) <==> Knows(e, other))
                                                && (Knows(e, other) ==> FlowOf(w'.engine, other) == FlowOf(e, other)))
  {
    hide WorldInv, EngineInv, Classify, CoversOk, Silenced, Existing, TakesPayload, TakesFin, Install, Sane, Proper,
      QueriesIn, ForwardsIn,
      WrittenOk, StreamsOk, GatewayOk, QueueOk, Took;
    var w, e, ev := core.world, core.world.engine, Arrives(input);
    WorldEngine(w);
    Listed(e, KeyOf(s));
    LiveFollows(w, f.id);
    DnsAgrees(f, w.traces[f.id]);
    NextGood(w, ev);
    TruthCovers(Next(w, ev).traces, Step(e, ev).actions);
    ExistingTracked(w, KeyOf(s), s, input.now);
    InstallKnows(e, KeyOf(s), Existing(e.config, f, s, input.now, Room(e), e.nextDnsId));
  }

  /** A segment that forwards nothing. */
  lemma QuietKeeps(core: Core, s: Segment, input: Input, f: Flow)
    requires DeliveredTo(core.world.engine, input, s, f) && (f.dns || !TakesPayload(core.world.engine.config, f, s))
    requires CoreInv(core) && core.queue == []
    ensures CoreInv(Call(core, Arrives(input)))
  {
    hide WorldInv, EngineInv, Classify, CoversOk, Silenced, Existing, TakesPayload, TakesFin, Install, Sane, Proper,
      QueriesIn, ForwardsIn;
    var w, ev, e := core.world, Arrives(input), core.world.engine;
    DeliveredOne(core, s, input, f);
    var id, o := f.id, Existing(e.config, f, s, input.now, Room(e), e.nextDnsId);
    QuietShape(e.config, f, s, input.now, Room(e), e.nextDnsId);
    ExistingEffect(e.config, f, s, input.now, Room(e), e.nextDnsId);
    var w', queue := Next(w, ev), o.actions;
    QuietQueue(w', core.dispatcher, f, o);
    QuietFronts(f, o);
    assert w.traces[id].dns || w.traces[id].taken == WrittenTo(core.dispatcher, id) + Front(core.queue, id) by {
      assert w.traces[id].dns || WrittenFor(w, core.dispatcher, core.queue, id);
      NotSilenced(w, core.queue, id);
    }
    assert FlowOf(w.engine, id).queuedToGateway == |Front(core.queue, id)|;
    hide QueueOk, Quiet;
    OneFlowKeeps(core, Call(core, ev), id);
  }

  lemma QuietQueue(w': World, d: Dispatcher, f: Flow, o: Outcome)
    requires forall a :: a in o.actions ==> Quiet(f, o, a)
    requires f.id in w'.traces && w'.traces[f.id].dns == f.dns
    requires !o.removed ==> Knows(w'.engine, f.id) && FlowOf(w'.engine, f.id) == o.flow
    ensures QueueOk(w', d, o.actions)
  {
    assert forall i :: 0 <= i < |o.actions| ==> o.actions[i] in o.actions && Quiet(f, o, o.actions[i]);
  }

  lemma QuietFronts(f: Flow, o: Outcome)
    requires forall a :: a in o.actions ==> Quiet(f, o, a)
    ensures forall id :: Front(o.actions, id) == []
    ensures forall a :: a in o.actions && a.SendTcp? ==> a.origin == Some(f.id)
  {
    assert o.actions != [] ==> o.actions[0] in o.actions && Quiet(f, o, o.actions[0]);
  }

  lemma GentleCall(core: Core, ev: Event)
    requires CoreInv(core) && core.queue == [] && Callable(core, ev) && Gentle(core.world, ev)
    ensures CoreInv(Call(core, ev))
  {
    hide WorldInv, CoversOk, Step, Gentle, StreamsOk, WrittenOk;
    assert Rested(core.world, core.dispatcher, []);
    hide Rested, Next;
    GentleKeeps(core.world, core.dispatcher, [], ev);
    assert [] + Step(core.world.engine, ev).actions == Step(core.world.engine, ev).actions;
    RestedInv(Call(core, ev));
  }

  /** Every call of the core starts from the invariant and keeps it. */
  lemma CallKeeps(core: Core, ev: Event)
    requires CoreInv(core) && core.queue == [] && Callable(core, ev)
    ensures CoreInv(Call(core, ev))
  {
    assert WorldInv(core.world);
    hide CoreInv, Call, WorldInv, Gentle, Classify, TakesPayload, Admits;
    if !ev.Arrives? {
      StreamGentle(core.world, ev);
      GentleCall(core, ev);
    } else {
      match Classify(ev.input.packet) {
        case Ok(Tcp(s)) =>
          if Admits(core.world.engine, s, ev.input) {
            AdmittedKeeps(core, s, ev.input);
          } else if Delivered(core.world.engine, s, ev.input) {
            var f := core.world.engine.flows[KeyOf(s)];
            if !f.dns && TakesPayload(core.world.engine.config, f, s) {
              ForwardingKeeps(core, s, ev.input, f);
            } else {
              QuietKeeps(core, s, ev.input, f);
            }
          } else {
            StrayGentle(core.world, ev.input);
            GentleCall(core, ev);
          }
        case _ =>
          StrayGentle(core.world, ev.input);
          GentleCall(core, ev);
      }
    }
  }

  lemma DropKeeps(core: Core, d: Dispatcher)
    requires CoreInv(core) && core.queue == [] && d.streams == {} && d.written == core.dispatcher.written
    ensures CoreInv(core.(dispatcher := d))
  {
    hide WorldInv, CoversOk, Silenced;
    forall id | id in core.world.traces && !core.world.traces[id].dns
      ensures WrittenFor(core.world, d, [], id) {
      assert WrittenFor(core.world, core.dispatcher, core.queue, id);
    }
  }

  lemma CoreNextKeeps(core: Core, step: CoreStep)
    requires CoreInv(core) && Allowed(core, step)
    ensures CoreInv(CoreNext(core, step))
  {
    hide CoreInv, Call, Perform;
    match step {
      case Calls(ev) => CallKeeps(core, ev);
      case Performs(fate) => PerformKeeps(core, fate);
      case DropsAll => DropKeeps(core, CloseAll(core.dispatcher));
      case Reconnects(n) => DropKeeps(core, ReplaceSession(core.dispatcher, n));
    }
  }
}
