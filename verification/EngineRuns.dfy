/** Every run of the packet engine, whatever packets, stream events and clock readings it meets. */
module EngineRuns {
  import opened Bytes
  import opened Options
  import opened Sets
  import opened Packet
  import opened TcpFlow
  import opened TcpFlowTheorems
  import opened DnsStream
  import opened Engine
  import opened EngineInvariant
  import opened EngineWorld

  datatype Event =
    | Arrives(input: Input)
    | StreamOpens(id: nat, now: nat)
    | StreamTook(id: nat, bytes: nat, now: nat)
    | StreamSays(id: nat, payload: seq<byte>, now: nat)
    | StreamEnds(id: nat, now: nat)
    | StreamFails(id: nat, reason: Reason)
    | DnsAnswers(query: nat, wire: seq<byte>, now: nat)
    | Clock(now: nat, order: seq<Key>)
    | Sleeps(now: nat)
    | Wakes(now: nat, healthy: bool, wakeOrder: seq<nat>)
    | PathLost(reason: Reason, lostOrder: seq<nat>)
    | Stops(stopOrder: seq<nat>)

  ghost predicate Possible(e: Engine, ev: Event) {
    match ev
    case Clock(_, order) => Enumerates(order, e.flows.Keys)
    case Wakes(_, _, order) => Enumerates(order, e.ids.Keys)
    case PathLost(_, order) => Enumerates(order, e.ids.Keys)
    case Stops(order) => Enumerates(order, e.ids.Keys)
    case _ => true
  }

  ghost function Step(e: Engine, ev: Event): Done
    requires Possible(e, ev)
  {
    match ev
    case Arrives(input) => Process(e, input)
    case StreamOpens(id, now) => Opened(e, id, now)
    case StreamTook(id, bytes, now) => AcknowledgeForwarded(e, id, bytes, now)
    case StreamSays(id, payload, now) => ProtectedPayload(e, id, payload, now)
    case StreamEnds(id, now) => ProtectedClosed(e, id, now)
    case StreamFails(id, reason) => FailFlow(e, id, reason)
    case DnsAnswers(query, wire, now) => CompleteDns(e, query, wire, now)
    case Clock(now, order) => Tick(e, now, order)
    case Sleeps(now) => Done(Suspend(e, now), [])
    case Wakes(now, healthy, order) => Resume(e, now, healthy, order)
    case PathLost(reason, order) => FailAll(e, reason, order)
    case Stops(order) => Stop(e, order)
  }

  // ---------------------------------------------------------------- traces

  function Give(traces: map<nat, Trace>, id: nat, payload: seq<byte>, flags: Flags): map<nat, Trace> {
    if id in traces then traces[id := Gave(traces[id], payload, flags)] else traces
  }

  /** The SYN of a flow that is let in. */
  predicate Admits(e: Engine, s: Segment, input: Input) {
    && KeyOf(s) !in e.flows && s.flags.syn && !s.flags.ack && !s.flags.fin && !s.flags.rst && s.payload == []
    && e.accepting && input.healthy && |e.flows| < e.config.maxFlows
    && (s.destinationPort == 53 || input.route == Some(Tunnel))
  }

  /** The segment is worked on by the flow it belongs to. */
  predicate Delivered(e: Engine, s: Segment, input: Input) {
    && KeyOf(s) in e.flows && input.healthy && !s.flags.rst
    && !(s.flags.syn && (s.flags.fin || s.payload != []))
  }

  function SegmentTraces(e: Engine, s: Segment, input: Input, traces: map<nat, Trace>): map<nat, Trace> {
    if Admits(e, s, input) then
      traces[e.nextFlowId := Trace(s.destinationPort == 53, s.sequence, [], 0, InitialSequence(e.nextFlowId), [], 0)]
    else if Delivered(e, s, input) && e.flows[KeyOf(s)].id in traces then
      var f := e.flows[KeyOf(s)];
      traces[f.id := Took(e.config, f, s, Room(e), traces[f.id])]
    else traces
  }

  function TracesAfter(e: Engine, ev: Event, traces: map<nat, Trace>): map<nat, Trace> {
    match ev
    case Arrives(input) =>
      (match Classify(input.packet)
       case Ok(Tcp(s)) => SegmentTraces(e, s, input, traces)
       case _ => traces)
    case StreamSays(id, payload, _) =>
      if Knows(e, id) && payload != [] && Accepts(e.config, FlowOf(e, id), payload) then Give(traces, id, payload, PSH_ACK)
      else traces
    case StreamEnds(id, _) =>
      if Knows(e, id) && Receptive(FlowOf(e, id)) then Give(traces, id, [], FIN_ACK) else traces
    case DnsAnswers(query, wire, _) =>
      if && query in e.pending && e.pending[query].TcpTarget? && wire != [] && |wire| <= MAX_DNS_MESSAGE_BYTES
         && Knows(e, e.pending[query].flow) && Accepts(e.config, FlowOf(e, e.pending[query].flow), Framed(wire)) then
        Give(traces, e.pending[query].flow, Framed(wire), PSH_ACK)
      else traces
    case _ => traces
  }

  ghost function Next(w: World, ev: Event): World
    requires Possible(w.engine, ev)
  {
    var r := Step(w.engine, ev);
    World(r.engine, TracesAfter(w.engine, ev, w.traces), w.history + r.actions)
  }

  // ---------------------------------------------------------------- what is said in one step

  ghost predicate Truthful(traces: map<nat, Trace>, a: Action) {
    a.SendTcp? && !a.segment.flags.rst ==>
      a.origin.Some? && a.origin.value in traces && Sound(traces[a.origin.value], a.segment)
  }

  ghost predicate AllTruthful(traces: map<nat, Trace>, actions: seq<Action>) {
    forall a :: a in actions ==> Truthful(traces, a)
  }

  ghost predicate Good(w: World, traces: map<nat, Trace>, r: Done) {
    WorldInv(World(r.engine, traces, w.history + r.actions)) && AllTruthful(traces, r.actions)
  }

  lemma SpeaksTruth(id: nat, traces: map<nat, Trace>, actions: seq<Action>)
    requires id in traces && forall a :: a in actions ==> Speaks(id, traces[id], a)
    ensures AllTruthful(traces, actions)
  {
    hide Sound;
    forall a | a in actions ensures Truthful(traces, a) {
      assert Speaks(id, traces[id], a);
    }
  }

  lemma IdleGood(w: World, actions: seq<Action>)
    requires WorldInv(w) && Idle(actions) && forall a :: a in actions && a.SendTcp? ==> a.segment.flags.rst
    ensures Good(w, w.traces, Done(w.engine, actions))
  {
    IdleKeeps(w, actions);
  }

  lemma FailGood(w: World, id: nat, reason: Reason)
    requires WorldInv(w)
    ensures Good(w, w.traces, FailFlow(w.engine, id, reason))
  {
    hide WorldInv, FailFlow;
    FailFlowKeeps(w, id, reason);
  }

  // ---------------------------------------------------------------- a segment

  lemma DeliveredGood(w: World, key: Key, s: Segment, now: nat)
    requires WorldInv(w) && key in w.engine.flows
    ensures var e := w.engine; var f := e.flows[key];
            && f.id in w.traces
            && Good(w, w.traces[f.id := Took(e.config, f, s, Room(e), w.traces[f.id])], ExistingTcp(e, key, s, now))
  {
    hide Existing, TakesPayload, TakesFin, Install, Tracked, EngineInv, AllHandedOn, Live, Follows, Sane, Sound;
    var e, f := w.engine, w.engine.flows[key];
    ExistingTracked(w, key, s, now);
    Listed(e, key);
    var t := w.traces[f.id];
    var o, t' := Existing(e.config, f, s, now, Room(e), e.nextDnsId), Took(e.config, f, s, Room(e), t);
    AppliedKeeps(w, key, o, t');
    LiveFollows(w, f.id);
    ExistingSpeaks(e.config, f, s, now, Room(e), e.nextDnsId, t);
    SpeaksTruth(f.id, w.traces[f.id := t'], o.actions);
  }

  lemma LiveFollows(w: World, id: nat)
    requires WorldInv(w) && Knows(w.engine, id)
    ensures id in w.traces && Follows(FlowOf(w.engine, id), w.traces[id]) && w.traces[id].iss == InitialSequence(id)
    ensures AskedAll(FlowOf(w.engine, id), w.traces[id], QueriesIn(id, w.history))
    ensures Sane(w.engine.config, FlowOf(w.engine, id))
    ensures FlowOf(w.engine, id).id == id && FlowOf(w.engine, id).key == w.engine.ids[id] && id < w.engine.nextFlowId
  {
    hide Follows, AskedAll;
    assert Live(w.engine, w.traces, w.history, id);
    Listed(w.engine, w.engine.ids[id]);
  }

  lemma AdmittedGood(w: World, s: Segment, input: Input)
    requires WorldInv(w) && Admits(w.engine, s, input)
    ensures Good(w, SegmentTraces(w.engine, s, input, w.traces), ProcessTcp(w.engine, s, input))
  {
    hide WorldInv, InitialSequence, Covered, Insert;
    var e, key, dns := w.engine, KeyOf(s), s.destinationPort == 53;
    var f := NewFlow(e, key, s, input.now, dns);
    var r, traces := ProcessTcp(e, s, input), SegmentTraces(e, s, input, w.traces);
    InsertKeeps(w, key, s, input.now, dns, r.actions);
    CoveredNow(f, traces[f.id]);
  }

  lemma RefusedGood(w: World, s: Segment, input: Input)
    requires WorldInv(w) && !Admits(w.engine, s, input) && KeyOf(s) !in w.engine.flows
    ensures Good(w, w.traces, ProcessTcp(w.engine, s, input))
  {
    hide WorldInv;
    IdleGood(w, ProcessTcp(w.engine, s, input).actions);
  }

  lemma UndeliveredGood(w: World, s: Segment, input: Input)
    requires WorldInv(w) && !Delivered(w.engine, s, input) && KeyOf(s) in w.engine.flows
    ensures Good(w, w.traces, ProcessTcp(w.engine, s, input))
  {
    hide WorldInv, Remove, FailFlow;
    var e, key := w.engine, KeyOf(s);
    if s.flags.syn && (s.flags.fin || s.flags.rst || s.payload != []) {
      FailGood(w, e.flows[key].id, MalformedPacket);
    } else if s.flags.rst {
      RemoveKeeps(w, key, [CloseBoth(e.flows[key].id)]);
    } else {
      FailGood(w, e.flows[key].id, ProtectedPathUnavailable);
    }
  }

  lemma SegmentGood(w: World, s: Segment, input: Input)
    requires WorldInv(w)
    ensures Good(w, SegmentTraces(w.engine, s, input, w.traces), ProcessTcp(w.engine, s, input))
  {
    var e := w.engine;
    if KeyOf(s) !in e.flows {
      if Admits(e, s, input) {
        AdmittedGood(w, s, input);
      } else {
        RefusedGood(w, s, input);
      }
    } else if Delivered(e, s, input) {
      hide WorldInv, Good, ExistingTcp, Took;
      DeliveredGood(w, KeyOf(s), s, input.now);
    } else {
      UndeliveredGood(w, s, input);
    }
  }

  lemma UdpGood(w: World, d: Datagram, healthy: bool)
    requires WorldInv(w)
    ensures Good(w, w.traces, ProcessUdp(w.engine, d, healthy))
  {
    var e, r := w.engine, ProcessUdp(w.engine, d, healthy);
    if r.engine == e {
      hide WorldInv;
      IdleGood(w, r.actions);
    } else {
      UdpPending(e, d, healthy);
      hide EngineInv, Follows;
      RecordsKeep(w, r.engine);
      IdleGood(World(r.engine, w.traces, w.history), r.actions);
    }
  }

  lemma UdpPending(e: Engine, d: Datagram, healthy: bool)
    requires EngineInv(e)
    ensures EngineInv(ProcessUdp(e, d, healthy).engine)
  {
    hide TablesOk, AllSane, TargetsOk, Below;
    var target := UdpTarget(Endpoint(d.source, d.sourcePort), Endpoint(d.destination, d.destinationPort));
    OneMorePending(e.pending, e.flows, e.ids, e.nextDnsId, target);
  }

  lemma OneMorePending(pending: map<nat, DnsTarget>, flows: map<Key, Flow>, ids: map<nat, Key>, q: nat,
                       target: DnsTarget)
    requires TargetsOk(pending, flows, ids) && Below(pending.Keys, q) && target.UdpTarget?
    ensures TargetsOk(pending[q := target], flows, ids) && Below(pending[q := target].Keys, q + 1)
    ensures |pending[q := target]| == |pending| + 1
  {
    assert q !in pending.Keys;
    assert pending[q := target].Keys == pending.Keys + {q};
  }

  lemma ArrivesGood(w: World, input: Input)
    requires WorldInv(w)
    ensures Good(w, TracesAfter(w.engine, Arrives(input), w.traces), Process(w.engine, input))
  {
    hide WorldInv, Classify, ProcessTcp, ProcessUdp, SegmentTraces;
    match Classify(input.packet) {
      case Ok(Tcp(s)) => SegmentGood(w, s, input);
      case Ok(Udp(d)) => UdpGood(w, d, input.healthy);
      case _ => IdleGood(w, Process(w.engine, input).actions);
    }
  }

  // ---------------------------------------------------------------- the protected stream

  /** One flow changes by an event of its stream. */
  lemma AppliedGood(w: World, id: nat, o: Outcome, t': Trace)
    requires WorldInv(w) && Knows(w.engine, id) && id in w.traces && w.traces[id].taken == t'.taken
    requires o.flow.id == id && o.flow.key == w.engine.ids[id] && o.flow.dns == FlowOf(w.engine, id).dns
    requires o.flow.buffer == FlowOf(w.engine, id).buffer && o.queries == [] && Idle(o.actions)
    requires Sane(w.engine.config, o.flow) && Follows(o.flow, t') && t'.iss == w.traces[id].iss
    requires t'.dns == w.traces[id].dns
    requires forall a :: a in o.actions ==> Speaks(id, t', a)
    ensures Good(w, w.traces[id := t'], Applied(w.engine, w.engine.ids[id], o))
  {
    hide Install, Follows, Sane, Sound, EngineInv, Live, HandedOn;
    LiveFollows(w, id);
    IdleQuiet(id, o.actions);
    assert QueriesIn(id, w.history) + [] == QueriesIn(id, w.history);
    AppliedKeeps(w, w.engine.ids[id], o, t');
    SpeaksTruth(id, w.traces[id := t'], o.actions);
  }

  lemma OpensGood(w: World, id: nat, now: nat)
    requires WorldInv(w)
    ensures Good(w, w.traces, Opened(w.engine, id, now))
  {
    hide WorldInv, Follows, Sane, Sound, Install, StreamOpened, Emission;
    if Knows(w.engine, id) {
      LiveFollows(w, id);
      var f, t := FlowOf(w.engine, id), w.traces[id];
      OpenedKeeps(w.engine.config, f, now, t);
      var o := StreamOpened(w.engine.config, f, now);
      AllSpeak(w.engine.config, o.flow, t, o.actions);
      AppliedGood(w, id, o, t);
      assert w.traces[id := t] == w.traces;
    } else {
      IdleGood(w, Opened(w.engine, id, now).actions);
    }
  }

  lemma TookGood(w: World, id: nat, bytes: nat, now: nat)
    requires WorldInv(w)
    ensures Good(w, w.traces, AcknowledgeForwarded(w.engine, id, bytes, now))
  {
    hide WorldInv, Follows, Sane, Sound, Install, Forwarded, Emission;
    if Knows(w.engine, id) {
      LiveFollows(w, id);
      var f, t := FlowOf(w.engine, id), w.traces[id];
      ForwardedKeeps(w.engine.config, f, bytes, now, t);
      var o := Forwarded(w.engine.config, f, bytes, now);
      AllSpeak(w.engine.config, o.flow, t, o.actions);
      AppliedGood(w, id, o, t);
      assert w.traces[id := t] == w.traces;
    } else {
      IdleGood(w, []);
    }
  }

  lemma PayloadGood(w: World, id: nat, payload: seq<byte>, now: nat)
    requires WorldInv(w) && Knows(w.engine, id) && payload != []
    requires Accepts(w.engine.config, FlowOf(w.engine, id), payload)
    ensures Good(w, Give(w.traces, id, payload, PSH_ACK),
                 Applied(w.engine, w.engine.ids[id],
                         StreamPayload(w.engine.config, FlowOf(w.engine, id), payload, now)))
  {
    hide WorldInv, Follows, Sane, Sound, Install, StreamPayload, Emission;
    LiveFollows(w, id);
    var f, t := FlowOf(w.engine, id), w.traces[id];
    PayloadKeeps(w.engine.config, f, payload, now, t);
    var o, t' := StreamPayload(w.engine.config, f, payload, now), Gave(t, payload, PSH_ACK);
    AllSpeak(w.engine.config, o.flow, t', o.actions);
    AppliedGood(w, id, o, t');
  }

  lemma SaysGood(w: World, id: nat, payload: seq<byte>, now: nat)
    requires WorldInv(w)
    ensures Good(w, TracesAfter(w.engine, StreamSays(id, payload, now), w.traces), ProtectedPayload(w.engine, id, payload, now))
  {
    hide WorldInv, FailFlow, Applied, Give, Good;
    if !Knows(w.engine, id) || payload == [] {
      IdleGood(w, ProtectedPayload(w.engine, id, payload, now).actions);
    } else if Accepts(w.engine.config, FlowOf(w.engine, id), payload) {
      PayloadGood(w, id, payload, now);
    } else {
      FailGood(w, id, Backpressure);
    }
  }

  lemma EndsGood(w: World, id: nat, now: nat)
    requires WorldInv(w)
    ensures Good(w, TracesAfter(w.engine, StreamEnds(id, now), w.traces), ProtectedClosed(w.engine, id, now))
  {
    hide WorldInv, Follows, Sane, Sound, Install, StreamClosed, FailFlow, Emission;
    if !Knows(w.engine, id) {
      IdleGood(w, []);
    } else if Receptive(FlowOf(w.engine, id)) {
      LiveFollows(w, id);
      var f, t := FlowOf(w.engine, id), w.traces[id];
      ClosedKeeps(w.engine.config, f, now, t);
      var o, t' := StreamClosed(w.engine.config, f, now), Gave(t, [], FIN_ACK);
      AllSpeak(w.engine.config, o.flow, t', o.actions);
      AppliedGood(w, id, o, t');
    } else {
      FailGood(w, id, DownstreamFailure);
    }
  }

  lemma PendingDropped(w: World, pending: map<nat, DnsTarget>)
    requires WorldInv(w) && pending.Keys <= w.engine.pending.Keys
    requires forall q :: q in pending ==> pending[q] == w.engine.pending[q]
    ensures WorldInv(World(w.engine.(pending := pending), w.traces, w.history))
  {
    var e' := w.engine.(pending := pending);
    SubsetSize(pending.Keys, w.engine.pending.Keys);
    assert EngineInv(e') by {
      hide TablesOk, AllSane;
    }
    hide EngineInv;
    RecordsKeep(w, e');
  }

  lemma AnswersGood(w: World, query: nat, wire: seq<byte>, now: nat)
    requires WorldInv(w)
    ensures Good(w, TracesAfter(w.engine, DnsAnswers(query, wire, now), w.traces), CompleteDns(w.engine, query, wire, now))
  {
    hide WorldInv, FailFlow, Applied, Good, Framed, Give;
    var e, r := w.engine, CompleteDns(w.engine, query, wire, now);
    if query !in e.pending {
      IdleGood(w, []);
    } else {
      var target, e' := e.pending[query], e.(pending := e.pending - {query});
      var v := World(e', w.traces, w.history);
      PendingDropped(w, e'.pending);
      GoodShifts(w, v);
      if wire == [] || |wire| > MAX_DNS_MESSAGE_BYTES {
        if target.TcpTarget? {
          FailGood(v, target.flow, DownstreamFailure);
        } else {
          IdleGood(v, r.actions);
        }
      } else if target.UdpTarget? || !Knows(e', target.flow) {
        IdleGood(v, r.actions);
      } else if Accepts(e'.config, FlowOf(e', target.flow), Framed(wire)) {
        FramedLonger(wire);
        PayloadGood(v, target.flow, Framed(wire), now);
      } else {
        FailGood(v, target.flow, Backpressure);
      }
    }
  }

  lemma FramedLonger(wire: seq<byte>)
    ensures |Framed(wire)| == |wire| + 2
  {
  }

  /** Good only looks at the history of the world it starts from. */
  lemma GoodShifts(w: World, v: World)
    requires w.history == v.history
    ensures forall traces: map<nat, Trace>, r: Done :: Good(v, traces, r) ==> Good(w, traces, r)
  {
    hide WorldInv;
  }

  // ---------------------------------------------------------------- the clock

  /** Every record changes in place, without changing what it is or how far it has come. */
  ghost predicate SamePlace(w: World, e': Engine) {
    && e' == w.engine.(flows := e'.flows, suspendedAt := e'.suspendedAt) && e'.flows.Keys == w.engine.flows.Keys
    && forall k :: k in e'.flows ==>
         var f, g := w.engine.flows[k], e'.flows[k];
         && g.id == f.id && g.key == f.key && g.dns == f.dns && g.buffer == f.buffer && Sane(e'.config, g)
         && (f.id in w.traces ==> Follows(g, w.traces[f.id]))
  }

  lemma SamePlaceInv(w: World, e': Engine)
    requires EngineInv(w.engine) && SamePlace(w, e')
    ensures EngineInv(e')
  {
    hide Sane, Follows;
    assert |e'.flows.Keys| == |w.engine.flows.Keys|;
  }

  lemma SamePlaceLive(w: World, e': Engine, id: nat)
    requires WorldInv(w) && SamePlace(w, e') && id in w.engine.ids
    ensures Knows(e', id) && Live(e', w.traces, w.history, id)
  {
    hide Sane, Follows, EngineInv, AllHandedOn, Split;
    assert Live(w.engine, w.traces, w.history, id);
    LiveFollows(w, id);
    assert e'.ids[id] in e'.flows;
  }

  lemma SamePlaceKeeps(w: World, e': Engine)
    requires WorldInv(w) && SamePlace(w, e')
    ensures WorldInv(World(e', w.traces, w.history))
  {
    hide EngineInv, AllHandedOn, Live;
    SamePlaceInv(w, e');
    forall id | id in e'.ids ensures Knows(e', id) && Live(e', w.traces, w.history, id) {
      SamePlaceLive(w, e', id);
    }
  }

  lemma TickedKeeps(w: World, now: nat)
    requires WorldInv(w)
    ensures WorldInv(World(AllTicked(w.engine, now), w.traces, w.history))
  {
    hide Sane, Follows, Ticked, TickActions, Emission, EngineInv, Live;
    var e, e' := w.engine, AllTicked(w.engine, now);
    forall k | k in e'.flows
      ensures var f, g := e.flows[k], e'.flows[k];
              && g.id == f.id && g.key == f.key && g.dns == f.dns && g.buffer == f.buffer && Sane(e'.config, g)
              && (f.id in w.traces ==> Follows(g, w.traces[f.id]))
    {
      Listed(e, k);
      LiveFollows(w, e.flows[k].id);
      TickKeeps(e.config, e.flows[k], now, w.traces[e.flows[k].id]);
    }
    SamePlaceKeeps(w, e');
  }

  lemma {:induction false} RetransmissionsGood(w: World, now: nat, order: seq<Key>)
    requires WorldInv(w) && forall k :: k in order ==> k in w.engine.flows
    ensures var actions := Retransmissions(w.engine.config, w.engine.flows, order, now);
            Idle(actions) && AllTruthful(w.traces, actions)
  {
    hide WorldInv, Sane, Follows, Ticked, TickActions, Emission, Sound;
    if order != [] {
      RetransmissionsGood(w, now, order[1..]);
      var e, k := w.engine, order[0];
      assert k in order;
      TickedListed(w, k);
      var f := e.flows[k];
      LiveFollows(w, f.id);
      var t := w.traces[f.id];
      TickKeeps(e.config, f, now, t);
      AllSpeak(e.config, Ticked(e.config, f, now), t, TickActions(e.config, f, now));
      SpeaksTruth(f.id, w.traces, TickActions(e.config, f, now));
    }
  }

  lemma TickedListed(w: World, k: Key)
    requires WorldInv(w) && k in w.engine.flows
    ensures Knows(w.engine, w.engine.flows[k].id) && FlowOf(w.engine, w.engine.flows[k].id) == w.engine.flows[k]
  {
    Listed(w.engine, k);
  }

  lemma DoomedGood(w: World, doomed: seq<(nat, Reason)>)
    requires WorldInv(w)
    ensures Good(w, w.traces, FailMany(w.engine, doomed)) && Idle(FailMany(w.engine, doomed).actions)
  {
    hide WorldInv, FailMany;
    FailManyKeeps(w, doomed);
  }

  /** Saying something idle and true before a good step keeps it good. */
  lemma PrefixGood(w: World, first: seq<Action>, v: World, traces: map<nat, Trace>, r: Done)
    requires v.history == w.history + first && Good(v, traces, r) && AllTruthful(traces, first)
    ensures Good(w, traces, Done(r.engine, first + r.actions))
  {
    hide WorldInv, Truthful;
    assert w.history + first + r.actions == w.history + (first + r.actions);
  }

  lemma ClockGood(w: World, now: nat, order: seq<Key>)
    requires WorldInv(w) && forall k :: k in order ==> k in w.engine.flows
    ensures Good(w, w.traces, Tick(w.engine, now, order))
  {
    hide WorldInv, Good, FailMany, AllTicked, Retransmissions, Expired, AllTruthful;
    var e := w.engine;
    if e.suspendedAt.Some? {
      IdleGood(w, []);
    } else {
      var again := Retransmissions(e.config, e.flows, order, now);
      TickedKeeps(w, now);
      RetransmissionsGood(w, now, order);
      var v := World(AllTicked(e, now), w.traces, w.history);
      IdleKeeps(v, again);
      var u := World(v.engine, w.traces, w.history + again);
      DoomedGood(u, Expired(e.config, e.flows, order, now));
      PrefixGood(w, again, u, w.traces, FailMany(u.engine, Expired(e.config, e.flows, order, now)));
    }
  }

  lemma FlagsKeep(w: World, e': Engine)
    requires WorldInv(w) && e' == w.engine.(suspendedAt := e'.suspendedAt, accepting := e'.accepting)
    ensures WorldInv(World(e', w.traces, w.history))
  {
    assert EngineInv(e') by {
      hide TablesOk, AllSane, TargetsOk;
    }
    hide EngineInv;
    RecordsKeep(w, e');
  }

  lemma WakesGood(w: World, now: nat, healthy: bool, order: seq<nat>)
    requires WorldInv(w)
    ensures Good(w, w.traces, Resume(w.engine, now, healthy, order))
  {
    hide WorldInv, FailMany, Slept, Sane, Follows;
    var e := w.engine;
    if e.suspendedAt.None? {
      IdleGood(w, []);
    } else {
      var e' := e.(suspendedAt := None);
      var v := World(e', w.traces, w.history);
      FlagsKeep(w, e');
      if !healthy {
        var first := [Diagnostic(ResumePathInvalid, None)];
        IdleKeeps(v, first);
        var u := World(e', w.traces, w.history + first);
        DoomedGood(u, Doom(order, ProtectedPathUnavailable));
        PrefixGood(w, first, u, w.traces, FailMany(e', Doom(order, ProtectedPathUnavailable)));
      } else {
        SleptAll(v, Since(now, e.suspendedAt.value));
        var r := Resume(e, now, healthy, order);
        IdleGood(World(r.engine, w.traces, w.history), []);
      }
    }
  }

  lemma SleptAll(w: World, slept: nat)
    requires WorldInv(w)
    ensures WorldInv(World(w.engine.(flows := map k | k in w.engine.flows :: Slept(w.engine.flows[k], slept)), w.traces, w.history))
  {
    hide Sane, Follows, Slept, EngineInv, Live;
    var e, e' := w.engine, w.engine.(flows := map k | k in w.engine.flows :: Slept(w.engine.flows[k], slept));
    forall k | k in e'.flows
      ensures var f, g := e.flows[k], e'.flows[k];
              && g.id == f.id && g.key == f.key && g.dns == f.dns && g.buffer == f.buffer && Sane(e'.config, g)
              && (f.id in w.traces ==> Follows(g, w.traces[f.id]))
    {
      Listed(e, k);
      LiveFollows(w, e.flows[k].id);
      SleptKeeps(e.config, e.flows[k], slept, w.traces[e.flows[k].id]);
    }
    SamePlaceKeeps(w, e');
  }

  lemma LostGood(w: World, reason: Reason, order: seq<nat>)
    requires WorldInv(w)
    ensures Good(w, w.traces, FailAll(w.engine, reason, order)) && Idle(FailAll(w.engine, reason, order).actions)
  {
    hide WorldInv, FailMany;
    var v := World(w.engine.(pending := map[]), w.traces, w.history);
    PendingDropped(w, map[]);
    DoomedGood(v, Doom(order, reason));
  }

  lemma StopsGood(w: World, order: seq<nat>)
    requires WorldInv(w)
    ensures Good(w, w.traces, Stop(w.engine, order))
  {
    hide WorldInv, FailAll;
    var first := [Diagnostic(ShuttingDown, None)];
    var e' := w.engine.(accepting := false);
    FlagsKeep(w, e');
    IdleKeeps(World(e', w.traces, w.history), first);
    var u := World(e', w.traces, w.history + first);
    LostGood(u, Shutdown, order);
    PrefixGood(w, first, u, w.traces, FailAll(e', Shutdown, order));
  }

  /** Every call keeps the tables, the traces and the history in agreement and sends only sound packets. */
  lemma NextGood(w: World, ev: Event)
    requires WorldInv(w) && Possible(w.engine, ev)
    ensures WorldInv(Next(w, ev)) && AllTruthful(Next(w, ev).traces, Step(w.engine, ev).actions)
  {
    hide WorldInv, Process, Opened, AcknowledgeForwarded, ProtectedPayload, ProtectedClosed, FailFlow, CompleteDns,
      Tick, Resume,
      FailAll, Stop;
    match ev {
      case Arrives(input) => ArrivesGood(w, input);
      case StreamOpens(id, now) => OpensGood(w, id, now);
      case StreamTook(id, bytes, now) => TookGood(w, id, bytes, now);
      case StreamSays(id, payload, now) => SaysGood(w, id, payload, now);
      case StreamEnds(id, now) => EndsGood(w, id, now);
      case StreamFails(id, reason) => FailGood(w, id, reason);
      case DnsAnswers(query, wire, now) => AnswersGood(w, query, wire, now);
      case Clock(now, order) => ClockGood(w, now, order);
      case Sleeps(now) =>
        FlagsKeep(w, Suspend(w.engine, now));
        IdleGood(World(Suspend(w.engine, now), w.traces, w.history), []);
      case Wakes(now, healthy, order) => WakesGood(w, now, healthy, order);
      case PathLost(reason, order) => LostGood(w, reason, order);
      case Stops(order) => StopsGood(w, order);
    }
  }
}
