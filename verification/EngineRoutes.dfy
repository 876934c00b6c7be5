/**
 Who gets through the packet engine: which SYN opens a flow, what becomes of the others, and to whom the answer of a
 DNS query goes.
 */
module EngineRoutes {
  import opened Bytes
  import opened Options
  import opened Packet
  import opened TcpFlow
  import opened TcpFlowTheorems
  import opened Engine
  import opened EngineInvariant
  import opened EngineCloses
  import opened EngineWorld
  import opened EngineRuns
  import opened EngineTheorems
  import opened EngineFlows

  // ---------------------------------------------------------------- admission

  /** A segment that asks for a new connection and does nothing else. */
  predicate BareSyn(s: Segment) {
    s.flags.syn && !s.flags.ack && !s.flags.fin && !s.flags.rst && s.payload == []
  }

  /** The engine has a flow between the two ends of the segment. */
  ghost predicate HasFlow(e: Engine, s: Segment) {
    exists id :: Knows(e, id) && ComesFrom(FlowOf(e, id), s)
  }

  /** Why a bare SYN without a flow is turned away, if it is. DNS needs no route; everything else needs one that leads
      through the tunnel. */
  function TurnedAway(e: Engine, s: Segment, input: Input): Option<Reason> {
    if !e.accepting then Some(Shutdown)
    else if !input.healthy then Some(ProtectedPathUnavailable)
    else if s.destinationPort != 53 && (input.route == None || input.route == Some(Deny)) then Some(PolicyDenied)
    else if s.destinationPort != 53 && input.route == Some(Bypass) then Some(DirectFallbackForbidden)
    else if |e.flows| >= e.config.maxFlows then Some(Backpressure)
    else None
  }

  lemma HasFlowIff(e: Engine, s: Segment)
    requires EngineInv(e)
    ensures HasFlow(e, s) <==> KeyOf(s) in e.flows
  {
    hide EngineInv;
    if KeyOf(s) in e.flows {
      Listed(e, KeyOf(s));
      assert Knows(e, e.flows[KeyOf(s)].id) && ComesFrom(FlowOf(e, e.flows[KeyOf(s)].id), s);
    }
    if id :| Knows(e, id) && ComesFrom(FlowOf(e, id), s) {
      KnownFlow(e, id);
    }
  }

  /** The new flow of an admitted SYN, and nothing else that is new. */
  lemma AdmittedKnows(e: Engine, s: Segment, input: Input, id: nat)
    requires EngineInv(e) && KeyOf(s) !in e.flows && BareSyn(s) && TurnedAway(e, s, input).None?
    ensures var r := ProcessTcp(e, s, input);
            && (Knows(r.engine, id) <==> Knows(e, id) || id == e.nextFlowId)
            && (id == e.nextFlowId ==>
                  var f := FlowOf(r.engine, id);
                  && f.id == id && ComesFrom(f, s) && f.clientNext == (s.sequence + 1) % WRAP && f.dns == (s.destinationPort == 53)
                  && f.createdMs == f.lastActivityMs == input.now && f.outstanding.None? && f.buffer == []
                  && f.queuedToGateway == f.queuedToApplication == 0
                  && f.state == (if f.dns then SynAckSent else Connecting))
  {
    hide Sane, TargetsOk, AllSane, InitialSequence;
    assert e.nextFlowId !in e.ids by {
      assert e.nextFlowId !in e.ids.Keys;
    }
  }

  lemma AdmittedSays(e: Engine, s: Segment, input: Input)
    requires KeyOf(s) !in e.flows && BareSyn(s) && TurnedAway(e, s, input).None?
    ensures var actions := ProcessTcp(e, s, input).actions;
            |actions| == 1 &&
            (if s.destinationPort != 53 then
               actions[0] == OpenStream(e.nextFlowId, Endpoint(s.destination, s.destinationPort))
             else
               && actions[0].SendTcp? && actions[0].origin == Some(e.nextFlowId)
               && actions[0].segment
                  == Segment(s.destination, s.source, s.destinationPort, s.sourcePort, actions[0].segment.sequence,
                             (s.sequence + 1) % WRAP, e.config.receiveWindow, Flags(false, true, false, false, true), []))
  {
    hide InitialSequence;
  }

  lemma TurnedAwaySays(e: Engine, s: Segment, input: Input)
    requires KeyOf(s) !in e.flows && BareSyn(s) && TurnedAway(e, s, input).Some?
    ensures var r := ProcessTcp(e, s, input);
            && r.engine == e && |r.actions| >= 2 && r.actions[1] == BlockFlow(None, TurnedAway(e, s, input).value)
            && r.actions[0] == SendTcp(None, Segment(s.destination, s.source, s.destinationPort, s.sourcePort, 0,
                                                     (s.sequence + 1) % WRAP, 0, Flags(false, false, true, false, true), []))
            && (forall i :: 2 <= i < |r.actions| ==> r.actions[i] == Diagnostic(FlowLimit, None))
  {
    hide InitialSequence;
  }

  /** In every run a bare SYN of a connection that has no flow opens one if and only if nothing speaks against it: then
      the stream to its destination is opened, or the handshake of a DNS flow answered. Otherwise it is reset with the
      reason, and nothing changes. */
  lemma SynExact(c: Config, worlds: seq<World>, events: seq<Event>, i: nat, s: Segment)
    requires ValidConfig(c) && Run(c, worlds, events) && i < |events| && events[i].Arrives?
    requires Classify(events[i].input.packet) == Ok(Tcp(s)) && BareSyn(s) && !HasFlow(worlds[i].engine, s)
    ensures var e, e' := worlds[i].engine, worlds[i + 1].engine; var actions := Step(e, events[i]).actions;
            match TurnedAway(e, s, events[i].input)
            case Some(reason) =>
              && e' == e && BlockFlow(None, reason) in actions
              && SendTcp(None, Segment(s.destination, s.source, s.destinationPort, s.sourcePort, 0,
                                       (s.sequence + 1) % WRAP, 0, Flags(false, false, true, false, true), [])) in actions
            case None =>
              && Knows(e', e.nextFlowId) && !Knows(e, e.nextFlowId) && ComesFrom(FlowOf(e', e.nextFlowId), s)
              && |actions| == 1
              && (s.destinationPort != 53 ==>
                    actions[0] == OpenStream(e.nextFlowId, Endpoint(s.destination, s.destinationPort)))
              && (s.destinationPort == 53 ==> actions[0].SendTcp? && actions[0].segment.flags == SYN_ACK)
  {
    RunInv(c, worlds, events, i);
    WorldEngine(worlds[i]);
    assert worlds[i + 1] == Next(worlds[i], events[i]);
    var e, input := worlds[i].engine, events[i].input;
    HasFlowIff(e, s);
    hide Run, WorldInv, EngineInv, TracesAfter, Classify, ProcessTcp, HasFlow, TurnedAway, FlowOf;
    if TurnedAway(e, s, input).Some? {
      TurnedAwaySays(e, s, input);
    } else {
      AdmittedKnows(e, s, input, e.nextFlowId);
      AdmittedSays(e, s, input);
      NotYet(e);
    }
  }

  lemma StraySays(e: Engine, s: Segment, input: Input)
    requires KeyOf(s) !in e.flows && !BareSyn(s)
    ensures ProcessTcp(e, s, input).engine == e
    ensures ProcessTcp(e, s, input).actions ==
              if s.flags.syn && (s.flags.fin || s.flags.rst || s.payload != []) then
                [SendTcp(None, Segment(s.destination, s.source, s.destinationPort, s.sourcePort, 0, (s.sequence + 1) % WRAP, 0,
                                       Flags(false, false, true, false, true), [])),
                 BlockFlow(None, MalformedPacket)]
              else if s.flags.rst then []
              else [Diagnostic(UnknownFlow, None)]
  {
    hide InitialSequence;
  }

  /** Any other segment of a connection that has no flow changes nothing: a SYN that says more is reset, a reset is
      ignored, and the rest is noted. */
  lemma StrayExact(c: Config, worlds: seq<World>, events: seq<Event>, i: nat, s: Segment)
    requires ValidConfig(c) && Run(c, worlds, events) && i < |events| && events[i].Arrives?
    requires Classify(events[i].input.packet) == Ok(Tcp(s)) && !BareSyn(s) && !HasFlow(worlds[i].engine, s)
    ensures worlds[i + 1].engine == worlds[i].engine
    ensures Step(worlds[i].engine, events[i]).actions ==
              if s.flags.syn && (s.flags.fin || s.flags.rst || s.payload != []) then
                [SendTcp(None, Segment(s.destination, s.source, s.destinationPort, s.sourcePort, 0, (s.sequence + 1) % WRAP, 0,
                                       Flags(false, false, true, false, true), [])),
                 BlockFlow(None, MalformedPacket)]
              else if s.flags.rst then []
              else [Diagnostic(UnknownFlow, None)]
  {
    RunInv(c, worlds, events, i);
    WorldEngine(worlds[i]);
    assert worlds[i + 1] == Next(worlds[i], events[i]);
    HasFlowIff(worlds[i].engine, s);
    hide Run, WorldInv, EngineInv, TracesAfter, Classify, HasFlow, ProcessTcp, BareSyn;
    StraySays(worlds[i].engine, s, events[i].input);
  }

  lemma NotYet(e: Engine)
    requires EngineInv(e)
    ensures !Knows(e, e.nextFlowId)
  {
    hide Sane, TargetsOk, AllSane, TablesOk;
    assert e.nextFlowId !in e.ids.Keys;
  }

  /** The event is a bare SYN against which nothing speaks. */
  ghost predicate Admitted(e: Engine, ev: Event) {
    ev.Arrives? &&
    match Classify(ev.input.packet)
    case Ok(Tcp(s)) => BareSyn(s) && KeyOf(s) !in e.flows && TurnedAway(e, s, ev.input).None?
    case _ => false
  }

  /** No flow is new and no stream is opened. */
  ghost predicate OpensNothing(e: Engine, r: Done) {
    && (forall id :: Knows(r.engine, id) ==> Knows(e, id))
    && (forall a :: a in r.actions ==> !a.OpenStream?)
  }

  lemma MildNone(e: Engine, r: Done)
    requires Mild(e, r)
    ensures OpensNothing(e, r)
  {
    hide Knows, FlowOf;
  }

  lemma SegmentOpens(e: Engine, s: Segment, input: Input)
    requires EngineInv(e) && !(BareSyn(s) && KeyOf(s) !in e.flows && TurnedAway(e, s, input).None?)
    ensures OpensNothing(e, ProcessTcp(e, s, input))
  {
    hide EngineInv, FailFlow, Existing, Install, Remove, InitialSequence, Knows, FlowOf;
    var key := KeyOf(s);
    if key in e.flows {
      Listed(e, key);
      var f := e.flows[key];
      FailMild(e, f.id, MalformedPacket);
      FailMild(e, f.id, ProtectedPathUnavailable);
      RemoveKnows(e, f.id);
      MildNone(e, FailFlow(e, f.id, MalformedPacket));
      MildNone(e, FailFlow(e, f.id, ProtectedPathUnavailable));
      ExistingOpens(e, key, s, input.now);
    }
  }

  lemma ExistingOpens(e: Engine, key: Key, s: Segment, now: nat)
    requires EngineInv(e) && key in e.flows
    ensures OpensNothing(e, ExistingTcp(e, key, s, now))
  {
    hide EngineInv, Existing, Install, TakesPayload;
    Listed(e, key);
    var f := e.flows[key];
    var o := Existing(e.config, f, s, now, Room(e), e.nextDnsId);
    ExistingSane(e.config, f, s, now, Room(e), e.nextDnsId);
    InstallShape(e, key, o);
    if !f.dns && TakesPayload(e.config, f, s) {
      ForwardedShape(e.config, f, s, now, Room(e), e.nextDnsId);
    } else {
      QuietShape(e.config, f, s, now, Room(e), e.nextDnsId);
    }
  }

  lemma ArrivesOpens(e: Engine, input: Input)
    requires EngineInv(e) && !Admitted(e, Arrives(input))
    ensures OpensNothing(e, Process(e, input))
  {
    hide EngineInv, Classify, ProcessTcp, BareSyn, TurnedAway;
    match Classify(input.packet) {
      case Ok(Tcp(s)) => SegmentOpens(e, s, input);
      case _ =>
    }
  }

  lemma TookOpens(e: Engine, id: nat, bytes: nat, now: nat)
    requires EngineInv(e)
    ensures OpensNothing(e, AcknowledgeForwarded(e, id, bytes, now))
  {
    hide EngineInv, Install, FlowOf;
    if Knows(e, id) {
      TookShape(e, id, bytes, now);
    }
  }

  lemma StepOpens(w: World, ev: Event)
    requires WorldInv(w) && Possible(w.engine, ev) && !Admitted(w.engine, ev)
    ensures OpensNothing(w.engine, Step(w.engine, ev))
  {
    hide WorldInv, EngineInv, Admitted, Process, Opened, AcknowledgeForwarded, ProtectedPayload, ProtectedClosed, FailFlow,
      CompleteDns, Tick, Resume, FailAll, Stop, Mild, Enumerates, OpensNothing, Suspend;
    WorldEngine(w);
    var e := w.engine;
    match ev {
      case Arrives(input) => ArrivesOpens(e, input);
      case StreamOpens(id, now) => OpensMild(e, id, now);
      case StreamTook(id, bytes, now) => TookOpens(e, id, bytes, now);
      case StreamSays(id, payload, now) => SaysMild(e, id, payload, now);
      case StreamEnds(id, now) => EndsMild(e, id, now);
      case StreamFails(id, reason) => FailMild(e, id, reason);
      case DnsAnswers(query, wire, now) => AnswersMild(e, query, wire, now);
      case Clock(now, order) => ClockMild(w, now, order);
      case Sleeps(now) => SleepKnows(e, now);
      case Wakes(now, healthy, order) => ResumeMild(e, now, healthy, order);
      case PathLost(reason, order) => FailAllMild(e, reason, order);
      case Stops(order) => StopMild(e, order);
    }
    if Mild(e, Step(e, ev)) {
      MildNone(e, Step(e, ev));
    }
  }

  /** No other event of a run makes a flow or opens a stream: not a route that is denied or bypassed, and not any
      later segment. */
  lemma OnlyAdmitted(c: Config, worlds: seq<World>, events: seq<Event>, i: nat)
    requires ValidConfig(c) && Run(c, worlds, events) && i < |events| && !Admitted(worlds[i].engine, events[i])
    ensures forall id :: Knows(worlds[i + 1].engine, id) ==> Knows(worlds[i].engine, id)
    ensures forall a :: a in Step(worlds[i].engine, events[i]).actions ==> !a.OpenStream?
  {
    RunInv(c, worlds, events, i);
    assert worlds[i + 1] == Next(worlds[i], events[i]);
    hide Run, WorldInv, TracesAfter, Admitted, Knows, Step;
    StepOpens(worlds[i], events[i]);
  }

  lemma SleepKnows(e: Engine, now: nat)
    ensures OpensNothing(e, Done(Suspend(e, now), []))
  {
  }

  lemma ClockMild(w: World, now: nat, order: seq<Key>)
    requires WorldInv(w) && Enumerates(order, w.engine.flows.Keys)
    ensures Mild(w.engine, Tick(w.engine, now, order))
  {
    hide WorldInv, Tick, Mild, AllTicked;
    WorldEngine(w);
    TickedKeeps(w, now);
    WorldEngine(World(AllTicked(w.engine, now), w.traces, w.history));
    TickMild(w.engine, now, order);
  }

  // ---------------------------------------------------------------- DNS over UDP

  /** The event is a datagram to port 53, and the engine asks its query under the given number. */
  ghost predicate AsksUdp(e: Engine, ev: Event, query: nat, target: DnsTarget)
    requires Possible(e, ev)
  {
    ev.Arrives? &&
    match Classify(ev.input.packet)
    case Ok(Udp(d)) =>
      && d.destinationPort == 53
      && target == UdpTarget(Endpoint(d.source, d.sourcePort), Endpoint(d.destination, d.destinationPort))
      && Step(e, ev).actions == [ResolveDns(query, d.payload, target)]
    case _ => false
  }

  /** Every pending query of a UDP client was pending before. */
  ghost predicate NoneAsked(e: Engine, e': Engine) {
    forall q :: q in e'.pending && e'.pending[q].UdpTarget? ==> q in e.pending && e.pending[q] == e'.pending[q]
  }

  lemma FailAsks(e: Engine, id: nat, reason: Reason)
    ensures NoneAsked(e, FailFlow(e, id, reason).engine)
  {
  }

  lemma {:induction false} FailManyAsks(e: Engine, doomed: seq<(nat, Reason)>)
    ensures NoneAsked(e, FailMany(e, doomed).engine)
    decreases |doomed|
  {
    hide FailFlow;
    if doomed != [] {
      var first := FailFlow(e, doomed[0].0, doomed[0].1);
      FailAsks(e, doomed[0].0, doomed[0].1);
      FailManyAsks(first.engine, doomed[1..]);
    }
  }

  lemma InstallAsks(e: Engine, key: Key, o: Outcome)
    requires key in e.flows
    ensures NoneAsked(e, Install(e, key, o))
  {
    hide Install;
    InstallShape(e, key, o);
  }

  lemma TcpAsks(e: Engine, s: Segment, input: Input)
    ensures NoneAsked(e, ProcessTcp(e, s, input).engine)
  {
    hide FailFlow, Install, Existing, InitialSequence;
    var key := KeyOf(s);
    if key in e.flows {
      FailAsks(e, e.flows[key].id, MalformedPacket);
      FailAsks(e, e.flows[key].id, ProtectedPathUnavailable);
      InstallAsks(e, key, Existing(e.config, e.flows[key], s, input.now, Room(e), e.nextDnsId));
    }
  }

  lemma ArrivesAsks(e: Engine, input: Input, query: nat)
    requires query in Process(e, input).engine.pending && Process(e, input).engine.pending[query].UdpTarget?
    ensures var target := Process(e, input).engine.pending[query];
            (query in e.pending && e.pending[query] == target) || AsksUdp(e, Arrives(input), query, target)
  {
    hide Classify, ProcessTcp;
    match Classify(input.packet) {
      case Ok(Tcp(s)) => TcpAsks(e, s, input);
      case _ =>
    }
  }

  lemma AnswerAsks(e: Engine, query: nat, wire: seq<byte>, now: nat)
    ensures NoneAsked(e, CompleteDns(e, query, wire, now).engine)
  {
    hide FailFlow, Install, Accepts, Framed, StreamPayload;
    if query in e.pending && e.pending[query].TcpTarget? {
      var e', id := e.(pending := e.pending - {query}), e.pending[query].flow;
      FailAsks(e', id, DownstreamFailure);
      FailAsks(e', id, Backpressure);
      if Knows(e', id) && Accepts(e'.config, FlowOf(e', id), Framed(wire)) {
        InstallAsks(e', e'.ids[id], StreamPayload(e'.config, FlowOf(e', id), Framed(wire), now));
      }
    }
  }

  lemma StreamAsks(e: Engine, ev: Event)
    requires OfStream(ev)
    ensures NoneAsked(e, Step(e, ev).engine)
  {
    hide FailFlow, Install, Accepts, Receptive;
    var id := ev.id;
    forall reason: Reason { FailAsks(e, id, reason); }
    if Knows(e, id) {
      forall o: Outcome { InstallAsks(e, e.ids[id], o); }
    }
  }

  predicate OfStream(ev: Event) {
    ev.StreamOpens? || ev.StreamTook? || ev.StreamSays? || ev.StreamEnds? || ev.StreamFails?
  }

  lemma StepAsks(e: Engine, ev: Event, query: nat)
    requires Possible(e, ev)
    requires query in Step(e, ev).engine.pending && Step(e, ev).engine.pending[query].UdpTarget?
    ensures var target := Step(e, ev).engine.pending[query];
            (query in e.pending && e.pending[query] == target) || AsksUdp(e, ev, query, target)
  {
    hide Process, CompleteDns, FailMany, AsksUdp, Enumerates, Expired, Retransmissions;
    match ev {
      case Arrives(input) => ArrivesAsks(e, input, query);
      case DnsAnswers(q, wire, now) => AnswerAsks(e, q, wire, now);
      case Clock(now, order) => ClockAsks(e, now, order);
      case Wakes(_, _, order) => FailManyAsks(e.(suspendedAt := None), Doom(order, ProtectedPathUnavailable));
      case PathLost(reason, order) => FailManyAsks(e.(pending := map[]), Doom(order, reason));
      case Stops(order) => FailManyAsks(e.(accepting := false, pending := map[]), Doom(order, Shutdown));
      case Sleeps(_) =>
      case _ => StreamAsks(e, ev);
    }
  }

  lemma ClockAsks(e: Engine, now: nat, order: seq<Key>)
    requires Enumerates(order, e.flows.Keys)
    ensures NoneAsked(e, Tick(e, now, order).engine)
  {
    hide FailMany, Expired, Retransmissions, Ticked;
    FailManyAsks(AllTicked(e, now), Expired(e.config, e.flows, order, now));
  }

  ghost predicate AskedBefore(worlds: seq<World>, events: seq<Event>, k: nat, query: nat, target: DnsTarget)
    requires k <= |events| <= |worlds| && forall i :: 0 <= i < |events| ==> Possible(worlds[i].engine, events[i])
  {
    exists i :: 0 <= i < k && AsksUdp(worlds[i].engine, events[i], query, target)
  }

  lemma {:induction false} PendingAsked(c: Config, worlds: seq<World>, events: seq<Event>, k: nat, query: nat)
    requires Run(c, worlds, events) && k < |worlds|
    requires query in worlds[k].engine.pending && worlds[k].engine.pending[query].UdpTarget?
    ensures AskedBefore(worlds, events, k, query, worlds[k].engine.pending[query])
  {
    hide Step, TracesAfter, AsksUdp, Possible;
    if k > 0 {
      var w, ev := worlds[k - 1], events[k - 1];
      assert worlds[k - 1 + 1] == Next(w, ev);
      StepAsks(w.engine, ev, query);
      var target := worlds[k].engine.pending[query];
      if query in w.engine.pending && w.engine.pending[query] == target {
        PendingAsked(c, worlds, events, k - 1, query);
        var i :| 0 <= i < k - 1 && AsksUdp(worlds[i].engine, events[i], query, target);
        assert AsksUdp(worlds[i].engine, events[i], query, target);
      } else {
        assert AsksUdp(worlds[k - 1].engine, events[k - 1], query, target);
      }
    }
  }

  /** An answer to a pending query of a UDP client is sent to it, from the resolver it asked, if and only if the answer
      is neither empty nor too long for a datagram. */
  lemma UdpAnswerExact(c: Config, worlds: seq<World>, events: seq<Event>, i: nat, d: Datagram)
    requires ValidConfig(c) && Run(c, worlds, events) && i < |events| && events[i].DnsAnswers?
    requires events[i].query in worlds[i].engine.pending && worlds[i].engine.pending[events[i].query].UdpTarget?
    ensures var query, wire := events[i].query, events[i].wire; var target := worlds[i].engine.pending[query];
            && AskedBefore(worlds, events, i, query, target)
            && query !in worlds[i + 1].engine.pending
            && (SendUdp(d) in Step(worlds[i].engine, events[i]).actions <==>
                  && 0 < |wire| <= 65507
                  && d == Datagram(target.resolver.address, target.client.address, target.resolver.port, target.client.port, wire))
  {
    PendingAsked(c, worlds, events, i, events[i].query);
    assert worlds[i + 1] == Next(worlds[i], events[i]);
    hide Run, AskedBefore, FailFlow, Applied, Framed, TracesAfter, Possible;
  }
}
