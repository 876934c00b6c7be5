/**
 What the engine sends is a packet: every segment it asks to send has fields that fit the wire and ports that
 are not zero, so it arrives as that segment exactly when its payload fits one packet.
 */
module EnginePackets {
  import opened Bytes
  import opened Options
  import opened Packet
  import opened PacketTheorems
  import opened TcpFlow
  import opened TcpFlowTheorems
  import opened Engine
  import opened EngineInvariant
  import opened EngineCloses
  import opened EngineWorld
  import opened EngineRuns
  import opened EngineTheorems

  predicate KeyOk(key: Key) {
    Ports(key.source.port, key.destination.port)
  }

  /** The segment fits the wire, but perhaps for its payload, which the configuration bounds. */
  predicate Formed(c: Config, a: Action) {
    a.SendTcp? ==>
      && SegmentFields(a.segment) && Ports(a.segment.sourcePort, a.segment.destinationPort)
      && |a.segment.payload| <= c.toApplicationBytes
  }

  predicate AllFormed(c: Config, actions: seq<Action>) {
    forall a :: a in actions ==> Formed(c, a)
  }

  lemma ClassifiedFields(packet: seq<byte>, s: Segment)
    requires Classify(packet) == Ok(Tcp(s))
    ensures KeyOk(KeyOf(s))
  {
    hide TransportChecksum, FlagsOf, Be16, Be32;
  }

  // ---------------------------------------------------------------- one flow

  predicate Numbered(f: Flow) {
    f.clientNext < WRAP && f.serverNext < WRAP && KeyOk(f.key)
  }

  lemma RepliesFormed(c: Config, f: Flow)
    requires ValidConfig(c) && Numbered(f)
    ensures Formed(c, AckReply(c, f)) && Formed(c, SynAckReply(c, f)) && Formed(c, ResetReply(f))
  {
  }

  lemma PayloadForms(c: Config, f: Flow, s: Segment)
    requires ValidConfig(c) && Numbered(f)
    ensures var w := TakePayload(c, f, s); Numbered(w.flow) && AllFormed(c, w.actions)
  {
    hide Formed, ValidConfig;
    RepliesFormed(c, f);
    var w := TakePayload(c, f, s);
    RepliesFormed(c, w.flow);
    forall a | a in w.actions ensures Formed(c, a) {
      assert !a.SendTcp? ==> Formed(c, a) by { NoPacket(c, a); }
    }
  }

  lemma NoPacket(c: Config, a: Action)
    ensures !a.SendTcp? ==> Formed(c, a)
  {
  }

  lemma QueriesForm(c: Config, w: Work, room: nat, firstId: nat)
    requires Numbered(w.flow) && AllFormed(c, w.actions)
    ensures var v := TakeQueries(w, room, firstId); Numbered(v.flow) && AllFormed(c, v.actions)
  {
    hide Drain;
  }

  lemma FinForms(c: Config, w: Work, s: Segment)
    requires ValidConfig(c) && Numbered(w.flow) && AllFormed(c, w.actions)
    ensures AllFormed(c, TakeFin(c, w, s).actions)
  {
    hide ValidConfig, TakeFin, Formed;
    TakeFinSends(c, w, s);
    TakeFinShape(c, w, s);
    var o := TakeFin(c, w, s);
    RepliesFormed(c, w.flow);
    RepliesFormed(c, o.flow);
    forall a | a in o.actions ensures Formed(c, a) {
      NoPacket(c, a);
      if a !in w.actions {
        assert a in o.actions[|w.actions|..];
      }
    }
  }

  lemma ExistingForms(c: Config, f: Flow, s: Segment, now: nat, room: nat, firstId: nat)
    requires ValidConfig(c) && Sane(c, f) && KeyOk(f.key)
    ensures AllFormed(c, Existing(c, f, s, now, room, firstId).actions)
  {
    hide ValidConfig, Existing, TakePayload, TakeQueries, TakeFin, Formed, Reaches;
    var o := Existing(c, f, s, now, room, firstId);
    if Reaches(f, s) {
      ExistingStages(c, f, s, now, room, firstId);
      var g := Settled(f, s, now);
      PayloadForms(c, g, s);
      QueriesForm(c, TakePayload(c, g, s), room, firstId);
      FinForms(c, TakeQueries(TakePayload(c, g, s), room, firstId), s);
    } else {
      ExistingStops(c, f, s, now, room, firstId);
      RepliesFormed(c, f.(lastActivityMs := now));
      forall a | a in o.actions ensures Formed(c, a) {
        NoPacket(c, a);
      }
    }
  }

  lemma EmitForms(c: Config, f: Flow, flags: Flags, payload: seq<byte>, now: nat)
    requires ValidConfig(c) && Numbered(f) && |payload| <= c.toApplicationBytes
    ensures AllFormed(c, Emit(c, f, flags, payload, now).actions)
  {
  }

  lemma FailForms(c: Config, f: Flow, reason: Reason)
    requires ValidConfig(c) && Numbered(f)
    ensures AllFormed(c, FailActions(f, reason))
  {
    RepliesFormed(c, f);
  }

  lemma TickForms(c: Config, f: Flow, now: nat)
    requires ValidConfig(c) && Sane(c, f) && KeyOk(f.key)
    ensures AllFormed(c, TickActions(c, f, now))
  {
  }

  // ---------------------------------------------------------------- the tables

  /** Every flow belongs to a key with proper ports. */
  ghost predicate KeysOk(e: Engine) {
    forall k :: k in e.flows ==> KeyOk(k)
  }

  lemma FlowNumbered(e: Engine, key: Key)
    requires EngineInv(e) && KeysOk(e) && key in e.flows
    ensures Numbered(e.flows[key]) && Sane(e.config, e.flows[key]) && ValidConfig(e.config) && e.flows[key].key == key
  {
    Listed(e, key);
    hide TablesOk, TargetsOk, AllSane, QueuesOk, OutstandingOk;
  }

  lemma KnownNumbered(e: Engine, id: nat)
    requires EngineInv(e) && KeysOk(e) && Knows(e, id)
    ensures Numbered(FlowOf(e, id)) && Sane(e.config, FlowOf(e, id)) && ValidConfig(e.config)
  {
    FlowNumbered(e, e.ids[id]);
  }

  /** The call keeps the keys proper and asks only for proper packets. */
  ghost predicate WellSent(e: Engine, r: Done) {
    KeysOk(r.engine) && AllFormed(e.config, r.actions)
  }

  lemma InstallKeys(e: Engine, key: Key, o: Outcome)
    requires KeysOk(e) && key in e.flows
    ensures KeysOk(Install(e, key, o))
  {
  }

  lemma FailSent(e: Engine, id: nat, reason: Reason)
    requires EngineInv(e) && KeysOk(e)
    ensures WellSent(e, FailFlow(e, id, reason))
  {
    hide EngineInv, AllFormed;
    if Knows(e, id) {
      KnownNumbered(e, id);
      FailForms(e.config, FlowOf(e, id), reason);
    } else {
      NothingForms(e.config);
    }
  }

  lemma NothingForms(c: Config)
    ensures AllFormed(c, [])
  {
  }

  lemma {:induction false} FailManySent(e: Engine, doomed: seq<(nat, Reason)>)
    requires EngineInv(e) && KeysOk(e)
    ensures WellSent(e, FailMany(e, doomed))
    decreases |doomed|
  {
    hide EngineInv, FailFlow, Formed;
    if doomed != [] {
      FailSent(e, doomed[0].0, doomed[0].1);
      FailInv(e, doomed[0].0, doomed[0].1);
      FailManySent(FailFlow(e, doomed[0].0, doomed[0].1).engine, doomed[1..]);
    }
  }

  lemma FailInv(e: Engine, id: nat, reason: Reason)
    requires EngineInv(e)
    ensures EngineInv(FailFlow(e, id, reason).engine) && FailFlow(e, id, reason).engine.config == e.config
  {
    hide EngineInv;
    if Knows(e, id) {
      RemoveInv(e, e.ids[id]);
    }
  }

  // ---------------------------------------------------------------- every call

  /** One flow changes by an event of its stream. */
  lemma AppliedSent(e: Engine, id: nat, o: Outcome)
    requires KeysOk(e) && Knows(e, id) && AllFormed(e.config, o.actions)
    ensures WellSent(e, Applied(e, e.ids[id], o))
  {
    InstallKeys(e, e.ids[id], o);
  }

  lemma SegmentSent(e: Engine, s: Segment, input: Input)
    requires EngineInv(e) && KeysOk(e) && KeyOk(KeyOf(s))
    ensures WellSent(e, ProcessTcp(e, s, input))
  {
    hide EngineInv, Existing, FailFlow, Install, OpenTcp, OpenDnsTcp, AllFormed;
    var key := KeyOf(s);
    ConfigValid(e);
    if key in e.flows {
      FlowNumbered(e, key);
      FailSent(e, e.flows[key].id, MalformedPacket);
      FailSent(e, e.flows[key].id, ProtectedPathUnavailable);
      ExistingForms(e.config, e.flows[key], s, input.now, Room(e), e.nextDnsId);
      InstallKeys(e, key, Existing(e.config, e.flows[key], s, input.now, Room(e), e.nextDnsId));
      LightForms(e.config, [CloseBoth(e.flows[key].id)]);
    } else {
      LightForms(e.config, []);
      LightForms(e.config, [Diagnostic(UnknownFlow, None)]);
      RejectForms(e, s, MalformedPacket);
      NewSent(e, s, input);
    }
  }

  lemma LightForms(c: Config, actions: seq<Action>)
    requires forall a :: a in actions ==> !a.SendTcp?
    ensures AllFormed(c, actions)
  {
  }

  lemma RejectForms(e: Engine, s: Segment, reason: Reason)
    requires KeyOk(KeyOf(s))
    ensures AllFormed(e.config, RejectSyn(e, s, reason).actions)
  {
  }

  lemma NewSent(e: Engine, s: Segment, input: Input)
    requires KeysOk(e) && ValidConfig(e.config) && KeyOk(KeyOf(s))
    ensures WellSent(e, OpenTcp(e, KeyOf(s), s, input)) && WellSent(e, OpenDnsTcp(e, KeyOf(s), s, input))
  {
    hide InitialSequence;
  }

  lemma ConfigValid(e: Engine)
    requires EngineInv(e)
    ensures ValidConfig(e.config)
  {
  }

  lemma ArrivesSent(e: Engine, input: Input)
    requires EngineInv(e) && KeysOk(e)
    ensures WellSent(e, Process(e, input))
  {
    hide EngineInv, Classify, ProcessTcp;
    match Classify(input.packet) {
      case Ok(Tcp(s)) =>
        ClassifiedFields(input.packet, s);
        SegmentSent(e, s, input);
      case _ =>
    }
  }

  lemma OpensSent(e: Engine, id: nat, now: nat)
    requires EngineInv(e) && KeysOk(e)
    ensures WellSent(e, Opened(e, id, now))
  {
    hide EngineInv, Install;
    if Knows(e, id) {
      KnownNumbered(e, id);
      AppliedSent(e, id, StreamOpened(e.config, FlowOf(e, id), now));
    }
  }

  lemma TookSent(e: Engine, id: nat, bytes: nat, now: nat)
    requires EngineInv(e) && KeysOk(e)
    ensures WellSent(e, AcknowledgeForwarded(e, id, bytes, now))
  {
    hide EngineInv, Install;
    if Knows(e, id) {
      KnownNumbered(e, id);
      AppliedSent(e, id, Forwarded(e.config, FlowOf(e, id), bytes, now));
    }
  }

  lemma PayloadSent(e: Engine, id: nat, payload: seq<byte>, now: nat)
    requires EngineInv(e) && KeysOk(e) && Knows(e, id) && Accepts(e.config, FlowOf(e, id), payload)
    ensures WellSent(e, Applied(e, e.ids[id], StreamPayload(e.config, FlowOf(e, id), payload, now)))
  {
    hide EngineInv, Install, Emit, AllFormed;
    KnownNumbered(e, id);
    var f := FlowOf(e, id).(queuedToApplication := |payload|);
    EmitForms(e.config, f, PSH_ACK, payload, now);
    AppliedSent(e, id, StreamPayload(e.config, FlowOf(e, id), payload, now));
  }

  lemma SaysSent(e: Engine, id: nat, payload: seq<byte>, now: nat)
    requires EngineInv(e) && KeysOk(e)
    ensures WellSent(e, ProtectedPayload(e, id, payload, now))
  {
    hide EngineInv, Applied, FailFlow;
    FailSent(e, id, Backpressure);
    if Knows(e, id) && Accepts(e.config, FlowOf(e, id), payload) {
      PayloadSent(e, id, payload, now);
    }
  }

  lemma EndsSent(e: Engine, id: nat, now: nat)
    requires EngineInv(e) && KeysOk(e)
    ensures WellSent(e, ProtectedClosed(e, id, now))
  {
    hide EngineInv, Install, FailFlow, Emit, AllFormed;
    FailSent(e, id, DownstreamFailure);
    NothingForms(e.config);
    if Knows(e, id) && Receptive(FlowOf(e, id)) {
      KnownNumbered(e, id);
      var f := FlowOf(e, id);
      var g := f.(state := if f.state.HalfClosedLocal? then Closing else HalfClosedRemote);
      EmitForms(e.config, g, FIN_ACK, [], now);
      AppliedSent(e, id, StreamClosed(e.config, f, now));
    }
  }

  lemma AnswersSent(e: Engine, query: nat, wire: seq<byte>, now: nat)
    requires EngineInv(e) && KeysOk(e)
    ensures WellSent(e, CompleteDns(e, query, wire, now))
  {
    hide EngineInv, Applied, FailFlow, Framed;
    if query in e.pending {
      var e' := e.(pending := e.pending - {query});
      PendingLess(e, query);
      if e.pending[query].TcpTarget? {
        var id := e.pending[query].flow;
        FailSent(e', id, DownstreamFailure);
        FailSent(e', id, Backpressure);
        if Knows(e', id) && Accepts(e'.config, FlowOf(e', id), Framed(wire)) {
          PayloadSent(e', id, Framed(wire), now);
        }
      }
    }
  }

  lemma {:induction false} RetransmissionsForm(e: Engine, order: seq<Key>, now: nat)
    requires EngineInv(e) && KeysOk(e) && forall k :: k in order ==> k in e.flows
    ensures AllFormed(e.config, Retransmissions(e.config, e.flows, order, now))
  {
    hide EngineInv, TickActions, Formed;
    if order != [] {
      assert order[0] in order;
      FlowNumbered(e, order[0]);
      TickForms(e.config, e.flows[order[0]], now);
      RetransmissionsForm(e, order[1..], now);
    }
  }

  lemma ClockSent(w: World, now: nat, order: seq<Key>)
    requires WorldInv(w) && KeysOk(w.engine) && forall k :: k in order ==> k in w.engine.flows
    ensures WellSent(w.engine, Tick(w.engine, now, order))
  {
    hide WorldInv, EngineInv, FailMany, Retransmissions, Expired, Ticked;
    var e := w.engine;
    WorldEngine(w);
    if e.suspendedAt.None? {
      TickedKeeps(w, now);
      WorldEngine(World(AllTicked(e, now), w.traces, w.history));
      RetransmissionsForm(e, order, now);
      FailManySent(AllTicked(e, now), Expired(e.config, e.flows, order, now));
    }
  }

  lemma WakesSent(e: Engine, now: nat, healthy: bool, order: seq<nat>)
    requires EngineInv(e) && KeysOk(e)
    ensures WellSent(e, Resume(e, now, healthy, order))
  {
    hide FailMany, Sane;
    var e' := e.(suspendedAt := None);
    FailManySent(e', Doom(order, ProtectedPathUnavailable));
  }

  lemma LostSent(e: Engine, reason: Reason, order: seq<nat>)
    requires EngineInv(e) && KeysOk(e)
    ensures WellSent(e, FailAll(e, reason, order))
  {
    hide FailMany, Sane;
    FailManySent(e.(pending := map[]), Doom(order, reason));
  }

  lemma StopsSent(e: Engine, order: seq<nat>)
    requires EngineInv(e) && KeysOk(e)
    ensures WellSent(e, Stop(e, order))
  {
    hide FailAll, Sane;
    LostSent(e.(accepting := false), Shutdown, order);
  }

  lemma StepSent(w: World, ev: Event)
    requires WorldInv(w) && KeysOk(w.engine) && Possible(w.engine, ev)
    ensures WellSent(w.engine, Step(w.engine, ev))
  {
    hide WorldInv, EngineInv, KeysOk, Process, Opened, AcknowledgeForwarded, ProtectedPayload, ProtectedClosed,
      FailFlow, CompleteDns,
      Tick, Resume, FailAll, Stop;
    var e := w.engine;
    WorldEngine(w);
    match ev {
      case Arrives(input) => ArrivesSent(e, input);
      case StreamOpens(id, now) => OpensSent(e, id, now);
      case StreamTook(id, bytes, now) => TookSent(e, id, bytes, now);
      case StreamSays(id, payload, now) => SaysSent(e, id, payload, now);
      case StreamEnds(id, now) => EndsSent(e, id, now);
      case StreamFails(id, reason) => FailSent(e, id, reason);
      case DnsAnswers(query, wire, now) => AnswersSent(e, query, wire, now);
      case Clock(now, order) => ClockSent(w, now, order);
      case Sleeps(now) => SleepSent(e, now);
      case Wakes(now, healthy, order) => WakesSent(e, now, healthy, order);
      case PathLost(reason, order) => LostSent(e, reason, order);
      case Stops(order) => StopsSent(e, order);
    }
  }

  lemma SleepSent(e: Engine, now: nat)
    requires KeysOk(e)
    ensures WellSent(e, Done(Suspend(e, now), []))
  {
  }

  // ---------------------------------------------------------------- every run

  lemma {:induction false} RunKeys(c: Config, worlds: seq<World>, events: seq<Event>, k: nat)
    requires ValidConfig(c) && Run(c, worlds, events) && k < |worlds|
    ensures KeysOk(worlds[k].engine)
  {
    hide WorldInv, Step, AllFormed;
    if k > 0 {
      RunKeys(c, worlds, events, k - 1);
      RunInv(c, worlds, events, k - 1);
      StepSent(worlds[k - 1], events[k - 1]);
      assert worlds[k - 1 + 1] == Next(worlds[k - 1], events[k - 1]);
    }
  }

  /** The action is asked for by step i of the run. */
  ghost predicate Sends(c: Config, worlds: seq<World>, events: seq<Event>, i: nat, a: Action) {
    Run(c, worlds, events) && i < |events| && a in Step(worlds[i].engine, events[i]).actions && a.SendTcp?
  }

  /** Every segment ever sent fits the wire, but perhaps for its payload: it arrives as that segment if and
      only if the payload has at most 65495 bytes, and otherwise an empty packet is sent in its place. */
  lemma SentArrives(c: Config, worlds: seq<World>, events: seq<Event>, i: nat, a: Action)
    requires ValidConfig(c) && Sends(c, worlds, events, i, a)
    ensures SegmentFields(a.segment) && |a.segment.payload| <= c.toApplicationBytes
    ensures Classify(TcpPacket(a.segment)) == Ok(Tcp(a.segment)) <==> |a.segment.payload| <= 65495
    ensures |a.segment.payload| > 65495 ==> TcpPacket(a.segment) == []
  {
    hide WorldInv, Step, Classify, TcpPacket;
    RunKeys(c, worlds, events, i);
    RunInv(c, worlds, events, i);
    ConfigStays(c, worlds, events, i);
    StepSent(worlds[i], events[i]);
    hide Run;
    assert Formed(c, a);
    TcpRoundTrip(a.segment, []);
    assert TcpPacket(a.segment) + [] == TcpPacket(a.segment);
    EmptyRefused();
  }

  lemma EmptyRefused()
    ensures Classify([]) == Err(Truncated)
  {
  }

  // ---------------------------------------------------------------- a run with one flow

  const HOME := Address(10, 0, 0, 1)
  const AWAY := Address(10, 0, 0, 2)

  /** What the application sends to a port. */
  function Said(port: nat, sequence: nat, acknowledgement: nat, flags: Flags, payload: seq<byte>): Segment {
    Segment(HOME, AWAY, 1000, port, sequence, acknowledgement, 1, flags, payload)
  }

  function Arrival(s: Segment): Event
    requires SegmentFields(s)
  {
    Arrives(Input(TcpPacket(s), 0, Some(Tunnel), true))
  }

  lemma ArrivalClassified(s: Segment)
    requires SegmentFields(s) && Ports(s.sourcePort, s.destinationPort) && |s.payload| <= 65495
    ensures Classify(Arrival(s).input.packet) == Ok(Tcp(s))
  {
    hide Classify, TcpPacket;
    TcpRoundTrip(s, []);
    assert TcpPacket(s) + [] == TcpPacket(s);
  }

  /** The engine knows one flow and nothing else. */
  function Alone(c: Config, f: Flow): Engine {
    Engine(c, map[f.key := f], map[f.id := f.key], map[], 2, 1, true, None)
  }

  lemma StaysAlone(c: Config, f: Flow, o: Outcome)
    requires !o.removed && o.queries == [] && o.flow.key == f.key && o.flow.id == f.id
    ensures Applied(Alone(c, f), f.key, o) == Done(Alone(c, o.flow), o.actions)
  {
    assert Asked(map[], 1, 0, f.id) == map[];
  }

  function Syn(port: nat): Segment {
    Said(port, 0, 0, Flags(false, true, false, false, false), [])
  }

  function FirstFlow(c: Config, port: nat): Flow {
    NewFlow(Fresh(c), KeyOf(Syn(port)), Syn(port), 0, port == 53)
  }

  lemma Admission(c: Config, port: nat)
    requires ValidConfig(c) && 0 < port < WORD
    ensures Process(Fresh(c), Arrival(Syn(port)).input).engine == Alone(c, FirstFlow(c, port))
    ensures port == 53 ==>
              Process(Fresh(c), Arrival(Syn(port)).input).actions
              == [Reply(FirstFlow(c, port), InitialSequence(1), 1, SYN_ACK, c.receiveWindow, [])]
  {
    hide Classify, TcpPacket, InitialSequence;
    ArrivalClassified(Syn(port));
  }

  /** The application completes the handshake. */
  function HandshakeAck(f: Flow, port: nat, payload: seq<byte>): Segment {
    Said(port, f.clientNext, f.serverNext, ACK, payload)
  }

  lemma HandshakeDone(c: Config, f: Flow, port: nat, room: nat, firstId: nat)
    requires Sane(c, f) && f.state.SynAckSent?
    ensures Existing(c, f, HandshakeAck(f, port, []), 0, room, firstId)
         == Outcome(f.(lastActivityMs := 0, state := Established, connectStartedMs := None), false, [], [])
  {
    hide TakeQueries, Drain;
    var g := f.(lastActivityMs := 0, state := Established, connectStartedMs := None);
    assert Minus(f.serverNext, f.serverNext) == 0 by { MinusSelf(f.serverNext); }
    assert TakeQueries(Work(g, [], false, []), room, firstId) == Work(g, [], false, []) by { NothingDrained(g, room, firstId); }
  }

  lemma MinusSelf(n: nat)
    requires n < WRAP
    ensures Minus(n, n) == 0
  {
  }

  lemma NothingDrained(f: Flow, room: nat, firstId: nat)
    requires f.buffer == []
    ensures TakeQueries(Work(f, [], false, []), room, firstId) == Work(f, [], false, [])
  {
    assert Resolves([], firstId, f.id) == [];
  }

  /** An admitted flow is established and given a payload. */
  lemma GivesPayload(c: Config, payload: seq<byte>)
    requires ValidConfig(c) && 0 < |payload| <= c.toApplicationBytes
    ensures exists worlds, events, i, a :: Sends(c, worlds, events, i, a) && a.segment.payload == payload
  {
    hide Process, Opened, ProtectedPayload, TracesAfter, Alone, FirstFlow, TcpPacket;
    var f := FirstFlow(c, 80);
    var f2, f3 := f.(state := SynAckSent), f.(state := Established, connectStartedMs := None);
    FlowSteps(c, payload);
    var w0 := World(Fresh(c), map[], []);
    var events := [Arrival(Syn(80)), StreamOpens(1, 0), Arrival(HandshakeAck(f2, 80, [])), StreamSays(1, payload, 0)];
    var w1 := Next(w0, events[0]);
    var w2 := Next(w1, events[1]);
    var w3 := Next(w2, events[2]);
    var w4 := Next(w3, events[3]);
    var a := Reply(f3, f3.serverNext, f3.clientNext, PSH_ACK, c.receiveWindow, payload);
    assert Run(c, [w0, w1, w2, w3, w4], events);
    assert Step(w3.engine, events[3]).actions == [a];
    assert Sends(c, [w0, w1, w2, w3, w4], events, 3, a) && a.segment.payload == payload;
  }

  lemma FlowSteps(c: Config, payload: seq<byte>)
    requires ValidConfig(c) && 0 < |payload| <= c.toApplicationBytes
    ensures var f := FirstFlow(c, 80); var f2, f3 := f.(state := SynAckSent), f.(state := Established, connectStartedMs := None);
            && f.clientNext < WRAP && f.serverNext < WRAP
            && Process(Fresh(c), Arrival(Syn(80)).input).engine == Alone(c, f)
            && Opened(Alone(c, f), 1, 0).engine == Alone(c, f2)
            && Process(Alone(c, f2), Arrival(HandshakeAck(f2, 80, [])).input).engine == Alone(c, f3)
            && ProtectedPayload(Alone(c, f3), 1, payload, 0).actions
               == [Reply(f3, f3.serverNext, f3.clientNext, PSH_ACK, c.receiveWindow, payload)]
  {
    hide Classify, InitialSequence, Existing, Install, Asked, TcpPacket;
    var f := FirstFlow(c, 80);
    var f2, f3 := f.(state := SynAckSent), f.(state := Established, connectStartedMs := None);
    Admission(c, 80);
    StaysAlone(c, f, StreamOpened(c, f, 0));
    var s := HandshakeAck(f2, 80, []);
    ArrivalClassified(s);
    HandshakeDone(c, f2, 80, Room(Alone(c, f2)), 1);
    StaysAlone(c, f2, Outcome(f3, false, [], []));
    StaysAlone(c, f3, StreamPayload(c, f3, payload, 0));
  }

  /** Every segment of every run of a configuration arrives if and only if the configuration permits at most
      65495 bytes in one. */
  lemma AllArrive(c: Config)
    requires ValidConfig(c)
    ensures c.toApplicationBytes <= 65495 <==>
              forall worlds, events, i, a :: Sends(c, worlds, events, i, a) ==>
                SegmentFields(a.segment) && Classify(TcpPacket(a.segment)) == Ok(Tcp(a.segment))
  {
    hide Run, Step, Classify, TcpPacket;
    forall worlds, events, i, a | Sends(c, worlds, events, i, a)
      ensures SegmentFields(a.segment) && |a.segment.payload| <= c.toApplicationBytes
      ensures Classify(TcpPacket(a.segment)) == Ok(Tcp(a.segment)) <==> |a.segment.payload| <= 65495
    {
      SentArrives(c, worlds, events, i, a);
    }
    if c.toApplicationBytes > 65495 {
      GivesPayload(c, Zeros(65496));
    }
  }
}
