/**
 What one event of a run does to one flow: when its unacknowledged segment is released, repeated or kept, when
 its timers run out, and what sleeping does to them.
 */
module EngineFlows {
  import opened Bytes
  import opened Options
  import opened Packet
  import opened TcpFlow
  import opened TcpFlowTheorems
  import opened Engine
  import opened EngineInvariant
  import opened EngineCloses
  import opened EngineWorld
  import opened EngineRuns
  import opened EngineTheorems

  // ---------------------------------------------------------------- the record after an event

  /** The record that a flow has after an event, if it is still there. */
  function After(e: Engine, ev: Event, f: Flow): Flow {
    match ev
    case Arrives(input) =>
      (match Classify(input.packet)
       case Ok(Tcp(s)) =>
         if KeyOf(s) == f.key then Existing(e.config, f, s, input.now, Room(e), e.nextDnsId).flow else f
       case _ => f)
    case StreamOpens(id, now) => if id == f.id then StreamOpened(e.config, f, now).flow else f
    case StreamTook(id, bytes, now) => if id == f.id then Forwarded(e.config, f, bytes, now).flow else f
    case StreamSays(id, payload, now) =>
      if id == f.id && payload != [] && Accepts(e.config, f, payload) then StreamPayload(e.config, f, payload, now).flow
      else f
    case StreamEnds(id, now) =>
      if id == f.id && Receptive(f) then StreamClosed(e.config, f, now).flow else f
    case DnsAnswers(query, wire, now) =>
      if query in e.pending && e.pending[query] == TcpTarget(f.id) && Accepts(e.config, f, Framed(wire)) then
        StreamPayload(e.config, f, Framed(wire), now).flow
      else f
    case Clock(now, _) => if e.suspendedAt.Some? then f else Ticked(e.config, f, now)
    case Wakes(now, _, _) => if e.suspendedAt.Some? then Slept(f, Since(now, e.suspendedAt.value)) else f
    case _ => f
  }

  /** The flow is still there, with the given record. */
  predicate Has(e: Engine, id: nat, f: Flow) {
    Knows(e, id) && FlowOf(e, id) == f
  }

  lemma FailHas(e: Engine, id: nat, reason: Reason, other: nat)
    requires EngineInv(e) && Knows(e, other) && Knows(FailFlow(e, id, reason).engine, other)
    ensures Has(FailFlow(e, id, reason).engine, other, FlowOf(e, other)) && id != other
  {
    hide EngineInv, FailFlow;
    FailMild(e, id, reason);
  }

  lemma {:induction false} FailManyHas(e: Engine, doomed: seq<(nat, Reason)>, id: nat)
    requires EngineInv(e) && Knows(e, id)
    ensures Knows(FailMany(e, doomed).engine, id) <==> forall i :: 0 <= i < |doomed| ==> doomed[i].0 != id
    ensures Knows(FailMany(e, doomed).engine, id) ==> Has(FailMany(e, doomed).engine, id, FlowOf(e, id))
    decreases |doomed|
  {
    hide EngineInv, FailFlow;
    if doomed != [] {
      var first := FailFlow(e, doomed[0].0, doomed[0].1).engine;
      FailMild(e, doomed[0].0, doomed[0].1);
      if doomed[0].0 == id {
        StaysGone(first, doomed[1..], id);
      } else {
        FailManyHas(first, doomed[1..], id);
      }
    }
  }

  lemma {:induction false} StaysGone(e: Engine, doomed: seq<(nat, Reason)>, id: nat)
    requires EngineInv(e) && !Knows(e, id)
    ensures !Knows(FailMany(e, doomed).engine, id)
    decreases |doomed|
  {
    hide EngineInv, FailFlow;
    if doomed != [] {
      FailMild(e, doomed[0].0, doomed[0].1);
      StaysGone(FailFlow(e, doomed[0].0, doomed[0].1).engine, doomed[1..], id);
    }
  }

  /** Writing back one flow leaves the others alone. */
  lemma InstallHas(e: Engine, key: Key, o: Outcome, id: nat)
    requires EngineInv(e) && key in e.flows && Knows(e, id) && o.flow.id == e.flows[key].id && o.flow.key == key
    ensures var r := Install(e, key, o);
            && (Knows(r, id) <==> !(FlowOf(e, id).key == key && o.removed))
            && (Knows(r, id) ==> FlowOf(r, id) == if FlowOf(e, id).key == key then o.flow else FlowOf(e, id))
  {
    hide Sane, TargetsOk, AllSane, Below, Asked, Orphaned;
    InstallShape(e, key, o);
    KnownFlow(e, id);
    hide Install;
  }

  lemma InsertHas(e: Engine, f: Flow, id: nat)
    requires EngineInv(e) && Knows(e, id) && f.id == e.nextFlowId && f.key !in e.flows
    ensures Has(Insert(e.(nextFlowId := e.nextFlowId + 1), f), id, FlowOf(e, id))
  {
    hide Sane, TargetsOk, AllSane;
    assert id in e.ids.Keys;
  }

  lemma SegmentRecord(e: Engine, s: Segment, input: Input, id: nat)
    requires EngineInv(e) && Knows(e, id) && Knows(ProcessTcp(e, s, input).engine, id)
    ensures var f := FlowOf(e, id);
            Has(ProcessTcp(e, s, input).engine, id,
                if KeyOf(s) == f.key then Existing(e.config, f, s, input.now, Room(e), e.nextDnsId).flow else f)
    ensures KeyOf(s) == FlowOf(e, id).key ==> Delivered(e, s, input)
  {
    hide EngineInv, FailFlow, Existing, Install, Insert, Remove, InitialSequence;
    KnownFlow(e, id);
    var key := KeyOf(s);
    if key in e.flows {
      Listed(e, key);
      if s.flags.syn && (s.flags.fin || s.flags.rst || s.payload != []) {
        FailHas(e, e.flows[key].id, MalformedPacket, id);
      } else if s.flags.rst {
        RemoveKnows(e, e.flows[key].id);
      } else if !input.healthy {
        FailHas(e, e.flows[key].id, ProtectedPathUnavailable, id);
      } else {
        ExistingSane(e.config, e.flows[key], s, input.now, Room(e), e.nextDnsId);
        InstallHas(e, key, Existing(e.config, e.flows[key], s, input.now, Room(e), e.nextDnsId), id);
      }
    } else if s.destinationPort == 53 {
      InsertHas(e, NewFlow(e, key, s, input.now, true), id);
    } else {
      InsertHas(e, NewFlow(e, key, s, input.now, false), id);
    }
  }

  lemma AppliedHas(e: Engine, e0: Engine, at: nat, o: Outcome, id: nat)
    requires EngineInv(e) && Knows(e, at) && Knows(e, id) && o.flow.id == at && o.flow.key == e.ids[at]
    requires Knows(Applied(e, e.ids[at], o).engine, id) && e0.flows == e.flows && e0.ids == e.ids
    ensures Has(Applied(e, e.ids[at], o).engine, id, if at == id then o.flow else FlowOf(e0, id))
  {
    hide EngineInv, Install;
    KnownFlow(e, at);
    KnownFlow(e, id);
    InstallHas(e, e.ids[at], o, id);
  }

  lemma AnswerRecord(e: Engine, query: nat, wire: seq<byte>, now: nat, id: nat)
    requires EngineInv(e) && Knows(e, id) && Knows(CompleteDns(e, query, wire, now).engine, id)
    ensures Has(CompleteDns(e, query, wire, now).engine, id, After(e, DnsAnswers(query, wire, now), FlowOf(e, id)))
  {
    hide EngineInv, FailFlow, Applied, Framed, Accepts, StreamPayload;
    if query in e.pending {
      var target, e' := e.pending[query], e.(pending := e.pending - {query});
      PendingLess(e, query);
      KnownFlow(e, id);
      if target.TcpTarget? {
        if wire == [] || |wire| > MAX_DNS_MESSAGE_BYTES {
          FailHas(e', target.flow, DownstreamFailure, id);
        } else if Knows(e', target.flow) {
          if !Accepts(e'.config, FlowOf(e', target.flow), Framed(wire)) {
            FailHas(e', target.flow, Backpressure, id);
          } else {
            KnownFlow(e', target.flow);
            PayloadKeepsName(e'.config, FlowOf(e', target.flow), Framed(wire), now);
            AppliedHas(e', e, target.flow, StreamPayload(e'.config, FlowOf(e', target.flow), Framed(wire), now), id);
          }
        }
      }
    }
  }

  lemma PayloadKeepsName(c: Config, f: Flow, payload: seq<byte>, now: nat)
    requires Accepts(c, f, payload)
    ensures var g := StreamPayload(c, f, payload, now).flow; g.id == f.id && g.key == f.key
  {
  }

  lemma TickedHas(e: Engine, now: nat, id: nat)
    requires Knows(e, id)
    ensures Has(AllTicked(e, now), id, Ticked(e.config, FlowOf(e, id), now))
  {
    hide Ticked;
  }

  lemma ClockRecord(w: World, now: nat, order: seq<Key>, id: nat)
    requires WorldInv(w) && Possible(w.engine, Clock(now, order)) && Knows(w.engine, id)
    requires Knows(Tick(w.engine, now, order).engine, id)
    ensures Has(Tick(w.engine, now, order).engine, id, After(w.engine, Clock(now, order), FlowOf(w.engine, id)))
  {
    hide WorldInv, FailMany, Ticked, AllTicked, Expired, Retransmissions;
    var e := w.engine;
    if e.suspendedAt.None? {
      TickedKeeps(w, now);
      WorldEngine(World(AllTicked(e, now), w.traces, w.history));
      TickedHas(e, now, id);
      FailManyHas(AllTicked(e, now), Expired(e.config, e.flows, order, now), id);
    }
  }

  lemma Doomed(order: seq<nat>, reason: Reason, id: nat)
    requires id in order
    ensures !forall i :: 0 <= i < |Doom(order, reason)| ==> Doom(order, reason)[i].0 != id
  {
    var i :| 0 <= i < |order| && order[i] == id;
    assert Doom(order, reason)[i].0 == id;
  }

  lemma WakeRecord(w: World, now: nat, healthy: bool, order: seq<nat>, id: nat)
    requires WorldInv(w) && Possible(w.engine, Wakes(now, healthy, order)) && Knows(w.engine, id)
    requires Knows(Resume(w.engine, now, healthy, order).engine, id)
    ensures Has(Resume(w.engine, now, healthy, order).engine, id,
                After(w.engine, Wakes(now, healthy, order), FlowOf(w.engine, id)))
    ensures w.engine.suspendedAt.Some? ==> healthy
  {
    hide WorldInv, FailMany, Slept;
    var e := w.engine;
    if e.suspendedAt.Some? && !healthy {
      FlagsKeep(w, e.(suspendedAt := None));
      WorldEngine(World(e.(suspendedAt := None), w.traces, w.history));
      FailManyHas(e.(suspendedAt := None), Doom(order, ProtectedPathUnavailable), id);
      Doomed(order, ProtectedPathUnavailable, id);
    }
  }

  lemma LostRecord(w: World, reason: Reason, order: seq<nat>, id: nat)
    requires WorldInv(w) && Enumerates(order, w.engine.ids.Keys) && Knows(w.engine, id)
    ensures !Knows(FailAll(w.engine, reason, order).engine, id)
  {
    hide WorldInv, FailMany;
    var e := w.engine.(pending := map[]);
    PendingDropped(w, map[]);
    WorldEngine(World(e, w.traces, w.history));
    FailManyHas(e, Doom(order, reason), id);
    Doomed(order, reason, id);
  }

  lemma StopRecord(w: World, order: seq<nat>, id: nat)
    requires WorldInv(w) && Enumerates(order, w.engine.ids.Keys) && Knows(w.engine, id)
    ensures !Knows(Stop(w.engine, order).engine, id)
  {
    hide WorldInv, FailAll;
    var v := World(w.engine.(accepting := false), w.traces, w.history);
    FlagsKeep(w, v.engine);
    LostRecord(v, Shutdown, order, id);
  }

  lemma ArrivesRecord(e: Engine, input: Input, id: nat)
    requires EngineInv(e) && Knows(e, id) && Knows(Process(e, input).engine, id)
    ensures FlowOf(Process(e, input).engine, id) == After(e, Arrives(input), FlowOf(e, id))
  {
    hide EngineInv, Classify, ProcessTcp, Existing;
    match Classify(input.packet) {
      case Ok(Tcp(s)) => SegmentRecord(e, s, input, id);
      case _ =>
    }
  }

  lemma OpensRecord(e: Engine, at: nat, now: nat, id: nat)
    requires EngineInv(e) && Knows(e, id) && Knows(Opened(e, at, now).engine, id)
    ensures FlowOf(Opened(e, at, now).engine, id) == After(e, StreamOpens(at, now), FlowOf(e, id))
  {
    hide EngineInv, Install;
    KnownFlow(e, id);
    if Knows(e, at) {
      KnownFlow(e, at);
      AppliedHas(e, e, at, StreamOpened(e.config, FlowOf(e, at), now), id);
    }
  }

  lemma TookRecord(e: Engine, at: nat, bytes: nat, now: nat, id: nat)
    requires EngineInv(e) && Knows(e, id) && Knows(AcknowledgeForwarded(e, at, bytes, now).engine, id)
    ensures FlowOf(AcknowledgeForwarded(e, at, bytes, now).engine, id) == After(e, StreamTook(at, bytes, now), FlowOf(e, id))
  {
    hide EngineInv, Install;
    KnownFlow(e, id);
    if Knows(e, at) {
      KnownFlow(e, at);
      AppliedHas(e, e, at, Forwarded(e.config, FlowOf(e, at), bytes, now), id);
    }
  }

  lemma SaysRecord(e: Engine, at: nat, payload: seq<byte>, now: nat, id: nat)
    requires EngineInv(e) && Knows(e, id) && Knows(ProtectedPayload(e, at, payload, now).engine, id)
    ensures FlowOf(ProtectedPayload(e, at, payload, now).engine, id) == After(e, StreamSays(at, payload, now), FlowOf(e, id))
  {
    hide EngineInv, Install, FailFlow, Accepts, StreamPayload;
    KnownFlow(e, id);
    if Knows(e, at) && payload != [] {
      KnownFlow(e, at);
      if Accepts(e.config, FlowOf(e, at), payload) {
        PayloadKeepsName(e.config, FlowOf(e, at), payload, now);
        AppliedHas(e, e, at, StreamPayload(e.config, FlowOf(e, at), payload, now), id);
      } else {
        FailHas(e, at, Backpressure, id);
      }
    }
  }

  lemma EndsRecord(e: Engine, at: nat, now: nat, id: nat)
    requires EngineInv(e) && Knows(e, id) && Knows(ProtectedClosed(e, at, now).engine, id)
    ensures FlowOf(ProtectedClosed(e, at, now).engine, id) == After(e, StreamEnds(at, now), FlowOf(e, id))
  {
    hide EngineInv, Install, FailFlow, Receptive;
    KnownFlow(e, id);
    if Knows(e, at) {
      KnownFlow(e, at);
      if Receptive(FlowOf(e, at)) {
        AppliedHas(e, e, at, StreamClosed(e.config, FlowOf(e, at), now), id);
      } else {
        FailHas(e, at, DownstreamFailure, id);
      }
    }
  }

  /** A flow that is there before and after an event has the record that the event gives it. */
  lemma EventRecord(w: World, ev: Event, id: nat)
    requires WorldInv(w) && Possible(w.engine, ev) && Knows(w.engine, id) && Knows(Step(w.engine, ev).engine, id)
    ensures FlowOf(Step(w.engine, ev).engine, id) == After(w.engine, ev, FlowOf(w.engine, id))
  {
    WorldEngine(w);
    hide WorldInv, EngineInv, Process, Opened, AcknowledgeForwarded, ProtectedPayload, ProtectedClosed, FailFlow,
      CompleteDns, Tick, Resume, FailAll, Stop, After;
    var e := w.engine;
    match ev {
      case Arrives(input) => ArrivesRecord(e, input, id);
      case StreamOpens(at, now) => OpensRecord(e, at, now, id);
      case StreamTook(at, bytes, now) => TookRecord(e, at, bytes, now, id);
      case StreamSays(at, payload, now) => SaysRecord(e, at, payload, now, id);
      case StreamEnds(at, now) => EndsRecord(e, at, now, id);
      case DnsAnswers(query, wire, now) => AnswerRecord(e, query, wire, now, id);
      case Clock(now, order) => ClockRecord(w, now, order, id);
      case Wakes(now, healthy, order) => WakeRecord(w, now, healthy, order, id);
      case PathLost(reason, order) => LostRecord(w, reason, order, id);
      case Stops(order) => StopRecord(w, order, id);
      case StreamFails(at, reason) =>
        FailHas(e, at, reason, id);
        Unmoved(e, ev, FlowOf(e, id));
      case Sleeps(_) =>
        SleepHas(e, ev.now, id);
        Unmoved(e, ev, FlowOf(e, id));
    }
  }

  lemma Unmoved(e: Engine, ev: Event, f: Flow)
    requires ev.StreamFails? || ev.Sleeps?
    ensures After(e, ev, f) == f
  {
  }

  lemma SleepHas(e: Engine, now: nat, id: nat)
    requires Knows(e, id)
    ensures Has(Suspend(e, now), id, FlowOf(e, id))
  {
  }

  // ---------------------------------------------------------------- release of the unacknowledged segment

  /** The segment comes from the application end of the flow. */
  predicate ComesFrom(f: Flow, s: Segment) {
    && s.source == f.key.source.address && s.sourcePort == f.key.source.port
    && s.destination == f.key.destination.address && s.destinationPort == f.key.destination.port
  }

  /** The sequence number behind the last byte of a segment, and behind its FIN. */
  function EndOf(o: Outstanding): nat {
    (o.sequence + |o.payload| + if o.flags.fin then 1 else 0) % WRAP
  }

  /** The event is a segment of the flow, not a SYN, that acknowledges all of what was sent. */
  predicate Acknowledges(f: Flow, o: Outstanding, ev: Event) {
    ev.Arrives? &&
    match Classify(ev.input.packet)
    case Ok(Tcp(s)) =>
      ComesFrom(f, s) && s.flags.ack && !s.flags.syn && s.acknowledgement == EndOf(o)
    case _ => false
  }

  lemma ExistingReleases(c: Config, f: Flow, s: Segment, now: nat, room: nat, firstId: nat)
    requires Sane(c, f) && f.outstanding.Some? && !Existing(c, f, s, now, room, firstId).removed
    ensures Existing(c, f, s, now, room, firstId).flow.outstanding ==
              if s.flags.ack && !s.flags.syn && s.acknowledgement == EndOf(f.outstanding.value) then None else f.outstanding
  {
    hide Existing, TakePayload, TakeQueries, TakeFin;
    if Reaches(f, s) {
      ExistingStages(c, f, s, now, room, firstId);
      StagesKeep(c, Settled(f, s, now), s, room, firstId);
    } else {
      StopsKeep(c, f, s, now, room, firstId);
    }
  }

  /** Payload, queries and FIN leave the unacknowledged segment alone. */
  lemma StagesKeep(c: Config, f: Flow, s: Segment, room: nat, firstId: nat)
    ensures TakeFin(c, TakeQueries(TakePayload(c, f, s), room, firstId), s).flow.outstanding == f.outstanding
  {
    hide Drain;
  }

  lemma StopsKeep(c: Config, f: Flow, s: Segment, now: nat, room: nat, firstId: nat)
    requires Sane(c, f) && f.outstanding.Some? && !Reaches(f, s) && !Existing(c, f, s, now, room, firstId).removed
    ensures Existing(c, f, s, now, room, firstId).flow.outstanding == f.outstanding
    ensures s.flags.ack && !s.flags.syn ==> s.acknowledgement != f.serverNext
  {
    hide TakePayload, TakeQueries, TakeFin;
  }

  /** What an event that the flow survives makes of its unacknowledged segment. */
  ghost predicate Fate(f: Flow, o: Outstanding, ev: Event, after: Option<Outstanding>) {
    match after
    case None => Acknowledges(f, o, ev)
    case Some(p) =>
      && !Acknowledges(f, o, ev)
      && p == o.(sentMs := p.sentMs, retransmissions := p.retransmissions)
      && (p != o ==> ev.Clock? && p.sentMs == ev.now && p.retransmissions == o.retransmissions + 1)
  }

  lemma ArrivesFate(w: World, input: Input, id: nat)
    requires WorldInv(w) && Knows(w.engine, id) && Knows(Step(w.engine, Arrives(input)).engine, id)
    requires FlowOf(w.engine, id).outstanding.Some?
    ensures var f := FlowOf(w.engine, id);
            Fate(f, f.outstanding.value, Arrives(input), After(w.engine, Arrives(input), f).outstanding)
  {
    hide WorldInv, Step, Classify, Existing, Sane, Follows, EndOf;
    LiveFollows(w, id);
    var e, f := w.engine, FlowOf(w.engine, id);
    match Classify(input.packet) {
      case Ok(Tcp(s)) =>
        if KeyOf(s) == f.key {
          SegmentStays(w, input, s, id);
          ExistingReleases(e.config, f, s, input.now, Room(e), e.nextDnsId);
        }
      case _ =>
    }
  }

  lemma OtherFate(e: Engine, ev: Event, f: Flow)
    requires !ev.Arrives? && f.outstanding.Some?
    ensures Fate(f, f.outstanding.value, ev, After(e, ev, f).outstanding)
  {
    hide Framed, Expiry, StreamPayload, StreamClosed;
  }

  /** The unacknowledged segment of a flow that survives an event is released if and only if the event
      acknowledges all of it. Otherwise it is kept, and only the clock counts a repetition. */
  lemma OutstandingFate(c: Config, worlds: seq<World>, events: seq<Event>, i: nat, id: nat)
    requires ValidConfig(c) && Run(c, worlds, events) && i < |events|
    requires Knows(worlds[i].engine, id) && Knows(worlds[i + 1].engine, id)
    requires FlowOf(worlds[i].engine, id).outstanding.Some?
    ensures var f := FlowOf(worlds[i].engine, id); var o := f.outstanding.value;
            match FlowOf(worlds[i + 1].engine, id).outstanding
            case None => Acknowledges(f, o, events[i])
            case Some(p) =>
              && !Acknowledges(f, o, events[i])
              && p == o.(sentMs := p.sentMs, retransmissions := p.retransmissions)
              && (p != o ==> events[i].Clock? && p.sentMs == events[i].now && p.retransmissions == o.retransmissions + 1)
  {
    RunInv(c, worlds, events, i);
    assert worlds[i + 1] == Next(worlds[i], events[i]);
    hide Run, WorldInv, TracesAfter, After, Step, Acknowledges;
    EventRecord(worlds[i], events[i], id);
    match events[i] {
      case Arrives(input) => ArrivesFate(worlds[i], input, id);
      case _ => OtherFate(worlds[i].engine, events[i], FlowOf(worlds[i].engine, id));
    }
  }

  /** A flow that survives a segment of its own was not removed by it. */
  lemma SegmentStays(w: World, input: Input, s: Segment, id: nat)
    requires WorldInv(w) && Knows(w.engine, id) && Classify(input.packet) == Ok(Tcp(s))
    requires Knows(Step(w.engine, Arrives(input)).engine, id) && KeyOf(s) == FlowOf(w.engine, id).key
    ensures var e := w.engine;
            !Existing(e.config, FlowOf(e, id), s, input.now, Room(e), e.nextDnsId).removed && Delivered(e, s, input)
  {
    WorldEngine(w);
    hide WorldInv, Classify, Existing, EngineInv, ProcessTcp;
    var e, f := w.engine, FlowOf(w.engine, id);
    KnownFlow(e, id);
    SegmentRecord(e, s, input, id);
    ExistingSane(e.config, f, s, input.now, Room(e), e.nextDnsId);
    InstallHas(e, f.key, Existing(e.config, f, s, input.now, Room(e), e.nextDnsId), id);
    DeliveredTcp(e, s, input);
  }

  lemma DeliveredTcp(e: Engine, s: Segment, input: Input)
    requires Delivered(e, s, input)
    ensures ProcessTcp(e, s, input) == ExistingTcp(e, KeyOf(s), s, input.now)
  {
    hide ExistingTcp;
  }
}
