/**
 The clock and the packet engine: which flows a tick ends and which segments it repeats, what counts as
 activity of a flow, and that the time slept does not count.
 */
module EngineTimers {
  import opened Bytes
  import opened Options
  import opened Packet
  import opened TcpFlow
  import opened TcpFlowTheorems
  import opened Engine
  import opened EngineInvariant
  import opened EngineCloses
  import opened EngineWorld
  import opened EngineRuns
  import opened EngineTheorems
  import opened EngineFlows

  // ---------------------------------------------------------------- which flows a tick ends

  /** When the handshake of a flow began. */
  function Began(f: Flow): nat {
    if f.connectStartedMs.Some? then f.connectStartedMs.value else f.createdMs
  }

  predicate ConnectingTooLong(c: Config, f: Flow, now: nat) {
    (f.state.Connecting? || f.state.SynAckSent?) && now >= Began(f) + c.connectionTimeout
  }

  predicate IdleTooLong(c: Config, f: Flow, now: nat) {
    now >= f.lastActivityMs + c.idleTimeout
  }

  /** The unacknowledged segment has waited for one interval since it was last sent. */
  predicate Overdue(c: Config, f: Flow, now: nat) {
    f.outstanding.Some? && now >= f.outstanding.value.sentMs + c.retransmitInterval
  }

  predicate RepeatedTooOften(c: Config, f: Flow, now: nat) {
    Overdue(c, f, now) && f.outstanding.value.retransmissions >= c.maxRetransmissions
  }

  lemma ExpiryMeans(c: Config, f: Flow, now: nat)
    requires ValidConfig(c)
    ensures Expiry(c, f, now) ==
              if ConnectingTooLong(c, f, now) then Some(ConnectionTimeout)
              else if IdleTooLong(c, f, now) || RepeatedTooOften(c, f, now) then Some(IdleTimeout)
              else None
  {
  }

  /** The flows that a tick ends are exactly the expired ones. */
  lemma {:induction false} ExpiredHas(c: Config, flows: map<Key, Flow>, order: seq<Key>, now: nat, id: nat, reason: Reason)
    requires forall k :: k in order ==> k in flows
    ensures (id, reason) in Expired(c, flows, order, now) <==>
              exists k :: k in order && flows[k].id == id && Expiry(c, flows[k], now) == Some(reason)
  {
    hide Expiry;
    if order != [] {
      ExpiredHas(c, flows, order[1..], now, id, reason);
      assert forall k :: k in order <==> k == order[0] || k in order[1..];
      var f := flows[order[0]];
      var first := if Expiry(c, f, now).Some? then [(f.id, Expiry(c, f, now).value)] else [];
      assert Expired(c, flows, order, now) == first + Expired(c, flows, order[1..], now);
    }
  }

  lemma OwnKey(e: Engine, k: Key, id: nat)
    requires EngineInv(e) && k in e.flows && Knows(e, id)
    ensures e.flows[k].id == id <==> k == e.ids[id]
  {
    hide Sane, TargetsOk, AllSane, Below;
  }

  lemma DoomedIff(e: Engine, now: nat, order: seq<Key>, id: nat, reason: Reason)
    requires EngineInv(e) && Enumerates(order, e.flows.Keys) && Knows(e, id)
    ensures (id, reason) in Expired(e.config, e.flows, order, now) <==> Expiry(e.config, FlowOf(e, id), now) == Some(reason)
  {
    hide Expiry, Expired, EngineInv;
    ExpiredHas(e.config, e.flows, order, now, id, reason);
    forall k | k in order ensures e.flows[k].id == id <==> k == e.ids[id] {
      OwnKey(e, k, id);
    }
    assert e.ids[id] in order;
  }

  /** A flow that is failed is reported with its reason. */
  lemma {:induction false} FailManySays(e: Engine, doomed: seq<(nat, Reason)>, id: nat)
    requires EngineInv(e) && Knows(e, id) && exists i :: 0 <= i < |doomed| && doomed[i].0 == id
    requires forall i, j :: 0 <= i < |doomed| && 0 <= j < |doomed| && doomed[i].0 == doomed[j].0 == id ==> doomed[i] == doomed[j]
    ensures forall i :: 0 <= i < |doomed| && doomed[i].0 == id ==>
              var actions := FailMany(e, doomed).actions;
              BlockFlow(Some(id), doomed[i].1) in actions && CloseBoth(id) in actions
    decreases |doomed|
  {
    hide EngineInv, FailFlow;
    var first := FailFlow(e, doomed[0].0, doomed[0].1);
    if doomed[0].0 == id {
      FailSaysWhy(e, id, doomed[0].1);
    } else {
      FailMild(e, doomed[0].0, doomed[0].1);
      FailManySays(first.engine, doomed[1..], id);
      forall i | 0 <= i < |doomed| && doomed[i].0 == id
        ensures BlockFlow(Some(id), doomed[i].1) in FailMany(e, doomed).actions && CloseBoth(id) in FailMany(e, doomed).actions
      {
        assert doomed[1..][i - 1] == doomed[i];
      }
    }
  }

  lemma FailSaysWhy(e: Engine, id: nat, reason: Reason)
    requires EngineInv(e) && Knows(e, id)
    ensures var actions := FailFlow(e, id, reason).actions;
            BlockFlow(Some(id), reason) in actions && CloseBoth(id) in actions
  {
    KnownFlow(e, id);
    hide EngineInv;
    var actions := FailFlow(e, id, reason).actions;
    assert actions[1] == BlockFlow(Some(id), reason) && actions[2] == CloseBoth(id);
  }

  /** A tick ends a flow if and only if the engine is awake and the flow has been connecting too long, idle too
      long, or repeated too often; the report says which. */
  lemma TickEnds(c: Config, worlds: seq<World>, events: seq<Event>, i: nat, id: nat)
    requires ValidConfig(c) && Run(c, worlds, events) && i < |events| && events[i].Clock?
    requires Knows(worlds[i].engine, id)
    ensures var e := worlds[i].engine; var f := FlowOf(e, id); var now := events[i].now;
            var actions := Step(e, events[i]).actions;
            && (!Knows(worlds[i + 1].engine, id) <==>
                  && e.suspendedAt.None?
                  && (ConnectingTooLong(c, f, now) || IdleTooLong(c, f, now) || RepeatedTooOften(c, f, now)))
            && (!Knows(worlds[i + 1].engine, id) ==>
                  && CloseBoth(id) in actions
                  && BlockFlow(Some(id), if ConnectingTooLong(c, f, now) then ConnectionTimeout else IdleTimeout) in actions)
  {
    RunInv(c, worlds, events, i);
    ConfigStays(c, worlds, events, i);
    assert worlds[i + 1] == Next(worlds[i], events[i]);
    hide Run, WorldInv, TracesAfter, Tick, ConnectingTooLong, IdleTooLong, RepeatedTooOften, Enumerates;
    TickEndsOne(worlds[i], events[i].now, events[i].order, id);
  }

  lemma TickEndsOne(w: World, now: nat, order: seq<Key>, id: nat)
    requires WorldInv(w) && Enumerates(order, w.engine.flows.Keys) && Knows(w.engine, id) && ValidConfig(w.engine.config)
    ensures var e := w.engine; var f := FlowOf(e, id); var c := e.config; var r := Tick(e, now, order);
            && (!Knows(r.engine, id) <==>
                  && e.suspendedAt.None?
                  && (ConnectingTooLong(c, f, now) || IdleTooLong(c, f, now) || RepeatedTooOften(c, f, now)))
            && (!Knows(r.engine, id) ==>
                  && CloseBoth(id) in r.actions
                  && BlockFlow(Some(id), if ConnectingTooLong(c, f, now) then ConnectionTimeout else IdleTimeout) in r.actions)
  {
    hide WorldInv, FailMany, AllTicked, Expired, Retransmissions, Expiry, ConnectingTooLong, IdleTooLong, RepeatedTooOften;
    var e := w.engine;
    if e.suspendedAt.None? {
      var f, e' := FlowOf(e, id), AllTicked(e, now);
      var doomed := Expired(e.config, e.flows, order, now);
      ExpiryMeans(e.config, f, now);
      WorldEngine(w);
      TickedKeeps(w, now);
      WorldEngine(World(e', w.traces, w.history));
      TickedHas(e, now, id);
      hide Knows, FlowOf;
      DoomedOnce(e, now, order, id);
      FailManyHas(e', doomed, id);
      if Expiry(e.config, f, now).Some? {
        FailManySays(e', doomed, id);
      }
    }
  }

  /** An expired flow is on the list, and only with its own reason. */
  lemma DoomedOnce(e: Engine, now: nat, order: seq<Key>, id: nat)
    requires EngineInv(e) && Enumerates(order, e.flows.Keys) && Knows(e, id)
    ensures var doomed := Expired(e.config, e.flows, order, now); var expiry := Expiry(e.config, FlowOf(e, id), now);
            && (forall i :: 0 <= i < |doomed| && doomed[i].0 == id ==> expiry == Some(doomed[i].1))
            && (expiry.Some? <==> exists i :: 0 <= i < |doomed| && doomed[i].0 == id)
  {
    hide Expiry, Expired, EngineInv, Knows, FlowOf;
    var doomed, expiry := Expired(e.config, e.flows, order, now), Expiry(e.config, FlowOf(e, id), now);
    forall i | 0 <= i < |doomed| && doomed[i].0 == id ensures expiry == Some(doomed[i].1) {
      assert (id, doomed[i].1) in doomed;
      DoomedIff(e, now, order, id, doomed[i].1);
    }
    if expiry.Some? {
      DoomedIff(e, now, order, id, expiry.value);
      var i :| 0 <= i < |doomed| && doomed[i] == (id, expiry.value);
      assert doomed[i].0 == id;
    }
  }

  // ---------------------------------------------------------------- which segments a tick repeats

  lemma {:induction false} RetransmissionsHas(c: Config, flows: map<Key, Flow>, order: seq<Key>, now: nat, a: Action)
    requires forall k :: k in order ==> k in flows
    ensures a in Retransmissions(c, flows, order, now) <==> exists k :: k in order && a in TickActions(c, flows[k], now)
  {
    hide TickActions;
    if order != [] {
      RetransmissionsHas(c, flows, order[1..], now, a);
      assert forall k :: k in order <==> k == order[0] || k in order[1..];
    }
  }

  lemma {:induction false} FailManySends(e: Engine, doomed: seq<(nat, Reason)>, a: Action)
    requires EngineInv(e) && a in FailMany(e, doomed).actions && a.SendTcp?
    ensures exists i :: 0 <= i < |doomed| && a.origin == Some(doomed[i].0)
    decreases |doomed|
  {
    hide EngineInv, FailFlow;
    if doomed != [] {
      var first := FailFlow(e, doomed[0].0, doomed[0].1);
      if a in first.actions {
        FailSends(e, doomed[0].0, doomed[0].1, a);
      } else {
        FailMild(e, doomed[0].0, doomed[0].1);
        FailManySends(first.engine, doomed[1..], a);
        var i :| 0 <= i < |doomed[1..]| && a.origin == Some(doomed[1..][i].0);
        assert a.origin == Some(doomed[i + 1].0);
      }
    }
  }

  lemma FailSends(e: Engine, id: nat, reason: Reason, a: Action)
    requires EngineInv(e) && a in FailFlow(e, id, reason).actions && a.SendTcp?
    ensures a.origin == Some(id)
  {
    if Knows(e, id) {
      KnownFlow(e, id);
      hide EngineInv;
    }
  }

  /** The segment of a flow as it is sent again, from the protected end to the application. */
  function Again(c: Config, f: Flow): Action
    requires f.outstanding.Some?
  {
    var o, k := f.outstanding.value, f.key;
    SendTcp(Some(f.id), Segment(k.destination.address, k.source.address, k.destination.port, k.source.port,
                                o.sequence, o.acknowledgement, c.receiveWindow, o.flags, o.payload))
  }

  lemma TickActionsMean(c: Config, f: Flow, now: nat, a: Action)
    requires ValidConfig(c)
    ensures a in TickActions(c, f, now) && a.SendTcp? <==> Expiry(c, f, now).None? && Overdue(c, f, now) && a == Again(c, f)
    ensures Ticked(c, f, now) == if Expiry(c, f, now).None? && Overdue(c, f, now)
                                 then f.(outstanding := Some(f.outstanding.value.(
                                        retransmissions := f.outstanding.value.retransmissions + 1, sentMs := now)))
                                 else f
  {
    hide Expiry;
  }

  lemma RepeatsHas(e: Engine, now: nat, order: seq<Key>, id: nat, a: Action)
    requires EngineInv(e) && Enumerates(order, e.flows.Keys) && Knows(e, id) && ValidConfig(e.config)
    requires Expiry(e.config, FlowOf(e, id), now).None? && a.SendTcp? && a.origin == Some(id)
    ensures var f := FlowOf(e, id); var c := e.config;
            a in Retransmissions(c, e.flows, order, now) <==> Overdue(c, f, now) && a == Again(c, f)
  {
    hide EngineInv, Retransmissions, Expiry, TickActions;
    var f, c := FlowOf(e, id), e.config;
    RetransmissionsHas(c, e.flows, order, now, a);
    forall k | k in order
      ensures a in TickActions(c, e.flows[k], now) <==> k == e.ids[id] && Overdue(c, f, now) && a == Again(c, f)
    {
      TickActionsMean(c, e.flows[k], now, a);
      OwnKey(e, k, id);
    }
    assert e.ids[id] in order;
  }

  lemma TickSends(w: World, now: nat, order: seq<Key>, id: nat, a: Action)
    requires WorldInv(w) && Enumerates(order, w.engine.flows.Keys) && Knows(w.engine, id) && ValidConfig(w.engine.config)
    requires Knows(Tick(w.engine, now, order).engine, id) && a.SendTcp? && a.origin == Some(id)
    ensures var e := w.engine; var f := FlowOf(e, id); var c := e.config;
            a in Tick(e, now, order).actions <==> e.suspendedAt.None? && Overdue(c, f, now) && a == Again(c, f)
  {
    hide WorldInv, FailMany, AllTicked, Expired, Retransmissions, Expiry, Overdue, Again;
    var e := w.engine;
    if e.suspendedAt.None? {
      var e', doomed := AllTicked(e, now), Expired(e.config, e.flows, order, now);
      WorldEngine(w);
      TickedKeeps(w, now);
      WorldEngine(World(e', w.traces, w.history));
      TickedHas(e, now, id);
      hide Knows, FlowOf, Has;
      DoomedOnce(e, now, order, id);
      FailManyHas(e', doomed, id);
      RepeatsHas(e, now, order, id, a);
      if a in FailMany(e', doomed).actions {
        FailManySends(e', doomed, a);
      }
    }
  }

  /** For a flow that survives a tick: a segment is sent if and only if the engine is awake and the unacknowledged
      one is overdue. It is sent as it was, and counted; otherwise the record stays as it is. */
  lemma TickRepeats(c: Config, worlds: seq<World>, events: seq<Event>, i: nat, id: nat, a: Action)
    requires ValidConfig(c) && Run(c, worlds, events) && i < |events| && events[i].Clock?
    requires Knows(worlds[i].engine, id) && Knows(worlds[i + 1].engine, id) && a.SendTcp? && a.origin == Some(id)
    ensures var e := worlds[i].engine; var f := FlowOf(e, id); var now := events[i].now;
            var due := e.suspendedAt.None? && Overdue(c, f, now);
            && (a in Step(e, events[i]).actions <==> due && a == Again(c, f))
            && FlowOf(worlds[i + 1].engine, id)
               == if due then f.(outstanding := Some(f.outstanding.value.(
                                retransmissions := f.outstanding.value.retransmissions + 1, sentMs := now)))
                  else f
  {
    RunInv(c, worlds, events, i);
    ConfigStays(c, worlds, events, i);
    assert worlds[i + 1] == Next(worlds[i], events[i]);
    hide Run, WorldInv, TracesAfter, Tick, Enumerates, Overdue, Ticked, Again;
    var w, now, order := worlds[i], events[i].now, events[i].order;
    TickSends(w, now, order, id, a);
    EventRecord(w, events[i], id);
    TickEndsOne(w, now, order, id);
    ExpiryMeans(c, FlowOf(w.engine, id), now);
    TickActionsMean(c, FlowOf(w.engine, id), now, a);
  }

  // ---------------------------------------------------------------- what counts as activity

  /** The event concerns the flow, and when. */
  predicate Concerns(e: Engine, f: Flow, ev: Event) {
    match ev
    case Arrives(input) =>
      (match Classify(input.packet)
       case Ok(Tcp(s)) => ComesFrom(f, s)
       case _ => false)
    case StreamOpens(id, _) => id == f.id && f.state.Connecting?
    case StreamTook(id, _, _) => id == f.id
    case StreamSays(id, payload, _) => id == f.id && payload != []
    case StreamEnds(id, _) => id == f.id
    case DnsAnswers(query, _, _) => query in e.pending && e.pending[query] == TcpTarget(f.id)
    case _ => false
  }

  function Instant(ev: Event): nat {
    match ev
    case Arrives(input) => input.now
    case StreamOpens(_, now) => now
    case StreamTook(_, _, now) => now
    case StreamSays(_, _, now) => now
    case StreamEnds(_, now) => now
    case DnsAnswers(_, _, now) => now
    case Clock(now, _) => now
    case Sleeps(now) => now
    case Wakes(now, _, _) => now
    case _ => 0
  }

  function Later(t: nat, slept: nat): nat {
    if t + slept < 0x1_0000_0000_0000_0000 then t + slept else 0xFFFF_FFFF_FFFF_FFFF
  }

  /** Every event that concerns a flow restarts its idle time, and no other; waking up postpones its deadlines by
      the time slept, up to the last 64-bit instant. */
  lemma ActivityExact(c: Config, worlds: seq<World>, events: seq<Event>, i: nat, id: nat)
    requires ValidConfig(c) && Run(c, worlds, events) && i < |events|
    requires Knows(worlds[i].engine, id) && Knows(worlds[i + 1].engine, id)
    ensures var e := worlds[i].engine; var f, g := FlowOf(e, id), FlowOf(worlds[i + 1].engine, id);
            if events[i].Wakes? && e.suspendedAt.Some? then
              var slept := if events[i].now >= e.suspendedAt.value then events[i].now - e.suspendedAt.value else 0;
              && g.lastActivityMs == Later(f.lastActivityMs, slept) && g.createdMs == Later(f.createdMs, slept)
              && Began(g) == Later(Began(f), slept) && g.state == f.state && g.outstanding == f.outstanding
            else
              && g.lastActivityMs == (if Concerns(e, f, events[i]) then Instant(events[i]) else f.lastActivityMs)
              && g.createdMs == f.createdMs && (g.state.Connecting? || g.state.SynAckSent? ==> Began(g) == Began(f))
  {
    RunInv(c, worlds, events, i);
    assert worlds[i + 1] == Next(worlds[i], events[i]);
    hide Run, WorldInv, TracesAfter, After, Process, Opened, AcknowledgeForwarded, ProtectedPayload, ProtectedClosed,
      FailFlow, CompleteDns, Tick, Resume, FailAll, Stop, Concerns, Later, Began, Instant;
    var w, ev := worlds[i], events[i];
    EventRecord(w, ev, id);
    LiveFollows(w, id);
    match ev {
      case Arrives(input) => ArrivesActivity(w, input, id);
      case DnsAnswers(query, wire, now) => AnswerActivity(w, query, wire, now, id);
      case StreamSays(at, payload, now) => SaysActivity(w, at, payload, now, id);
      case StreamEnds(at, now) => EndsActivity(w, at, now, id);
      case _ => OtherActivity(w.engine, ev, FlowOf(w.engine, id));
    }
  }

  predicate Active(e: Engine, f: Flow, ev: Event, g: Flow) {
    && g.lastActivityMs == (if Concerns(e, f, ev) then Instant(ev) else f.lastActivityMs)
    && g.createdMs == f.createdMs && (g.state.Connecting? || g.state.SynAckSent? ==> Began(g) == Began(f))
  }

  lemma ExistingActivity(c: Config, f: Flow, s: Segment, now: nat, room: nat, firstId: nat)
    ensures var g := Existing(c, f, s, now, room, firstId).flow;
            && g.lastActivityMs == now && g.createdMs == f.createdMs
            && (g.state.Connecting? || g.state.SynAckSent? ==> g.connectStartedMs == f.connectStartedMs)
  {
    hide Existing, TakePayload, TakeQueries, TakeFin;
    if Reaches(f, s) {
      ExistingStages(c, f, s, now, room, firstId);
      StagesActivity(c, Settled(f, s, now), s, room, firstId);
    } else {
      ExistingStops(c, f, s, now, room, firstId);
    }
  }

  lemma StagesActivity(c: Config, f: Flow, s: Segment, room: nat, firstId: nat)
    ensures var g := TakeFin(c, TakeQueries(TakePayload(c, f, s), room, firstId), s).flow;
            && g.lastActivityMs == f.lastActivityMs && g.createdMs == f.createdMs && g.connectStartedMs == f.connectStartedMs
            && (g.state == f.state || g.state.Closing? || g.state.HalfClosedLocal?)
  {
    hide Drain, Plus, AckReply;
  }

  lemma ArrivesActivity(w: World, input: Input, id: nat)
    requires WorldInv(w) && Knows(w.engine, id)
    ensures var f := FlowOf(w.engine, id); Active(w.engine, f, Arrives(input), After(w.engine, Arrives(input), f))
  {
    hide WorldInv, Classify, Existing;
    var e, f := w.engine, FlowOf(w.engine, id);
    match Classify(input.packet) {
      case Ok(Tcp(s)) =>
        if KeyOf(s) == f.key {
          ExistingActivity(e.config, f, s, input.now, Room(e), e.nextDnsId);
        }
      case _ =>
    }
  }

  /** A flow that survives bytes or the end of its stream, or an answer, was ready for them. */
  lemma SaysAlive(e: Engine, id: nat, payload: seq<byte>, now: nat)
    requires EngineInv(e) && Knows(e, id) && payload != [] && Knows(ProtectedPayload(e, id, payload, now).engine, id)
    ensures Accepts(e.config, FlowOf(e, id), payload)
  {
    hide EngineInv, FailFlow, Accepts;
    FailMild(e, id, Backpressure);
  }

  lemma EndsAlive(e: Engine, id: nat, now: nat)
    requires EngineInv(e) && Knows(e, id) && Knows(ProtectedClosed(e, id, now).engine, id)
    ensures Receptive(FlowOf(e, id))
  {
    hide EngineInv, FailFlow, Receptive;
    FailMild(e, id, DownstreamFailure);
  }

  lemma AnswerAlive(e: Engine, query: nat, wire: seq<byte>, now: nat, id: nat)
    requires EngineInv(e) && Knows(e, id) && query in e.pending && e.pending[query] == TcpTarget(id)
    requires Knows(CompleteDns(e, query, wire, now).engine, id)
    ensures Accepts(e.config, FlowOf(e, id), Framed(wire))
  {
    hide EngineInv, FailFlow, Accepts, Framed, Applied;
    var e' := e.(pending := e.pending - {query});
    PendingLess(e, query);
    FailMild(e', id, DownstreamFailure);
    FailMild(e', id, Backpressure);
  }

  /** A new segment is activity and leaves the beginning of the flow alone. */
  lemma EmitActivity(c: Config, f: Flow, flags: Flags, payload: seq<byte>, now: nat)
    ensures var g := Emit(c, f, flags, payload, now).flow;
            && g.lastActivityMs == now && g.createdMs == f.createdMs && g.state == f.state
            && g.connectStartedMs == f.connectStartedMs
  {
    hide Plus;
  }

  lemma SaysFlow(e: Engine, f: Flow, at: nat, payload: seq<byte>, now: nat)
    requires at == f.id && payload != [] ==> Accepts(e.config, f, payload)
    ensures Active(e, f, StreamSays(at, payload, now), After(e, StreamSays(at, payload, now), f))
  {
    hide Accepts, Emit;
    EmitActivity(e.config, f.(queuedToApplication := |payload|), PSH_ACK, payload, now);
  }

  lemma EndsFlow(e: Engine, f: Flow, at: nat, now: nat)
    requires at == f.id ==> Receptive(f)
    ensures Active(e, f, StreamEnds(at, now), After(e, StreamEnds(at, now), f))
  {
    hide Emit;
    EmitActivity(e.config, f.(state := if f.state.HalfClosedLocal? then Closing else HalfClosedRemote), FIN_ACK, [], now);
  }

  lemma AnswerFlow(e: Engine, f: Flow, query: nat, wire: seq<byte>, now: nat)
    requires query in e.pending && e.pending[query] == TcpTarget(f.id) ==> Accepts(e.config, f, Framed(wire))
    ensures Active(e, f, DnsAnswers(query, wire, now), After(e, DnsAnswers(query, wire, now), f))
  {
    hide Accepts, Emit, Framed;
    EmitActivity(e.config, f.(queuedToApplication := |Framed(wire)|), PSH_ACK, Framed(wire), now);
  }

  lemma AnswerActivity(w: World, query: nat, wire: seq<byte>, now: nat, id: nat)
    requires WorldInv(w) && Knows(w.engine, id) && Knows(CompleteDns(w.engine, query, wire, now).engine, id)
    ensures var f := FlowOf(w.engine, id); var ev := DnsAnswers(query, wire, now);
            Active(w.engine, f, ev, After(w.engine, ev, f))
  {
    hide WorldInv, EngineInv, CompleteDns, Framed, Accepts, After, Active, FlowOf, Knows;
    WorldEngine(w);
    KnownFlow(w.engine, id);
    if query in w.engine.pending && w.engine.pending[query] == TcpTarget(id) {
      AnswerAlive(w.engine, query, wire, now, id);
    }
    AnswerFlow(w.engine, FlowOf(w.engine, id), query, wire, now);
  }

  lemma SaysActivity(w: World, at: nat, payload: seq<byte>, now: nat, id: nat)
    requires WorldInv(w) && Knows(w.engine, id) && Knows(ProtectedPayload(w.engine, at, payload, now).engine, id)
    ensures var f := FlowOf(w.engine, id); var ev := StreamSays(at, payload, now);
            Active(w.engine, f, ev, After(w.engine, ev, f))
  {
    hide WorldInv, EngineInv, ProtectedPayload, Accepts, After, Active, FlowOf, Knows;
    WorldEngine(w);
    KnownFlow(w.engine, id);
    if at == id && payload != [] {
      SaysAlive(w.engine, id, payload, now);
    }
    SaysFlow(w.engine, FlowOf(w.engine, id), at, payload, now);
  }

  lemma EndsActivity(w: World, at: nat, now: nat, id: nat)
    requires WorldInv(w) && Knows(w.engine, id) && Knows(ProtectedClosed(w.engine, at, now).engine, id)
    ensures var f := FlowOf(w.engine, id); Active(w.engine, f, StreamEnds(at, now), After(w.engine, StreamEnds(at, now), f))
  {
    hide WorldInv, EngineInv, ProtectedClosed, Receptive, After, Active, FlowOf, Knows;
    WorldEngine(w);
    KnownFlow(w.engine, id);
    if at == id {
      EndsAlive(w.engine, id, now);
    }
    EndsFlow(w.engine, FlowOf(w.engine, id), at, now);
  }

  lemma OtherActivity(e: Engine, ev: Event, f: Flow)
    requires !ev.Arrives? && !ev.DnsAnswers? && !ev.StreamSays? && !ev.StreamEnds?
    ensures var g := After(e, ev, f);
            if ev.Wakes? && e.suspendedAt.Some? then
              var slept := if ev.now >= e.suspendedAt.value then ev.now - e.suspendedAt.value else 0;
              && g.lastActivityMs == Later(f.lastActivityMs, slept) && g.createdMs == Later(f.createdMs, slept)
              && Began(g) == Later(Began(f), slept) && g.state == f.state && g.outstanding == f.outstanding
            else Active(e, f, ev, g)
  {
  }
}
