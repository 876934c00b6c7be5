/**
 What every event of a run makes the engine do with every flow: whether the flow ends, and everything that is sent,
 asked of its stream and reported for it.
 */
module EngineTable {
  import opened Bytes
  import opened Options
  import opened Checksum
  import opened Packet
  import opened TcpFlow
  import opened TcpFlowTheorems
  import opened DnsStream
  import opened TcpTable
  import opened Engine
  import opened EngineInvariant
  import opened EngineCloses
  import opened EngineWorld
  import opened EngineRuns
  import opened EngineTheorems
  import opened EngineFlows
  import opened EngineTimers

  // ---------------------------------------------------------------- the table

  const NOTHING := Told(false, [])

  function Failed(f: Flow, reason: Reason): Told {
    Told(true, Failing(f, reason))
  }

  /** The application can be sent one more segment. */
  predicate Ready(f: Flow) {
    f.outstanding.None? && (f.state.Established? || f.state.HalfClosedLocal?)
  }

  function Sending(c: Config, f: Flow, fin: bool, payload: seq<byte>): Told {
    Told(false, [Back(f, f.serverNext, f.clientNext, Flags(fin, false, false, !fin, true), c.receiveWindow, payload)])
  }

  /** How many more DNS queries may be pending. */
  function Places(e: Engine): nat {
    if |e.pending| < e.config.maxPendingDns then e.config.maxPendingDns - |e.pending| else 0
  }

  function PacketTold(e: Engine, f: Flow, s: Segment, healthy: bool): Told {
    if !ComesFrom(f, s) then NOTHING
    else if s.flags.syn && (s.flags.fin || s.flags.rst || s.payload != []) then Failed(f, MalformedPacket)
    else if s.flags.rst then Told(true, [CloseBoth(f.id)])
    else if !healthy then Failed(f, ProtectedPathUnavailable)
    else SegmentTold(e.config, f, s, Places(e))
  }

  function EventTold(e: Engine, f: Flow, ev: Event): Told {
    var c := e.config;
    match ev
    case Arrives(input) =>
      (match Classify(input.packet)
       case Ok(Tcp(s)) => PacketTold(e, f, s, input.healthy)
       case _ => NOTHING)
    case StreamOpens(id, _) => if id == f.id && f.state.Connecting? then Told(false, [SynAckFor(c, f)]) else NOTHING
    case StreamTook(id, _, _) =>
      if id == f.id then Told(f.state.Closing? && f.outstanding.None?, [AckFor(c, f, f.clientNext)]) else NOTHING
    case StreamSays(id, payload, _) =>
      if id != f.id || payload == [] then NOTHING
      else if Ready(f) && |payload| <= c.toApplicationBytes then Sending(c, f, false, payload)
      else Failed(f, Backpressure)
    case StreamEnds(id, _) =>
      if id != f.id then NOTHING else if Ready(f) then Sending(c, f, true, []) else Failed(f, DownstreamFailure)
    case StreamFails(id, reason) => if id == f.id then Failed(f, reason) else NOTHING
    case DnsAnswers(query, wire, _) =>
      if query !in e.pending || e.pending[query] != TcpTarget(f.id) then NOTHING
      else if wire == [] || |wire| > 65536 then Failed(f, DownstreamFailure)
      else if Ready(f) && |wire| + 2 <= c.toApplicationBytes then Sending(c, f, false, Bytes16(|wire| % WORD) + wire)
      else Failed(f, Backpressure)
    case Clock(now, _) =>
      if e.suspendedAt.Some? then NOTHING
      else if ConnectingTooLong(c, f, now) then Failed(f, ConnectionTimeout)
      else if IdleTooLong(c, f, now) || RepeatedTooOften(c, f, now) then Failed(f, IdleTimeout)
      else if Overdue(c, f, now) then Told(false, [Diagnostic(Retransmission, Some(f.id)), Again(c, f)])
      else NOTHING
    case Sleeps(_) => NOTHING
    case Wakes(_, healthy, _) => if e.suspendedAt.Some? && !healthy then Failed(f, ProtectedPathUnavailable) else NOTHING
    case PathLost(reason, _) => Failed(f, reason)
    case Stops(_) => Failed(f, Shutdown)
  }

  // ---------------------------------------------------------------- failing

  /** The flow with this number is told so by a call. */
  predicate Tells(e: Engine, r: Done, id: nat, told: Told) {
    (Knows(r.engine, id) <==> !told.gone) && About(r.actions, id) == told.says
  }

  lemma FailingIs(f: Flow, reason: Reason)
    requires f.clientNext < WRAP
    ensures FailActions(f, reason) == Failing(f, reason) && About(Failing(f, reason), f.id) == Failing(f, reason)
    ensures Own(Failing(f, reason), f.id)
  {
    AboutAll(Failing(f, reason), f.id);
  }

  lemma FailTells(e: Engine, at: nat, reason: Reason, id: nat)
    requires EngineInv(e) && Knows(e, id)
    ensures Tells(e, FailFlow(e, at, reason), id, if at == id then Failed(FlowOf(e, id), reason) else NOTHING)
  {
    FailMild(e, at, reason);
    if Knows(e, at) {
      KnownFlow(e, at);
      FailingIs(FlowOf(e, at), reason);
      if at != id {
        OwnElsewhere(Failing(FlowOf(e, at), reason), at, id);
      }
    }
    hide EngineInv, Remove, FailActions, Failing, About, Own;
  }

  lemma FailUnknown(e: Engine, at: nat, reason: Reason, id: nat)
    requires EngineInv(e) && !Knows(e, id)
    ensures About(FailFlow(e, at, reason).actions, id) == []
  {
    if Knows(e, at) {
      KnownFlow(e, at);
      FailingIs(FlowOf(e, at), reason);
      OwnElsewhere(Failing(FlowOf(e, at), reason), at, id);
    }
    hide EngineInv, Remove, FailActions, Failing, Own;
  }

  lemma {:induction false} FailManyUnknown(e: Engine, doomed: seq<(nat, Reason)>, id: nat)
    requires EngineInv(e) && !Knows(e, id)
    ensures !Knows(FailMany(e, doomed).engine, id) && About(FailMany(e, doomed).actions, id) == []
    decreases |doomed|
  {
    hide EngineInv, FailFlow;
    if doomed != [] {
      var first := FailFlow(e, doomed[0].0, doomed[0].1);
      FailMild(e, doomed[0].0, doomed[0].1);
      FailUnknown(e, doomed[0].0, doomed[0].1, id);
      FailManyUnknown(first.engine, doomed[1..], id);
      AboutConcat(first.actions, FailMany(first.engine, doomed[1..]).actions, id);
    }
  }

  /** The first reason on the list for a flow. */
  function FirstReason(doomed: seq<(nat, Reason)>, id: nat): Option<Reason> {
    if doomed == [] then None else if doomed[0].0 == id then Some(doomed[0].1) else FirstReason(doomed[1..], id)
  }

  function Doomed(f: Flow, reason: Option<Reason>): Told {
    if reason.Some? then Failed(f, reason.value) else NOTHING
  }

  lemma {:induction false} FailManyTells(e: Engine, doomed: seq<(nat, Reason)>, id: nat)
    requires EngineInv(e) && Knows(e, id)
    ensures Tells(e, FailMany(e, doomed), id, Doomed(FlowOf(e, id), FirstReason(doomed, id)))
    decreases |doomed|
  {
    hide EngineInv, FailFlow, Failing;
    if doomed != [] {
      var first := FailFlow(e, doomed[0].0, doomed[0].1);
      var rest := FailMany(first.engine, doomed[1..]);
      FailMild(e, doomed[0].0, doomed[0].1);
      FailTells(e, doomed[0].0, doomed[0].1, id);
      AboutConcat(first.actions, rest.actions, id);
      if doomed[0].0 == id {
        FailManyUnknown(first.engine, doomed[1..], id);
        assert Failing(FlowOf(e, id), doomed[0].1) + [] == Failing(FlowOf(e, id), doomed[0].1);
      } else {
        FailManyTells(first.engine, doomed[1..], id);
        assert [] + About(rest.actions, id) == About(rest.actions, id);
      }
    }
  }

  lemma {:induction false} DoomReason(order: seq<nat>, reason: Reason, id: nat)
    requires id in order
    ensures FirstReason(Doom(order, reason), id) == Some(reason)
  {
    if order[0] != id {
      DoomReason(order[1..], reason, id);
      assert Doom(order, reason)[1..] == Doom(order[1..], reason);
    }
  }

  /** A note in front that is about no flow changes nothing. */
  lemma NoteFirst(note: Action, r: Done, id: nat)
    requires Subject(note) == None
    ensures About([note] + r.actions, id) == About(r.actions, id)
  {
    AboutConcat([note], r.actions, id);
    AboutNone([note], id);
  }

  // ---------------------------------------------------------------- one flow changes

  lemma AppliedTells(e: Engine, at: nat, o: Outcome, id: nat)
    requires EngineInv(e) && Knows(e, at) && Knows(e, id) && o.flow.id == at && o.flow.key == e.ids[at] && Own(o.actions, at)
    ensures Tells(e, Applied(e, e.ids[at], o), id, if at == id then Told(o.removed, About(o.actions, id)) else NOTHING)
  {
    hide EngineInv, Install, Own, About;
    KnownFlow(e, at);
    KnownFlow(e, id);
    InstallHas(e, e.ids[at], o, id);
    if at != id {
      OwnElsewhere(o.actions, at, id);
    }
  }

  /** An outcome that keeps the flow and says one thing about it. */
  lemma OneTold(a: Action, id: nat)
    requires Subject(a) == Some(id)
    ensures About([a], id) == [a] && Own([a], id)
  {
    AboutAll([a], id);
  }

  lemma ReplyIs(c: Config, f: Flow)
    requires f.clientNext < WRAP
    ensures SynAckReply(c, f) == SynAckFor(c, f) && AckReply(c, f) == AckFor(c, f, f.clientNext)
    ensures Subject(SynAckFor(c, f)) == Some(f.id) && Subject(AckFor(c, f, f.clientNext)) == Some(f.id)
  {
    RepliesAgree(c, f, 0);
  }

  lemma OpensTells(e: Engine, at: nat, now: nat, id: nat)
    requires EngineInv(e) && Knows(e, id)
    ensures Tells(e, Opened(e, at, now), id, EventTold(e, FlowOf(e, id), StreamOpens(at, now)))
  {
    hide EngineInv, Install, Applied;
    KnownFlow(e, id);
    if Knows(e, at) {
      KnownFlow(e, at);
      var f := FlowOf(e, at);
      var o := StreamOpened(e.config, f, now);
      ReplyIs(e.config, f.(state := SynAckSent, lastActivityMs := now));
      OneTold(SynAckFor(e.config, f), at);
      AboutNone([], at);
      AppliedTells(e, at, o, id);
    } else {
      AboutNone([Diagnostic(UnknownFlow, Some(at))], id);
    }
  }

  lemma TookTells(e: Engine, at: nat, bytes: nat, now: nat, id: nat)
    requires EngineInv(e) && Knows(e, id)
    ensures Tells(e, AcknowledgeForwarded(e, at, bytes, now), id, EventTold(e, FlowOf(e, id), StreamTook(at, bytes, now)))
  {
    hide EngineInv, Install, Applied;
    KnownFlow(e, id);
    if Knows(e, at) {
      KnownFlow(e, at);
      var f := FlowOf(e, at);
      var o := Forwarded(e.config, f, bytes, now);
      ReplyIs(e.config, o.flow);
      OneTold(AckFor(e.config, f, f.clientNext), at);
      AppliedTells(e, at, o, id);
    }
  }

  lemma EmitTells(c: Config, f: Flow, payload: seq<byte>, now: nat, fin: bool)
    requires if fin then payload == [] && Receptive(f) else Accepts(c, f, payload)
    ensures var o := if fin then StreamClosed(c, f, now) else StreamPayload(c, f, payload, now);
            && o.flow.id == f.id && o.flow.key == f.key && Own(o.actions, f.id)
            && Told(o.removed, About(o.actions, f.id)) == Sending(c, f, fin, payload)
  {
    hide Plus;
    OneTold(Back(f, f.serverNext, f.clientNext, Flags(fin, false, false, !fin, true), c.receiveWindow, payload), f.id);
  }

  lemma SaysTells(e: Engine, at: nat, payload: seq<byte>, now: nat, id: nat)
    requires EngineInv(e) && Knows(e, id)
    ensures Tells(e, ProtectedPayload(e, at, payload, now), id, EventTold(e, FlowOf(e, id), StreamSays(at, payload, now)))
  {
    hide EngineInv, Install, Applied, FailFlow, StreamPayload, Failing;
    KnownFlow(e, id);
    if Knows(e, at) {
      KnownFlow(e, at);
      if payload != [] {
        if Accepts(e.config, FlowOf(e, at), payload) {
          EmitTells(e.config, FlowOf(e, at), payload, now, false);
          AppliedTells(e, at, StreamPayload(e.config, FlowOf(e, at), payload, now), id);
        } else {
          FailTells(e, at, Backpressure, id);
        }
      }
    } else {
      AboutNone([Diagnostic(UnknownFlow, Some(at))], id);
    }
  }

  lemma EndsTells(e: Engine, at: nat, now: nat, id: nat)
    requires EngineInv(e) && Knows(e, id)
    ensures Tells(e, ProtectedClosed(e, at, now), id, EventTold(e, FlowOf(e, id), StreamEnds(at, now)))
  {
    hide EngineInv, Install, Applied, FailFlow, StreamClosed, Failing;
    KnownFlow(e, id);
    if Knows(e, at) {
      KnownFlow(e, at);
      if Receptive(FlowOf(e, at)) {
        EmitTells(e.config, FlowOf(e, at), [], now, true);
        AppliedTells(e, at, StreamClosed(e.config, FlowOf(e, at), now), id);
      } else {
        FailTells(e, at, DownstreamFailure, id);
      }
    }
  }

  lemma AnswerTells(e: Engine, query: nat, wire: seq<byte>, now: nat, id: nat)
    requires EngineInv(e) && Knows(e, id)
    ensures Tells(e, CompleteDns(e, query, wire, now), id, EventTold(e, FlowOf(e, id), DnsAnswers(query, wire, now)))
  {
    hide EngineInv, Install, Applied, FailFlow, StreamPayload, Failing, Bytes16;
    KnownFlow(e, id);
    if query in e.pending {
      var e', target := e.(pending := e.pending - {query}), e.pending[query];
      PendingLess(e, query);
      if target.UdpTarget? {
        AboutNone(CompleteDns(e, query, wire, now).actions, id);
      } else {
        var at := target.flow;
        if wire == [] || |wire| > MAX_DNS_MESSAGE_BYTES {
          FailTells(e', at, DownstreamFailure, id);
        } else if Knows(e', at) {
          KnownFlow(e', at);
          if Accepts(e'.config, FlowOf(e', at), Framed(wire)) {
            EmitTells(e'.config, FlowOf(e', at), Framed(wire), now, false);
            AppliedTells(e', at, StreamPayload(e'.config, FlowOf(e', at), Framed(wire), now), id);
          } else {
            FailTells(e', at, Backpressure, id);
          }
        }
      }
    }
  }

  // ---------------------------------------------------------------- packets

  lemma SegmentIs(e: Engine, s: Segment, input: Input, id: nat)
    requires EngineInv(e) && Knows(e, id)
    ensures Tells(e, ProcessTcp(e, s, input), id, PacketTold(e, FlowOf(e, id), s, input.healthy))
  {
    hide EngineInv, FailFlow, Existing, Install, Insert, Remove, InitialSequence, SegmentTold, Failing;
    KnownFlow(e, id);
    var key := KeyOf(s);
    if key in e.flows {
      Listed(e, key);
      var at := e.flows[key].id;
      if s.flags.syn && (s.flags.fin || s.flags.rst || s.payload != []) {
        FailTells(e, at, MalformedPacket, id);
      } else if s.flags.rst {
        RemoveKnows(e, at);
        AboutCloses(at, id);
      } else if !input.healthy {
        FailTells(e, at, ProtectedPathUnavailable, id);
      } else {
        var o := Existing(e.config, e.flows[key], s, input.now, Room(e), e.nextDnsId);
        ExistingSane(e.config, e.flows[key], s, input.now, Room(e), e.nextDnsId);
        SegmentOwn(e.config, e.flows[key], s, input.now, Room(e), e.nextDnsId);
        AppliedTells(e, at, o, id);
        SegmentTells(e.config, e.flows[key], s, input.now, Room(e), e.nextDnsId);
      }
    } else {
      UnknownIs(e, s, input, id);
    }
  }

  lemma AboutCloses(at: nat, id: nat)
    ensures About([CloseBoth(at)], id) == if at == id then [CloseBoth(at)] else []
  {
    if at == id {
      AboutAll([CloseBoth(at)], id);
    } else {
      AboutNone([CloseBoth(at)], id);
    }
  }

  /** A segment without a flow says nothing about any. */
  lemma UnknownIs(e: Engine, s: Segment, input: Input, id: nat)
    requires EngineInv(e) && Knows(e, id) && KeyOf(s) !in e.flows
    ensures Tells(e, ProcessTcp(e, s, input), id, NOTHING)
  {
    hide Sane, TargetsOk, AllSane, InitialSequence, TablesOk;
    assert id in e.ids.Keys && id != e.nextFlowId;
    AboutNone(ProcessTcp(e, s, input).actions, id);
    if s.destinationPort == 53 {
      InsertHas(e, NewFlow(e, KeyOf(s), s, input.now, true), id);
    } else {
      InsertHas(e, NewFlow(e, KeyOf(s), s, input.now, false), id);
    }
    hide EngineInv, Insert;
  }

  lemma ArrivesTells(e: Engine, input: Input, id: nat)
    requires EngineInv(e) && Knows(e, id)
    ensures Tells(e, Process(e, input), id, EventTold(e, FlowOf(e, id), Arrives(input)))
  {
    hide EngineInv, Classify, ProcessTcp, PacketTold;
    match Classify(input.packet) {
      case Ok(Tcp(s)) => SegmentIs(e, s, input, id);
      case _ => AboutNone(Process(e, input).actions, id);
    }
  }

  // ---------------------------------------------------------------- the clock

  lemma {:induction false} RepeatsAbout(c: Config, flows: map<Key, Flow>, order: seq<Key>, now: nat, id: nat, key: Key)
    requires (forall k :: k in order ==> k in flows) && (forall i, j :: 0 <= i < j < |order| ==> order[i] != order[j])
    requires forall k :: k in order ==> (flows[k].id == id <==> k == key)
    ensures About(Retransmissions(c, flows, order, now), id) == if key in order then About(TickActions(c, flows[key], now), id) else []
  {
    hide TickActions;
    if order != [] {
      var k := order[0];
      assert k in order;
      RepeatsAbout(c, flows, order[1..], now, id, key);
      AboutConcat(TickActions(c, flows[k], now), Retransmissions(c, flows, order[1..], now), id);
      TickOwn(c, flows[k], now);
      assert forall x :: x in order <==> x == k || x in order[1..];
      if k == key {
        assert key !in order[1..];
      } else {
        OwnElsewhere(TickActions(c, flows[k], now), flows[k].id, id);
      }
    }
  }

  lemma TickOwn(c: Config, f: Flow, now: nat)
    ensures Own(TickActions(c, f, now), f.id)
  {
    hide Expiry;
  }

  lemma TickAbout(c: Config, f: Flow, now: nat)
    requires ValidConfig(c)
    ensures About(TickActions(c, f, now), f.id)
         == if Expiry(c, f, now).None? && Overdue(c, f, now) then [Diagnostic(Retransmission, Some(f.id)), Again(c, f)] else []
  {
    hide Expiry;
    if f.outstanding.Some? {
      AboutAll([Diagnostic(Retransmission, Some(f.id)), Again(c, f)], f.id);
    }
  }

  lemma {:induction false} ReasonIs(doomed: seq<(nat, Reason)>, id: nat, expiry: Option<Reason>)
    requires forall i :: 0 <= i < |doomed| && doomed[i].0 == id ==> expiry == Some(doomed[i].1)
    requires expiry.Some? <==> exists i :: 0 <= i < |doomed| && doomed[i].0 == id
    ensures FirstReason(doomed, id) == expiry
  {
    if doomed != [] && doomed[0].0 != id {
      var rest := doomed[1..];
      forall i | 0 <= i < |rest| && rest[i].0 == id ensures expiry == Some(rest[i].1) {
        assert doomed[i + 1] == rest[i];
      }
      if expiry.Some? {
        var i :| 0 <= i < |doomed| && doomed[i].0 == id;
        assert rest[i - 1].0 == id;
      }
      ReasonIs(rest, id, expiry);
    }
  }

  /** An awake engine: first what is repeated, then the end of the flows whose time is up. */
  lemma AwakeTells(w: World, now: nat, order: seq<Key>, id: nat)
    requires WorldInv(w) && Enumerates(order, w.engine.flows.Keys) && Knows(w.engine, id) && w.engine.suspendedAt.None?
    ensures var e := w.engine; var f := FlowOf(e, id); var doomed := Doomed(f, Expiry(e.config, f, now));
            Tells(e, Tick(e, now, order), id, Told(doomed.gone, About(TickActions(e.config, f, now), id) + doomed.says))
  {
    hide WorldInv, FailMany, AllTicked, Expired, Retransmissions, Expiry, TickActions, Failing, About, Knows, FlowOf, Ticked;
    var e, f := w.engine, FlowOf(w.engine, id);
    var e', doomed := AllTicked(e, now), Expired(e.config, e.flows, order, now);
    WorldEngine(w);
    TickedKeeps(w, now);
    WorldEngine(World(e', w.traces, w.history));
    TickedHas(e, now, id);
    DoomedOnce(e, now, order, id);
    ReasonIs(doomed, id, Expiry(e.config, f, now));
    FailManyTells(e', doomed, id);
    TickedSame(e.config, f, now, Expiry(e.config, f, now));
    OwnRepeats(e, now, order, id);
    AboutConcat(Retransmissions(e.config, e.flows, order, now), FailMany(e', doomed).actions, id);
  }

  lemma ClockRow(e: Engine, f: Flow, now: nat, order: seq<Key>)
    requires ValidConfig(e.config) && e.suspendedAt.None?
    ensures var doomed := Doomed(f, Expiry(e.config, f, now));
            EventTold(e, f, Clock(now, order))
            == Told(doomed.gone, About(TickActions(e.config, f, now), f.id) + doomed.says)
  {
    hide Expiry, TickActions, Failing, ConnectingTooLong, IdleTooLong, RepeatedTooOften, Overdue, About, Again;
    ExpiryMeans(e.config, f, now);
    TickAbout(e.config, f, now);
    assert [] + Failing(f, ConnectionTimeout) == Failing(f, ConnectionTimeout);
    assert [] + Failing(f, IdleTimeout) == Failing(f, IdleTimeout);
    assert About(TickActions(e.config, f, now), f.id) + [] == About(TickActions(e.config, f, now), f.id);
  }

  lemma ClockTells(w: World, now: nat, order: seq<Key>, id: nat)
    requires WorldInv(w) && Enumerates(order, w.engine.flows.Keys) && Knows(w.engine, id) && ValidConfig(w.engine.config)
    ensures Tells(w.engine, Tick(w.engine, now, order), id, EventTold(w.engine, FlowOf(w.engine, id), Clock(now, order)))
  {
    var e := w.engine;
    if e.suspendedAt.None? {
      hide WorldInv, Tick, EventTold, Tells, Expiry, TickActions, About, Doomed, Knows, FlowOf;
      WorldEngine(w);
      KnownFlow(e, id);
      AwakeTells(w, now, order, id);
      ClockRow(e, FlowOf(e, id), now, order);
    } else {
      AsleepTells(e, now, order, id);
    }
  }

  lemma AsleepTells(e: Engine, now: nat, order: seq<Key>, id: nat)
    requires e.suspendedAt.Some? && Knows(e, id) && forall k :: k in order ==> k in e.flows
    ensures Tells(e, Tick(e, now, order), id, EventTold(e, FlowOf(e, id), Clock(now, order)))
  {
    hide Failing, Again;
  }

  lemma OwnRepeats(e: Engine, now: nat, order: seq<Key>, id: nat)
    requires EngineInv(e) && Enumerates(order, e.flows.Keys) && Knows(e, id)
    ensures About(Retransmissions(e.config, e.flows, order, now), id) == About(TickActions(e.config, FlowOf(e, id), now), id)
  {
    hide EngineInv, Retransmissions, TickActions;
    forall k | k in order ensures e.flows[k].id == id <==> k == e.ids[id] {
      OwnKey(e, k, id);
    }
    RepeatsAbout(e.config, e.flows, order, now, id, e.ids[id]);
  }

  lemma TickedSame(c: Config, f: Flow, now: nat, reason: Option<Reason>)
    ensures Doomed(Ticked(c, f, now), reason) == Doomed(f, reason)
  {
    hide Expiry;
  }

  // ---------------------------------------------------------------- sleeping and stopping

  lemma WakeTells(w: World, now: nat, healthy: bool, order: seq<nat>, id: nat)
    requires WorldInv(w) && Enumerates(order, w.engine.ids.Keys) && Knows(w.engine, id)
    ensures Tells(w.engine, Resume(w.engine, now, healthy, order), id,
                  EventTold(w.engine, FlowOf(w.engine, id), Wakes(now, healthy, order)))
  {
    hide WorldInv, FailMany, Failing, Slept, About;
    var e := w.engine;
    if e.suspendedAt.Some? && !healthy {
      var e' := e.(suspendedAt := None);
      FlagsKeep(w, e');
      WorldEngine(World(e', w.traces, w.history));
      FailManyTells(e', Doom(order, ProtectedPathUnavailable), id);
      DoomReason(order, ProtectedPathUnavailable, id);
      NoteFirst(Diagnostic(ResumePathInvalid, None), FailMany(e', Doom(order, ProtectedPathUnavailable)), id);
    } else {
      AboutNone([], id);
    }
  }

  lemma LostTells(w: World, reason: Reason, order: seq<nat>, id: nat)
    requires WorldInv(w) && Enumerates(order, w.engine.ids.Keys) && Knows(w.engine, id)
    ensures Tells(w.engine, FailAll(w.engine, reason, order), id, Failed(FlowOf(w.engine, id), reason))
  {
    hide WorldInv, FailMany, Failing;
    var e := w.engine.(pending := map[]);
    PendingDropped(w, map[]);
    WorldEngine(World(e, w.traces, w.history));
    FailManyTells(e, Doom(order, reason), id);
    DoomReason(order, reason, id);
  }

  lemma StopTells(w: World, order: seq<nat>, id: nat)
    requires WorldInv(w) && Enumerates(order, w.engine.ids.Keys) && Knows(w.engine, id)
    ensures Tells(w.engine, Stop(w.engine, order), id, Failed(FlowOf(w.engine, id), Shutdown))
  {
    hide WorldInv, FailAll, Failing;
    var v := World(w.engine.(accepting := false), w.traces, w.history);
    FlagsKeep(w, v.engine);
    LostTells(v, Shutdown, order, id);
    NoteFirst(Diagnostic(ShuttingDown, None), FailAll(v.engine, Shutdown, order), id);
  }

  // ---------------------------------------------------------------- the theorem

  predicate FromOutside(ev: Event) {
    ev.Clock? || ev.Sleeps? || ev.Wakes? || ev.PathLost? || ev.Stops?
  }

  lemma FlowStepTells(e: Engine, ev: Event, id: nat)
    requires EngineInv(e) && Possible(e, ev) && Knows(e, id) && !FromOutside(ev)
    ensures Tells(e, Step(e, ev), id, EventTold(e, FlowOf(e, id), ev))
  {
    hide EngineInv, Process, Opened, AcknowledgeForwarded, ProtectedPayload, ProtectedClosed, FailFlow, CompleteDns, Tells,
      EventTold, FlowOf, Knows;
    match ev {
      case Arrives(input) => ArrivesTells(e, input, id);
      case StreamOpens(at, now) => OpensTells(e, at, now, id);
      case StreamTook(at, bytes, now) => TookTells(e, at, bytes, now, id);
      case StreamSays(at, payload, now) => SaysTells(e, at, payload, now, id);
      case StreamEnds(at, now) => EndsTells(e, at, now, id);
      case StreamFails(at, reason) => FailsTells(e, at, reason, id);
      case DnsAnswers(query, wire, now) => AnswerTells(e, query, wire, now, id);
    }
  }

  lemma OutsideStepTells(w: World, ev: Event, id: nat)
    requires WorldInv(w) && Possible(w.engine, ev) && Knows(w.engine, id) && ValidConfig(w.engine.config) && FromOutside(ev)
    ensures Tells(w.engine, Step(w.engine, ev), id, EventTold(w.engine, FlowOf(w.engine, id), ev))
  {
    hide WorldInv, Tick, Resume, FailAll, Stop, Suspend, Enumerates, Tells, EventTold, FlowOf, Knows;
    PlainRows(w.engine, FlowOf(w.engine, id), ev);
    match ev {
      case Clock(now, order) => ClockTells(w, now, order, id);
      case Sleeps(now) => SleepTells(w.engine, now, id);
      case Wakes(now, healthy, order) => WakeTells(w, now, healthy, order, id);
      case PathLost(reason, order) => LostTells(w, reason, order, id);
      case Stops(order) => StopTells(w, order, id);
    }
  }

  lemma StepTells(w: World, ev: Event, id: nat)
    requires WorldInv(w) && Possible(w.engine, ev) && Knows(w.engine, id) && ValidConfig(w.engine.config)
    ensures Tells(w.engine, Step(w.engine, ev), id, EventTold(w.engine, FlowOf(w.engine, id), ev))
  {
    hide WorldInv, EngineInv, Step, Possible, Tells, EventTold, FlowOf, Knows;
    if FromOutside(ev) {
      OutsideStepTells(w, ev, id);
    } else {
      WorldEngine(w);
      FlowStepTells(w.engine, ev, id);
    }
  }

  lemma PlainRows(e: Engine, f: Flow, ev: Event)
    ensures ev.Sleeps? ==> EventTold(e, f, ev) == NOTHING
    ensures ev.PathLost? ==> EventTold(e, f, ev) == Failed(f, ev.reason)
    ensures ev.Stops? ==> EventTold(e, f, ev) == Failed(f, Shutdown)
  {
    hide Failing;
  }

  lemma FailsTells(e: Engine, at: nat, reason: Reason, id: nat)
    requires EngineInv(e) && Knows(e, id)
    ensures Tells(e, FailFlow(e, at, reason), id, EventTold(e, FlowOf(e, id), StreamFails(at, reason)))
  {
    hide EngineInv, FailFlow, Failing, Tells;
    KnownFlow(e, id);
    FailTells(e, at, reason, id);
  }

  lemma SleepTells(e: Engine, now: nat, id: nat)
    requires Knows(e, id)
    ensures Tells(e, Done(Suspend(e, now), []), id, NOTHING)
  {
  }

  /** In every run and for every flow: an event ends it, and makes the engine send, ask and report for it, exactly as
      the table says. */
  lemma EventExact(c: Config, worlds: seq<World>, events: seq<Event>, i: nat, id: nat)
    requires ValidConfig(c) && Run(c, worlds, events) && i < |events| && Knows(worlds[i].engine, id)
    ensures var e := worlds[i].engine; var told := EventTold(e, FlowOf(e, id), events[i]);
            && (Knows(worlds[i + 1].engine, id) <==> !told.gone)
            && About(Step(e, events[i]).actions, id) == told.says
  {
    RunInv(c, worlds, events, i);
    ConfigStays(c, worlds, events, i);
    assert worlds[i + 1] == Next(worlds[i], events[i]);
    hide Run, WorldInv, TracesAfter, Step, EventTold, FlowOf, Knows;
    StepTells(worlds[i], events[i], id);
  }

  // ---------------------------------------------------------------- the record that is left

  /** A segment has been sent and is kept until it is acknowledged. */
  predicate Keeps(f: Flow, g: Flow, fin: bool, payload: seq<byte>, now: nat) {
    && g.outstanding == Some(Outstanding(f.serverNext, f.clientNext, Flags(fin, false, false, !fin, true), payload, now, 0))
    && g.serverNext == (f.serverNext + |payload| + if fin then 1 else 0) % WRAP
    && g.clientNext == f.clientNext && g.queuedToGateway == f.queuedToGateway && g.buffer == f.buffer
    && g.state == (if !fin then f.state else if f.state.HalfClosedLocal? then Closing else HalfClosedRemote)
  }

  /** The parts of a record that a stream or the application changes are as they were. */
  predicate Unchanged(f: Flow, g: Flow) {
    && g.state == f.state && g.clientNext == f.clientNext && g.serverNext == f.serverNext
    && g.queuedToGateway == f.queuedToGateway && g.buffer == f.buffer
    && (f.outstanding.None? ==> g.outstanding.None?)
  }

  predicate EventLeft(e: Engine, f: Flow, ev: Event, g: Flow) {
    match ev
    case Arrives(input) =>
      (match Classify(input.packet)
       case Ok(Tcp(s)) => if ComesFrom(f, s) then Left(e.config, f, s, g) else Unchanged(f, g)
       case _ => Unchanged(f, g))
    case StreamOpens(id, _) =>
      if id == f.id && f.state.Connecting? then Unchanged(f.(state := SynAckSent), g) else Unchanged(f, g)
    case StreamTook(id, bytes, _) =>
      if id == f.id then Unchanged(f.(queuedToGateway := if bytes <= f.queuedToGateway then f.queuedToGateway - bytes else 0), g)
      else Unchanged(f, g)
    case StreamSays(id, payload, now) =>
      if id == f.id && payload != [] then Keeps(f, g, false, payload, now) else Unchanged(f, g)
    case StreamEnds(id, now) => if id == f.id then Keeps(f, g, true, [], now) else Unchanged(f, g)
    case DnsAnswers(query, wire, now) =>
      if query in e.pending && e.pending[query] == TcpTarget(f.id) then Keeps(f, g, false, Bytes16(|wire| % WORD) + wire, now)
      else Unchanged(f, g)
    case _ => Unchanged(f, g)
  }

  lemma EmitKeepsIt(c: Config, f: Flow, payload: seq<byte>, now: nat)
    ensures Accepts(c, f, payload) ==> Keeps(f, StreamPayload(c, f, payload, now).flow, false, payload, now)
    ensures Receptive(f) ==> Keeps(f, StreamClosed(c, f, now).flow, true, [], now)
  {
  }

  lemma StreamLeft(w: World, ev: Event, id: nat)
    requires WorldInv(w) && Possible(w.engine, ev) && Knows(w.engine, id) && Knows(Step(w.engine, ev).engine, id)
    requires ev.StreamSays? || ev.StreamEnds? || ev.DnsAnswers?
    ensures EventLeft(w.engine, FlowOf(w.engine, id), ev, After(w.engine, ev, FlowOf(w.engine, id)))
  {
    hide WorldInv, EngineInv, ProtectedPayload, ProtectedClosed, CompleteDns, Accepts, Receptive, StreamPayload, StreamClosed,
      Keeps, Bytes16, Classify, Existing, Left;
    WorldEngine(w);
    KnownFlow(w.engine, id);
    var e, f := w.engine, FlowOf(w.engine, id);
    match ev {
      case StreamSays(at, payload, now) =>
        if at == id && payload != [] {
          SaysAlive(e, id, payload, now);
          EmitKeepsIt(e.config, f, payload, now);
        }
      case StreamEnds(at, now) =>
        if at == id {
          EndsAlive(e, id, now);
          EmitKeepsIt(e.config, f, [], now);
        }
      case DnsAnswers(query, wire, now) =>
        if query in e.pending && e.pending[query] == TcpTarget(id) {
          AnswerAlive(e, query, wire, now, id);
          EmitKeepsIt(e.config, f, Framed(wire), now);
        }
    }
  }

  lemma ArrivesLeft(w: World, input: Input, id: nat)
    requires WorldInv(w) && Knows(w.engine, id) && Knows(Step(w.engine, Arrives(input)).engine, id)
    ensures EventLeft(w.engine, FlowOf(w.engine, id), Arrives(input), After(w.engine, Arrives(input), FlowOf(w.engine, id)))
  {
    hide WorldInv, EngineInv, Classify, Existing, Left, Step;
    WorldEngine(w);
    KnownFlow(w.engine, id);
    var e, f := w.engine, FlowOf(w.engine, id);
    match Classify(input.packet) {
      case Ok(Tcp(s)) =>
        if KeyOf(s) == f.key {
          SegmentStays(w, input, s, id);
          SegmentLeaves(e.config, f, s, input.now, Room(e), e.nextDnsId);
        }
      case _ =>
    }
  }

  lemma OthersLeft(e: Engine, ev: Event, f: Flow)
    requires !ev.Arrives? && !ev.StreamSays? && !ev.StreamEnds? && !ev.DnsAnswers?
    ensures EventLeft(e, f, ev, After(e, ev, f))
  {
    hide Expiry, Left;
  }

  /** In every run the record of a flow that survives an event is left as described: its state, its places in both
      streams, what it holds, and the segment that waits for an acknowledgement. */
  lemma RecordExact(c: Config, worlds: seq<World>, events: seq<Event>, i: nat, id: nat)
    requires ValidConfig(c) && Run(c, worlds, events) && i < |events|
    requires Knows(worlds[i].engine, id) && Knows(worlds[i + 1].engine, id)
    ensures EventLeft(worlds[i].engine, FlowOf(worlds[i].engine, id), events[i], FlowOf(worlds[i + 1].engine, id))
  {
    RunInv(c, worlds, events, i);
    assert worlds[i + 1] == Next(worlds[i], events[i]);
    hide Run, WorldInv, TracesAfter, Step, After, EventLeft;
    var w, ev := worlds[i], events[i];
    EventRecord(w, ev, id);
    match ev {
      case Arrives(input) => ArrivesLeft(w, input, id);
      case StreamSays(_, _, _) => StreamLeft(w, ev, id);
      case StreamEnds(_, _) => StreamLeft(w, ev, id);
      case DnsAnswers(_, _, _) => StreamLeft(w, ev, id);
      case _ => OthersLeft(w.engine, ev, FlowOf(w.engine, id));
    }
  }

  // ---------------------------------------------------------------- the switches of the engine

  /** The engine stops accepting when it is stopped, sleeps from the first call that says so, and wakes up when told. */
  lemma SwitchesExact(c: Config, worlds: seq<World>, events: seq<Event>, i: nat)
    requires ValidConfig(c) && Run(c, worlds, events) && i < |events|
    ensures worlds[0].engine.accepting && worlds[0].engine.suspendedAt.None?
    ensures var e, e' := worlds[i].engine, worlds[i + 1].engine;
            && e'.accepting == (e.accepting && !events[i].Stops?)
            && e'.suspendedAt == (if events[i].Wakes? then None
                                  else if events[i].Sleeps? && e.suspendedAt.None? then Some(events[i].now)
                                  else e.suspendedAt)
  {
    assert worlds[i + 1] == Next(worlds[i], events[i]);
    hide Run, TracesAfter;
    StepSwitches(worlds[i].engine, events[i]);
  }

  predicate SameSwitches(e: Engine, e': Engine) {
    e'.accepting == e.accepting && e'.suspendedAt == e.suspendedAt
  }

  lemma FailSwitches(e: Engine, id: nat, reason: Reason)
    ensures SameSwitches(e, FailFlow(e, id, reason).engine)
  {
  }

  lemma {:induction false} FailManySwitches(e: Engine, doomed: seq<(nat, Reason)>)
    ensures SameSwitches(e, FailMany(e, doomed).engine)
    decreases |doomed|
  {
    hide FailFlow;
    if doomed != [] {
      FailSwitches(e, doomed[0].0, doomed[0].1);
      FailManySwitches(FailFlow(e, doomed[0].0, doomed[0].1).engine, doomed[1..]);
    }
  }

  lemma InstallSwitches(e: Engine, key: Key, o: Outcome)
    ensures SameSwitches(e, Install(e, key, o))
  {
  }

  lemma PacketSwitches(e: Engine, input: Input)
    ensures SameSwitches(e, Process(e, input).engine)
  {
    hide Classify, FailFlow, Install, Existing, InitialSequence;
    match Classify(input.packet) {
      case Ok(Tcp(s)) =>
        var key := KeyOf(s);
        if key in e.flows {
          FailSwitches(e, e.flows[key].id, MalformedPacket);
          FailSwitches(e, e.flows[key].id, ProtectedPathUnavailable);
          InstallSwitches(e, key, Existing(e.config, e.flows[key], s, input.now, Room(e), e.nextDnsId));
        }
      case _ =>
    }
  }

  lemma StreamSwitches(e: Engine, ev: Event)
    requires Possible(e, ev)
    requires ev.StreamOpens? || ev.StreamTook? || ev.StreamSays? || ev.StreamEnds? || ev.StreamFails? || ev.DnsAnswers?
    ensures SameSwitches(e, Step(e, ev).engine)
  {
    hide FailFlow, Accepts, Receptive, Asked, Orphaned;
    var e' := if ev.DnsAnswers? then e.(pending := e.pending - {ev.query}) else e;
    forall id: nat, reason: Reason { FailSwitches(e', id, reason); }
  }

  lemma StepSwitches(e: Engine, ev: Event)
    requires Possible(e, ev)
    ensures var e' := Step(e, ev).engine;
            && e'.accepting == (e.accepting && !ev.Stops?)
            && e'.suspendedAt == (if ev.Wakes? then None
                                  else if ev.Sleeps? && e.suspendedAt.None? then Some(ev.now) else e.suspendedAt)
  {
    hide Process, FailMany, Expired, Retransmissions, Opened, AcknowledgeForwarded, ProtectedPayload, ProtectedClosed, FailFlow,
      CompleteDns;
    match ev {
      case Arrives(input) => PacketSwitches(e, input);
      case Clock(now, order) => FailManySwitches(AllTicked(e, now), Expired(e.config, e.flows, order, now));
      case Wakes(_, _, order) => FailManySwitches(e.(suspendedAt := None), Doom(order, ProtectedPathUnavailable));
      case PathLost(reason, order) => FailManySwitches(e.(pending := map[]), Doom(order, reason));
      case Stops(order) => FailManySwitches(e.(accepting := false, pending := map[]), Doom(order, Shutdown));
      case Sleeps(_) =>
      case _ => StreamSwitches(e, ev);
    }
  }

  // ---------------------------------------------------------------- packets that belong to no flow

  /** What becomes of a packet that is not TCP. */
  function OtherPacketTold(e: Engine, input: Input): seq<Action> {
    match Classify(input.packet)
    case Err(_) => [BlockFlow(None, MalformedPacket), Diagnostic(BadPacket, None)]
    case Ok(Ipv6) => [BlockFlow(None, Ipv6Blocked)]
    case Ok(Icmp(_, _, _, _)) => [BlockFlow(None, IcmpUnsupported)]
    case Ok(Other(_)) => [BlockFlow(None, UnsupportedTransport)]
    case Ok(Tcp(_)) => []
    case Ok(Udp(d)) =>
      if d.destinationPort == 53 then
        if !e.accepting then [BlockFlow(None, Shutdown)]
        else if !input.healthy then [BlockFlow(None, ProtectedPathUnavailable)]
        else if d.payload == [] || Places(e) == 0 then [BlockFlow(None, Backpressure)]
        else [ResolveDns(e.nextDnsId, d.payload,
                         UdpTarget(Endpoint(d.source, d.sourcePort), Endpoint(d.destination, d.destinationPort)))]
      else if d.destinationPort == 443 then [BlockFlow(None, QuicBlocked)]
      else [BlockFlow(None, UdpBlocked)]
  }

  lemma DatagramShort(packet: seq<byte>, d: Datagram)
    requires Classify(packet) == Ok(Udp(d))
    ensures |d.payload| < 65536
  {
    hide ChecksumOf, ParseTcp, TransportChecksum;
  }

  /** The engine after a packet that is not TCP: a query that is asked takes a place and an identifier. */
  function OtherPacketLeft(e: Engine, told: seq<Action>): Engine {
    if |told| == 1 && told[0].ResolveDns? then
      e.(pending := e.pending[e.nextDnsId := told[0].target], nextDnsId := e.nextDnsId + 1)
    else e
  }

  lemma DatagramTold(e: Engine, input: Input, d: Datagram)
    requires Classify(input.packet) == Ok(Udp(d)) && |d.payload| < 65536
    ensures var told := OtherPacketTold(e, input);
            Process(e, input) == Done(OtherPacketLeft(e, told), told)
  {
    hide Classify, ProcessTcp;
  }

  lemma OtherTold(e: Engine, input: Input)
    requires Classify(input.packet).Err? || !Classify(input.packet).value.Tcp?
    ensures var told := OtherPacketTold(e, input);
            Process(e, input) == Done(OtherPacketLeft(e, told), told)
  {
    hide Classify, ProcessTcp, ProcessUdp;
    match Classify(input.packet) {
      case Ok(Udp(d)) =>
        DatagramShort(input.packet, d);
        DatagramTold(e, input, d);
      case _ =>
    }
  }

  /** A packet that is not TCP is blocked with its reason and changes nothing, except a DNS query for which there is a
      place, which is asked once and waits for its answer. */
  lemma OtherPacketExact(c: Config, worlds: seq<World>, events: seq<Event>, i: nat)
    requires ValidConfig(c) && Run(c, worlds, events) && i < |events| && events[i].Arrives?
    requires Classify(events[i].input.packet).Err? || !Classify(events[i].input.packet).value.Tcp?
    ensures var e, e' := worlds[i].engine, worlds[i + 1].engine; var told := OtherPacketTold(e, events[i].input);
            Step(e, events[i]).actions == told && e' == OtherPacketLeft(e, told)
  {
    assert worlds[i + 1] == Next(worlds[i], events[i]);
    hide Run, TracesAfter, Classify, Process, OtherPacketTold, OtherPacketLeft;
    OtherTold(worlds[i].engine, events[i].input);
  }
}
