/** The packet engine as an object whose tables change in place, proved against the engine functions. */
module PacketProcessor {
  import opened Bytes
  import opened Options
  import opened Packet
  import opened TcpFlow
  import opened TcpFlowTheorems
  import opened Engine
  import opened EngineInvariant

  lemma AskedNothing(pending: map<nat, DnsTarget>, firstId: nat, id: nat)
    ensures Asked(pending, firstId, 0, id) == pending
  {
  }

  lemma AskedOneMore(pending: map<nat, DnsTarget>, firstId: nat, count: nat, id: nat)
    ensures Asked(pending, firstId, count, id)[firstId + count := TcpTarget(id)] == Asked(pending, firstId, count + 1, id)
  {
  }

  lemma ResolvesOneMore(queries: seq<seq<byte>>, wire: seq<byte>, firstId: nat, id: nat)
    ensures Resolves(queries + [wire], firstId, id)
         == Resolves(queries, firstId, id) + [ResolveDns(firstId + |queries|, wire, TcpTarget(id))]
  {
  }

  /** Draining goes on after one message. */
  lemma DrainOneMore(buffer: seq<byte>, room: nat, queries: seq<seq<byte>>, rest: seq<byte>, length: nat)
    requires |queries| < room && |rest| >= 2 && length == Be16(rest[0], rest[1]) && 0 < length <= MAX_DNS_MESSAGE_BYTES
    requires |rest| >= length + 2
    requires DrainedSoFar(buffer, room, queries, rest)
    ensures DrainedSoFar(buffer, room, queries + [rest[2..length + 2]], rest[length + 2..])
  {
    var wire, d := rest[2..length + 2], Drain(rest[length + 2..], room - |queries| - 1);
    assert queries + ([wire] + d.queries) == (queries + [wire]) + d.queries;
  }

  ghost predicate DrainedSoFar(buffer: seq<byte>, room: nat, queries: seq<seq<byte>>, rest: seq<byte>) {
    && |queries| <= room
    && var d := Drain(rest, room - |queries|); Drain(buffer, room) == Drained(queries + d.queries, d.rest, d.stop)
  }

  /** What stops the draining. */
  function StopAt(rest: seq<byte>, full: bool): Option<Ending> {
    if |rest| < 2 then Some(Waiting)
    else
      var length := Be16(rest[0], rest[1]);
      if length == 0 || length > MAX_DNS_MESSAGE_BYTES then Some(Malformed)
      else if |rest| < length + 2 then Some(Waiting)
      else if full then Some(Full)
      else None
  }

  lemma DrainStops(buffer: seq<byte>, room: nat, queries: seq<seq<byte>>, rest: seq<byte>)
    requires DrainedSoFar(buffer, room, queries, rest) && StopAt(rest, |queries| == room).Some?
    ensures Drain(buffer, room) == Drained(queries, rest, StopAt(rest, |queries| == room).value)
  {
  }

  lemma NothingDrained(buffer: seq<byte>, room: nat, firstId: nat, id: nat)
    ensures DrainedSoFar(buffer, room, [], buffer) && Resolves([], firstId, id) == []
  {
  }

  lemma FailManyStep(e: Engine, doomed: seq<(nat, Reason)>, i: nat)
    requires i < |doomed|
    ensures var first := FailFlow(e, doomed[i].0, doomed[i].1); var rest := FailMany(first.engine, doomed[i + 1..]);
            FailMany(e, doomed[i..]) == Done(rest.engine, first.actions + rest.actions)
  {
    assert doomed[i..][1..] == doomed[i + 1..];
  }

  function Prepared(f: Flow, state: FlowState, flags: Flags, payload: seq<byte>): Flow {
    var f := f.(state := state);
    if flags.fin then f else f.(queuedToApplication := |payload|)
  }

  function Doomed(c: Config, f: Flow, now: nat): seq<(nat, Reason)> {
    if Expiry(c, f, now).Some? then [(f.id, Expiry(c, f, now).value)] else []
  }

  class Processor {
    const config: Config
    var flows: map<Key, Flow>
    var ids: map<nat, Key>
    var pendingDns: map<nat, DnsTarget>
    var nextFlowId: nat
    var nextDnsId: nat
    var accepting: bool
    var suspendedAt: Option<nat>

    ghost function View(): Engine
      reads this
    {
      Engine(config, flows, ids, pendingDns, nextFlowId, nextDnsId, accepting, suspendedAt)
    }

    /** Pending queries carry identifiers already given out. */
    ghost predicate Valid()
      reads this
    {
      Below(pendingDns.Keys, nextDnsId)
    }

    constructor (config: Config)
      ensures Valid() && View() == Fresh(config)
    {
      this.config := config;
      flows, ids, pendingDns := map[], map[], map[];
      nextFlowId, nextDnsId := 1, 1;
      accepting, suspendedAt := true, None;
    }

    static method Create(config: Config) returns (r: Option<Processor>)
      ensures r.Some? <==> ValidConfig(config)
      ensures r.Some? ==> fresh(r.value) && r.value.Valid() && r.value.View() == Fresh(config)
    {
      if !ValidConfig(config) {
        return None;
      }
      var processor := new Processor(config);
      r := Some(processor);
    }

    // ---------------------------------------------------------------- tables

    method InsertFlow(flow: Flow)
      requires Valid()
      modifies this`flows, this`ids
      ensures Valid()
      ensures View() == Insert(old(View()), flow)
    {
      ids := ids[flow.id := flow.key];
      flows := flows[flow.key := flow];
    }

    method RemoveFlow(key: Key)
      requires Valid()
      modifies this`flows, this`ids, this`pendingDns
      ensures Valid()
      ensures View() == Remove(old(View()), key)
    {
      if key in flows {
        var id := flows[key].id;
        flows := flows - {key};
        ids := ids - {id};
        pendingDns := map q | q in pendingDns && pendingDns[q] != TcpTarget(id) :: pendingDns[q];
      }
    }

    method FailOne(id: nat, reason: Reason) returns (actions: seq<Action>)
      requires Valid()
      modifies this`flows, this`ids, this`pendingDns
      ensures Valid()
      ensures Done(View(), actions) == FailFlow(old(View()), id, reason)
    {
      if id !in ids || ids[id] !in flows {
        return [];
      }
      var key := ids[id];
      var flow := flows[key];
      RemoveFlow(key);
      actions := [Reply(flow, flow.serverNext, flow.clientNext, RST_ACK, 0, []),
                  BlockFlow(Some(flow.id), reason), CloseBoth(flow.id)];
    }

    method FailEach(doomed: seq<(nat, Reason)>) returns (actions: seq<Action>)
      requires Valid()
      modifies this`flows, this`ids, this`pendingDns
      ensures Valid()
      ensures Done(View(), actions) == FailMany(old(View()), doomed)
    {
      actions := [];
      var i := 0;
      while i < |doomed|
        invariant 0 <= i <= |doomed| && Valid()
        invariant FailMany(old(View()), doomed)
               == Done(FailMany(View(), doomed[i..]).engine, actions + FailMany(View(), doomed[i..]).actions)
      {
        ghost var before := View();
        FailManyStep(before, doomed, i);
        var more := FailOne(doomed[i].0, doomed[i].1);
        ghost var rest := FailMany(View(), doomed[i + 1..]);
        assert actions + (more + rest.actions) == (actions + more) + rest.actions;
        actions := actions + more;
        i := i + 1;
      }
      assert doomed[i..] == [];
    }

    // ---------------------------------------------------------------- packets

    method ProcessPacket(input: Input) returns (actions: seq<Action>)
      requires Valid()
      modifies this
      ensures Valid()
      ensures Done(View(), actions) == Process(old(View()), input)
    {
      match Classify(input.packet) {
        case Err(_) => actions := [BlockFlow(None, MalformedPacket), Diagnostic(BadPacket, None)];
        case Ok(Ipv6) => actions := [BlockFlow(None, Ipv6Blocked)];
        case Ok(Udp(datagram)) => actions := ProcessDatagram(datagram, input.healthy);
        case Ok(Tcp(segment)) => actions := ProcessSegment(segment, input);
        case Ok(Icmp(_, _, _, _)) => actions := [BlockFlow(None, IcmpUnsupported)];
        case Ok(Other(_)) => actions := [BlockFlow(None, UnsupportedTransport)];
      }
    }

    method ProcessDatagram(d: Datagram, healthy: bool) returns (actions: seq<Action>)
      requires Valid()
      modifies this`pendingDns, this`nextDnsId
      ensures Valid()
      ensures Done(View(), actions) == ProcessUdp(old(View()), d, healthy)
    {
      if d.destinationPort == 53 {
        if !accepting {
          return [BlockFlow(None, Shutdown)];
        }
        if !healthy {
          return [BlockFlow(None, ProtectedPathUnavailable)];
        }
        if |d.payload| == 0 || |d.payload| > MAX_DNS_MESSAGE_BYTES || |pendingDns| >= config.maxPendingDns {
          return [BlockFlow(None, Backpressure)];
        }
        var query := nextDnsId;
        nextDnsId := nextDnsId + 1;
        var target := UdpTarget(Endpoint(d.source, d.sourcePort), Endpoint(d.destination, d.destinationPort));
        pendingDns := pendingDns[query := target];
        return [ResolveDns(query, d.payload, target)];
      }
      actions := [BlockFlow(None, if d.destinationPort == 443 then QuicBlocked else UdpBlocked)];
    }

    method Reject(s: Segment, reason: Reason) returns (actions: seq<Action>)
      ensures Done(View(), actions) == RejectSyn(View(), s, reason)
    {
      var reply := SendTcp(None, Segment(s.destination, s.source, s.destinationPort, s.sourcePort,
                                         0, Plus(s.sequence, 1), 0, RST_ACK, []));
      actions := [BlockFlow(None, reason)];
      actions := [reply] + actions;
    }

    method ProcessSegment(s: Segment, input: Input) returns (actions: seq<Action>)
      requires Valid()
      modifies this
      ensures Valid()
      ensures Done(View(), actions) == ProcessTcp(old(View()), s, input)
    {
      hide FailFlow, Remove, OpenDnsTcp, OpenTcp, ExistingTcp;
      var key := KeyOf(s);
      if s.flags.syn && (s.flags.fin || s.flags.rst || |s.payload| != 0) {
        if key in flows {
          actions := FailOne(flows[key].id, MalformedPacket);
        } else {
          actions := Reject(s, MalformedPacket);
        }
      } else if s.flags.rst {
        if key !in flows {
          return [];
        }
        var id := flows[key].id;
        RemoveFlow(key);
        actions := [CloseBoth(id)];
      } else if key !in flows {
        if !s.flags.syn || s.flags.ack {
          return [Diagnostic(UnknownFlow, None)];
        }
        if s.destinationPort == 53 {
          actions := OpenDns(key, s, input);
        } else {
          actions := OpenFlow(key, s, input);
        }
      } else if !input.healthy {
        actions := FailOne(flows[key].id, ProtectedPathUnavailable);
      } else {
        actions := ProcessExisting(key, s, input.now);
      }
    }

    method OpenDns(key: Key, s: Segment, input: Input) returns (actions: seq<Action>)
      requires Valid()
      modifies this`flows, this`ids, this`nextFlowId
      ensures Valid()
      ensures Done(View(), actions) == OpenDnsTcp(old(View()), key, s, input)
    {
      hide InitialSequence;
      if !accepting {
        actions := Reject(s, Shutdown);
      } else if !input.healthy {
        actions := Reject(s, ProtectedPathUnavailable);
      } else if |flows| >= config.maxFlows {
        actions := Reject(s, Backpressure);
      } else {
        var id := nextFlowId;
        nextFlowId := nextFlowId + 1;
        var initial := InitialSequence(id);
        var flow := Flow(id, key, input.now, input.now, None, SynAckSent, 0, 0,
                         Plus(s.sequence, 1), Plus(initial, 1), true, [], None);
        InsertFlow(flow);
        actions := [Reply(flow, initial, flow.clientNext, SYN_ACK, config.receiveWindow, [])];
      }
    }

    method OpenFlow(key: Key, s: Segment, input: Input) returns (actions: seq<Action>)
      requires Valid()
      modifies this`flows, this`ids, this`nextFlowId
      ensures Valid()
      ensures Done(View(), actions) == OpenTcp(old(View()), key, s, input)
    {
      hide InitialSequence;
      if !accepting {
        actions := Reject(s, Shutdown);
      } else if !input.healthy {
        actions := Reject(s, ProtectedPathUnavailable);
      } else if input.route.None? || input.route.value.Deny? {
        actions := Reject(s, PolicyDenied);
      } else if input.route.value.Bypass? {
        actions := Reject(s, DirectFallbackForbidden);
      } else if |flows| >= config.maxFlows {
        actions := Reject(s, Backpressure);
        actions := actions + [Diagnostic(FlowLimit, None)];
      } else {
        var id := nextFlowId;
        nextFlowId := nextFlowId + 1;
        var flow := Flow(id, key, input.now, input.now, Some(input.now), Connecting, 0, 0,
                         Plus(s.sequence, 1), Plus(InitialSequence(id), 1), false, [], None);
        InsertFlow(flow);
        actions := [OpenStream(id, key.destination)];
      }
    }

    // ---------------------------------------------------------------- a segment on a known flow

    /** Takes complete DNS messages off the buffer and registers them as pending queries. */
    method DrainBuffer(buffer: seq<byte>, id: nat) 
      returns (rest: seq<byte>, ghost queries: seq<seq<byte>>, asks: seq<Action>, stop: Ending)
      requires Valid()
      modifies this`pendingDns, this`nextDnsId
      ensures Valid()
      ensures Drained(queries, rest, stop) == Drain(buffer, Room(old(View())))
      ensures asks == Resolves(queries, old(nextDnsId), id)
      ensures nextDnsId == old(nextDnsId) + |queries|
      ensures pendingDns == Asked(old(pendingDns), old(nextDnsId), |queries|, id)
    {
      hide Drain, DrainedSoFar, Asked, Resolves, Be16;
      ghost var room, pending, firstId := Room(View()), pendingDns, nextDnsId;
      rest, queries, asks, stop := buffer, [], [], Waiting;
      AskedNothing(pending, firstId, id);
      NothingDrained(buffer, room, firstId, id);
      while true
        invariant |queries| <= room && stop.Waiting?
        invariant Valid() && nextDnsId == firstId + |queries|
        invariant asks == Resolves(queries, firstId, id)
        invariant pendingDns == Asked(pending, firstId, |queries|, id)
        invariant DrainedSoFar(buffer, room, queries, rest)
        decreases |rest|
      {
        AskedSize(pending, firstId, |queries|, id);
        ghost var full := |queries| == room;
        if StopAt(rest, full).Some? {
          DrainStops(buffer, room, queries, rest);
        }
        if |rest| < 2 {
          break;
        }
        var length := Be16(rest[0], rest[1]);
        if length == 0 || length > MAX_DNS_MESSAGE_BYTES {
          stop := Malformed;
          break;
        }
        if |rest| < length + 2 {
          break;
        }
        if |pendingDns| >= config.maxPendingDns {
          stop := Full;
          break;
        }
        var wire := rest[2..length + 2];
        DrainOneMore(buffer, room, queries, rest, length);
        ResolvesOneMore(queries, wire, firstId, id);
        AskedOneMore(pending, firstId, |queries|, id);
        asks := asks + [ResolveDns(nextDnsId, wire, TcpTarget(id))];
        queries := queries + [wire];
        rest := rest[length + 2..];
        pendingDns := pendingDns[nextDnsId := TcpTarget(id)];
        nextDnsId := nextDnsId + 1;
      }
    }

    /** A payload resets the flow after its FIN and when it does not fit; otherwise it is taken exactly if it is
        next in sequence. What is taken is buffered or handed on, and only what is buffered is acknowledged now. */
    method AcceptPayload(f: Flow, s: Segment) returns (flow: Flow, actions: seq<Action>, reset: bool)
      ensures reset <==> s.payload != [] && (Shut(f) || (s.sequence == f.clientNext && !Fits(config, f, s)))
      ensures var taken := if reset || s.sequence != f.clientNext then [] else s.payload;
              && flow == f.(clientNext := if taken == [] then f.clientNext else Plus(f.clientNext, |taken|),
                            buffer := f.buffer + (if f.dns then taken else []),
                            queuedToGateway := f.queuedToGateway + (if f.dns then 0 else |taken|))
              && (if f.dns || taken == [] then forall a :: a in actions ==> !a.ForwardPayload?
                  else actions == [ForwardPayload(f.id, taken)])
              && (s.payload != [] && !reset && (f.dns || taken == []) ==> AckReply(config, flow) in actions)
      ensures Work(flow, actions, reset, []) == TakePayload(config, f, s)
    {
      assert f.buffer + [] == f.buffer;
      flow, actions, reset := f, [], false;
      if |s.payload| != 0 {
        if flow.state.HalfClosedLocal? || flow.state.Closing? {
          actions := [BlockFlow(Some(flow.id), MalformedPacket), Diagnostic(OutOfOrder, Some(flow.id))];
          reset := true;
        } else if s.sequence == flow.clientNext {
          if (if flow.dns then |flow.buffer| else flow.queuedToGateway) + |s.payload| > config.toGatewayBytes {
            actions := [BlockFlow(Some(flow.id), Backpressure), Diagnostic(BufferLimit, Some(flow.id))];
            reset := true;
          } else if flow.dns {
            flow := flow.(buffer := flow.buffer + s.payload, clientNext := Plus(flow.clientNext, |s.payload|));
            actions := [Reply(flow, flow.serverNext, flow.clientNext, ACK, config.receiveWindow, [])];
          } else {
            flow := flow.(queuedToGateway := flow.queuedToGateway + |s.payload|,
                          clientNext := Plus(flow.clientNext, |s.payload|));
            actions := [ForwardPayload(flow.id, s.payload)];
          }
        } else {
          var code := if SequenceBefore(s.sequence, flow.clientNext) then Retransmission else OutOfOrder;
          actions := [Diagnostic(code, Some(flow.id)),
                      Reply(flow, flow.serverNext, flow.clientNext, ACK, config.receiveWindow, [])];
        }
      }
    }

    /** A FIN next in sequence, and only it, advances the record and shuts the direction from the application;
        every packet sent for it acknowledges the new position. */
    method AcceptFin(f: Flow, before: seq<Action>, s: Segment, ghost queries: seq<seq<byte>>)
      returns (flow: Flow, actions: seq<Action>, graceful: bool)
      ensures flow.clientNext == if FinIsNext(f, s) then Plus(f.clientNext, 1) else f.clientNext
      ensures Shut(flow) <==> Shut(f) || FinIsNext(f, s)
      ensures flow == f.(clientNext := flow.clientNext, state := flow.state)
      ensures graceful <==> FinIsNext(f, s) && f.state.HalfClosedRemote? && s.payload == []
      ensures before <= actions
      ensures forall a :: a in actions[|before|..] && a.SendTcp? ==> a == AckReply(config, flow)
      ensures Outcome(flow, graceful, actions, queries) == TakeFin(config, Work(f, before, false, queries), s)
    {
      flow, actions, graceful := f, before, false;
      var end := Plus(s.sequence, |s.payload|);
      if s.flags.fin && end == flow.clientNext {
        flow := flow.(clientNext := Plus(flow.clientNext, 1));
        var reply := Reply(flow, flow.serverNext, flow.clientNext, ACK, config.receiveWindow, []);
        if flow.state.HalfClosedRemote? {
          flow := flow.(state := Closing);
          actions := actions + [CloseBoth(flow.id)];
          if |s.payload| == 0 {
            actions := actions + [reply];
            graceful := true;
          }
        } else {
          flow := flow.(state := HalfClosedLocal);
          if !flow.dns {
            actions := actions + [CloseWrite(flow.id)];
          }
          if flow.dns || |s.payload| == 0 {
            actions := actions + [reply];
          }
        }
      } else if s.flags.fin && Plus(end, 1) == flow.clientNext {
        actions := actions + [Diagnostic(Retransmission, Some(flow.id)),
                              Reply(flow, flow.serverNext, flow.clientNext, ACK, config.receiveWindow, [])];
      }
    }

    method WriteBack(key: Key, flow: Flow, removed: bool)
      requires Valid() && key in flows
      modifies this`flows, this`ids, this`pendingDns
      ensures Valid()
      ensures var e := old(View()).(flows := old(flows)[key := flow]); View() == if removed then Remove(e, key) else e
    {
      flows := flows[key := flow];
      if removed {
        RemoveFlow(key);
      }
    }

    method ProcessExisting(key: Key, s: Segment, now: nat) returns (actions: seq<Action>)
      requires Valid() && key in flows
      modifies this`flows, this`ids, this`pendingDns, this`nextDnsId
      ensures Valid()
      ensures Done(View(), actions) == ExistingTcp(old(View()), key, s, now)
    {
      hide Synchronized, Remove, Asked;
      ghost var e := View();
      var flow := flows[key].(lastActivityMs := now);
      AskedNothing(pendingDns, nextDnsId, flow.id);
      if s.flags.syn {
        actions := [Diagnostic(Retransmission, Some(flow.id))];
        if flow.state.SynAckSent? {
          actions := actions + [Reply(flow, Minus(flow.serverNext, 1), flow.clientNext, SYN_ACK, config.receiveWindow, [])];
        }
        WriteBack(key, flow, false);
        return;
      }
      if flow.state.Connecting? {
        WriteBack(key, flow, false);
        return [];
      }
      if flow.state.SynAckSent? {
        if s.flags.ack && s.acknowledgement == flow.serverNext && s.sequence == flow.clientNext {
          flow := flow.(state := Established, connectStartedMs := None);
        } else {
          actions := [Diagnostic(OutOfOrder, Some(flow.id)),
                      Reply(flow, Minus(flow.serverNext, 1), flow.clientNext, SYN_ACK, config.receiveWindow, [])];
          WriteBack(key, flow, false);
          return;
        }
      }
      if (|s.payload| != 0 || s.flags.fin) && !s.flags.ack {
        actions := [Diagnostic(OutOfOrder, Some(flow.id)),
                    Reply(flow, flow.serverNext, flow.clientNext, ACK, config.receiveWindow, [])];
        WriteBack(key, flow, false);
        return;
      }
      actions := ProcessSynchronized(key, flow, s);
    }

    method ProcessSynchronized(key: Key, f: Flow, s: Segment) returns (actions: seq<Action>)
      requires Valid() && key in flows
      modifies this`flows, this`ids, this`pendingDns, this`nextDnsId
      ensures Valid()
      ensures Done(View(), actions) == Applied(old(View()), key, Synchronized(config, f, s, Room(old(View())), old(nextDnsId)))
    {
      hide TakePayload, TakeFin, Drain, Remove, Asked, Room;
      var flow := f;
      AskedNothing(pendingDns, nextDnsId, flow.id);
      if s.flags.ack && SequenceBefore(flow.serverNext, s.acknowledgement) {
        actions := [BlockFlow(Some(flow.id), MalformedPacket), Diagnostic(OutOfOrder, Some(flow.id))];
        actions := actions + [Reply(flow, flow.serverNext, flow.clientNext, RST_ACK, 0, []), CloseBoth(flow.id)];
        WriteBack(key, flow, true);
        return;
      }
      if s.flags.ack && s.acknowledgement == flow.serverNext && flow.outstanding.Some? {
        flow := flow.(outstanding := None, queuedToApplication := 0);
      }
      if flow.state.Closing? && s.flags.ack && s.acknowledgement == flow.serverNext && flow.outstanding.None?
         && |s.payload| == 0 && !s.flags.fin {
        WriteBack(key, flow, true);
        return [CloseBoth(flow.id)];
      }
      assert flow == Released(f, s) && !Finished(flow, s);
      actions := ProcessStages(key, flow, s);
    }

    method ProcessStages(key: Key, f: Flow, s: Segment) returns (actions: seq<Action>)
      requires Valid() && key in flows
      modifies this`flows, this`ids, this`pendingDns, this`nextDnsId
      ensures Valid()
      ensures Done(View(), actions)
           == Applied(old(View()), key,
                      TakeFin(config, TakeQueries(TakePayload(config, f, s), Room(old(View())), old(nextDnsId)), s))
    {
      hide TakePayload, Drain, Remove, Asked, Room, FinIsNext;
      ghost var w := TakePayload(config, f, s);
      var flow, acts, reset := AcceptPayload(f, s);
      ghost var queries := [];
      AskedNothing(pendingDns, nextDnsId, flow.id);
      if flow.dns && !reset {
        var rest, taken, asks, stop := DrainBuffer(flow.buffer, flow.id);
        queries := taken;
        acts := acts + asks + StopActions(flow, stop);
        flow := flow.(buffer := rest);
        reset := !stop.Waiting?;
      }
      ghost var v := TakeQueries(w, Room(old(View())), old(nextDnsId));
      assert v == Work(flow, acts, reset, queries);
      assert pendingDns == Asked(old(pendingDns), old(nextDnsId), |queries|, flow.id) && nextDnsId == old(nextDnsId) + |queries|;
      if reset {
        actions := acts + [Reply(flow, flow.serverNext, flow.clientNext, RST_ACK, 0, []), CloseBoth(flow.id)];
        WriteBack(key, flow, true);
      } else {
        hide TakeFin;
        var graceful;
        flow, actions, graceful := AcceptFin(flow, acts, s, queries);
        FinKeepsId(config, v, s);
        WriteBack(key, flow, graceful);
      }
    }

    // ---------------------------------------------------------------- the protected stream

    method ProtectedStreamOpened(id: nat, now: nat) returns (actions: seq<Action>)
      requires Valid()
      modifies this`flows
      ensures Valid()
      ensures Done(View(), actions) == Opened(old(View()), id, now)
    {
      if id !in ids || ids[id] !in flows {
        return [Diagnostic(UnknownFlow, Some(id))];
      }
      var key := ids[id];
      var flow := flows[key];
      AskedNothing(pendingDns, nextDnsId, flow.id);
      if !flow.state.Connecting? {
        assert flows[key := flow] == flows;
        return [];
      }
      flow := flow.(state := SynAckSent, lastActivityMs := now);
      flows := flows[key := flow];
      actions := [Reply(flow, Minus(flow.serverNext, 1), flow.clientNext, SYN_ACK, config.receiveWindow, [])];
    }

    method BytesForwarded(id: nat, bytes: nat, now: nat) returns (actions: seq<Action>)
      requires Valid()
      modifies this`flows, this`ids, this`pendingDns
      ensures Valid()
      ensures Done(View(), actions) == AcknowledgeForwarded(old(View()), id, bytes, now)
    {
      hide Remove, Asked;
      if id !in ids || ids[id] !in flows {
        return [];
      }
      var key := ids[id];
      var flow := flows[key].(queuedToGateway := Since(flows[key].queuedToGateway, bytes), lastActivityMs := now);
      AskedNothing(pendingDns, nextDnsId, flow.id);
      actions := [Reply(flow, flow.serverNext, flow.clientNext, ACK, config.receiveWindow, [])];
      WriteBack(key, flow, flow.state.Closing? && flow.outstanding.None?);
    }

    /** Exactly the payloads up to the capacity are accepted without failing the flow. */
    method ProtectedReadCapacity(id: nat) returns (capacity: nat)
      ensures forall payload: seq<byte> :: payload != [] ==>
                (|payload| <= capacity <==> Knows(View(), id) && Accepts(config, FlowOf(View(), id), payload))
      ensures capacity == ReadCapacity(View(), id)
    {
      if id !in ids || ids[id] !in flows {
        return 0;
      }
      var flow := flows[ids[id]];
      if flow.outstanding.None? && (flow.state.Established? || flow.state.HalfClosedLocal?) {
        capacity := config.toApplicationBytes;
      } else {
        capacity := 0;
      }
    }

    /** Sends one new segment of a known flow and keeps it outstanding. */
    method SendSegment(id: nat, state: FlowState, flags: Flags, payload: seq<byte>,
                       now: nat) returns (actions: seq<Action>)
      requires Valid() && id in ids && ids[id] in flows
      modifies this`flows
      ensures Valid()
      ensures Done(View(), actions)
           == Applied(old(View()), ids[id],
                      Emit(config, Prepared(FlowOf(old(View()), id), state, flags, payload), flags, payload, now))
    {
      var key := ids[id];
      var flow := flows[key].(lastActivityMs := now, state := state);
      if !flags.fin {
        flow := flow.(queuedToApplication := |payload|);
      }
      AskedNothing(pendingDns, nextDnsId, flow.id);
      var sequence, acknowledgement := flow.serverNext, flow.clientNext;
      flow := flow.(serverNext := Plus(flow.serverNext, |payload| + if flags.fin then 1 else 0));
      actions := [Reply(flow, sequence, acknowledgement, flags, config.receiveWindow, payload)];
      flow := flow.(outstanding := Some(Outstanding(sequence, acknowledgement, flags, payload, now, 0)));
      flows := flows[key := flow];
    }

    method PayloadReceived(id: nat, payload: seq<byte>, now: nat) returns (actions: seq<Action>)
      requires Valid()
      modifies this`flows, this`ids, this`pendingDns
      ensures Valid()
      ensures Done(View(), actions) == ProtectedPayload(old(View()), id, payload, now)
    {
      hide FailFlow, Emit, Install;
      if id !in ids || ids[id] !in flows {
        return [Diagnostic(UnknownFlow, Some(id))];
      }
      if |payload| == 0 {
        return [];
      }
      var flow := flows[ids[id]];
      if |payload| <= config.toApplicationBytes && flow.outstanding.None? && (flow.state.Established? || flow.state.HalfClosedLocal?) {
        actions := SendSegment(id, flow.state, PSH_ACK, payload, now);
      } else {
        actions := FailOne(id, Backpressure);
      }
    }

    method StreamFinished(id: nat, now: nat) returns (actions: seq<Action>)
      requires Valid()
      modifies this`flows, this`ids, this`pendingDns
      ensures Valid()
      ensures Done(View(), actions) == ProtectedClosed(old(View()), id, now)
    {
      hide FailFlow, Emit, Install;
      if id !in ids || ids[id] !in flows {
        return [];
      }
      var flow := flows[ids[id]];
      if flow.outstanding.None? && (flow.state.Established? || flow.state.HalfClosedLocal?) {
        actions := SendSegment(id, if flow.state.HalfClosedLocal? then Closing else HalfClosedRemote, FIN_ACK, [], now);
      } else {
        actions := FailOne(id, DownstreamFailure);
      }
    }

    method DnsCompleted(query: nat, wire: seq<byte>, now: nat) returns (actions: seq<Action>)
      requires Valid()
      modifies this`flows, this`ids, this`pendingDns
      ensures Valid()
      ensures Done(View(), actions) == CompleteDns(old(View()), query, wire, now)
    {
      hide FailFlow, Emit, Install, Bytes16;
      if query !in pendingDns {
        return [];
      }
      var target := pendingDns[query];
      pendingDns := pendingDns - {query};
      if |wire| == 0 || |wire| > MAX_DNS_MESSAGE_BYTES {
        if target.TcpTarget? {
          actions := FailOne(target.flow, DownstreamFailure);
        } else {
          actions := [BlockFlow(None, DownstreamFailure)];
        }
      } else if target.UdpTarget? {
        if |wire| > 65507 {
          return [BlockFlow(None, Backpressure)];
        }
        actions := [SendUdp(Datagram(target.resolver.address, target.client.address,
                                     target.resolver.port, target.client.port, wire))];
      } else {
        if target.flow !in ids || ids[target.flow] !in flows {
          return [];
        }
        var framed := Bytes16(|wire| % WORD) + wire;
        var flow := flows[ids[target.flow]];
        if |framed| <= config.toApplicationBytes && flow.outstanding.None? && (flow.state.Established? || flow.state.HalfClosedLocal?) {
          actions := SendSegment(target.flow, flow.state, PSH_ACK, framed, now);
        } else {
          actions := FailOne(target.flow, Backpressure);
        }
      }
    }

    // ---------------------------------------------------------------- the clock and the life of the engine

    method OnTick(now: nat, order: seq<Key>) returns (actions: seq<Action>)
      requires Valid() && Enumerates(order, flows.Keys)
      modifies this`flows, this`ids, this`pendingDns
      ensures Valid()
      ensures Done(View(), actions) == Tick(old(View()), now, order)
    {
      hide FailMany;
      if suspendedAt.Some? {
        return [];
      }
      ghost var before := View();
      var again, expired := WalkFlows(now, order);
      assert View() == AllTicked(before, now);
      var failed := FailEach(expired);
      actions := again + failed;
    }

    /** What the clock does to one record: fail it, send its outstanding segment again, or nothing. */
    method VisitFlow(f: Flow, now: nat) returns (flow: Flow, again: seq<Action>, expired: seq<(nat, Reason)>)
      ensures flow == Ticked(config, f, now) && again == TickActions(config, f, now)
      ensures expired == Doomed(config, f, now)
    {
      flow, again, expired := f, [], [];
      var started := if flow.connectStartedMs.Some? then flow.connectStartedMs.value else flow.createdMs;
      if (flow.state.Connecting? || flow.state.SynAckSent?) && Since(now, started) >= config.connectionTimeout {
        expired := [(flow.id, ConnectionTimeout)];
      } else if Since(now, flow.lastActivityMs) >= config.idleTimeout {
        expired := [(flow.id, IdleTimeout)];
      } else if flow.outstanding.Some? {
        var o := flow.outstanding.value;
        if Since(now, o.sentMs) >= config.retransmitInterval {
          if o.retransmissions >= config.maxRetransmissions {
            expired := [(flow.id, IdleTimeout)];
          } else {
            flow := flow.(outstanding := Some(o.(retransmissions := o.retransmissions + 1, sentMs := now)));
            again := [Diagnostic(Retransmission, Some(flow.id)),
                      Reply(flow, o.sequence, o.acknowledgement, o.flags, config.receiveWindow, o.payload)];
          }
        }
      }
    }

    /** One walk over the table: counts retransmissions in place and collects what to send and what to fail. */
    method WalkFlows(now: nat, order: seq<Key>) returns (again: seq<Action>, expired: seq<(nat, Reason)>)
      requires Valid() && Enumerates(order, flows.Keys)
      modifies this`flows
      ensures Valid() && flows == AllTicked(old(View()), now).flows
      ensures again == Retransmissions(config, old(flows), order, now)
      ensures expired == Expired(config, old(flows), order, now)
    {
      hide Ticked, TickActions, Doomed, Retransmissions, Expired;
      ghost var table := flows;
      again, expired := [], [];
      var i := 0;
      assert order[0..] == order;
      while i < |order|
        invariant 0 <= i <= |order|
        invariant flows.Keys == table.Keys
        invariant forall j :: 0 <= j < i ==> flows[order[j]] == Ticked(config, table[order[j]], now)
        invariant forall j :: i <= j < |order| ==> flows[order[j]] == table[order[j]]
        invariant again + Retransmissions(config, table, order[i..], now) == Retransmissions(config, table, order, now)
        invariant expired + Expired(config, table, order[i..], now) == Expired(config, table, order, now)
      {
        var key := order[i];
        assert key in order;
        WalkStep(config, table, order, i, now, again, expired);
        var flow, more, doomed := VisitFlow(flows[key], now);
        flows := flows[key := flow];
        again := again + more;
        expired := expired + doomed;
        i := i + 1;
      }
      WalkEnd(config, table, order[i..], now);
      forall k | k in flows ensures flows[k] == Ticked(config, table[k], now) {
        var j :| 0 <= j < |order| && order[j] == k;
      }
    }

    method SuspendAt(now: nat)
      requires Valid()
      modifies this`suspendedAt
      ensures Valid() && View() == Suspend(old(View()), now)
    {
      if suspendedAt.None? {
        suspendedAt := Some(now);
      }
    }

    method ResumeAt(now: nat, healthy: bool, order: seq<nat>) returns (actions: seq<Action>)
      requires Valid() && Enumerates(order, ids.Keys)
      modifies this
      ensures Valid()
      ensures Done(View(), actions) == Resume(old(View()), now, healthy, order)
    {
      hide FailMany;
      if suspendedAt.None? {
        return [];
      }
      var slept := Since(now, suspendedAt.value);
      suspendedAt := None;
      if !healthy {
        var failed := FailEach(Doom(order, ProtectedPathUnavailable));
        return [Diagnostic(ResumePathInvalid, None)] + failed;
      }
      flows := map k | k in flows :: Slept(flows[k], slept);
      actions := [];
    }

    method FailEverything(reason: Reason, order: seq<nat>) returns (actions: seq<Action>)
      requires Valid() && Enumerates(order, ids.Keys)
      modifies this`flows, this`ids, this`pendingDns
      ensures Valid()
      ensures Done(View(), actions) == FailAll(old(View()), reason, order)
    {
      pendingDns := map[];
      actions := FailEach(Doom(order, reason));
    }

    method ShutDown(order: seq<nat>) returns (actions: seq<Action>)
      requires Valid() && Enumerates(order, ids.Keys)
      modifies this`accepting, this`flows, this`ids, this`pendingDns
      ensures Valid()
      ensures Done(View(), actions) == Stop(old(View()), order)
    {
      accepting := false;
      var failed := FailEverything(Shutdown, order);
      actions := [Diagnostic(ShuttingDown, None)] + failed;
    }
  }

  lemma WalkStep(c: Config, flows: map<Key, Flow>, order: seq<Key>, i: nat, now: nat, again: seq<Action>,
                 expired: seq<(nat, Reason)>)
    requires (forall k :: k in order ==> k in flows) && i < |order|
    ensures var f := flows[order[i]];
            && again + Retransmissions(c, flows, order[i..], now)
               == (again + TickActions(c, f, now)) + Retransmissions(c, flows, order[i + 1..], now)
            && expired + Expired(c, flows, order[i..], now) == (expired + Doomed(c, f, now)) + Expired(c, flows, order[i + 1..], now)
  {
    hide TickActions, Expiry;
    assert order[i..][1..] == order[i + 1..];
  }

  lemma WalkEnd(c: Config, flows: map<Key, Flow>, order: seq<Key>, now: nat)
    requires order == []
    ensures Retransmissions(c, flows, order, now) == [] && Expired(c, flows, order, now) == []
  {
  }

  lemma FinKeepsId(c: Config, w: Work, s: Segment)
    ensures TakeFin(c, w, s).flow.id == w.flow.id && TakeFin(c, w, s).queries == w.queries
  {
  }
}
