/**
 The packet engine: flow table, id table, pending DNS queries, and what every call does to them.
 Identifiers are unbounded here; hash-table iteration orders, clock readings and route decisions are inputs.
 */
module Engine {
  import opened Bytes
  import opened Options
  import opened Packet
  import opened TcpFlow

  datatype Engine = Engine(
    config: Config,
    flows: map<Key, Flow>, ids: map<nat, Key>, pending: map<nat, DnsTarget>,
    nextFlowId: nat, nextDnsId: nat,
    accepting: bool, suspendedAt: Option<nat>)

  datatype Policy = Tunnel | Deny | Bypass

  /** One packet with its metadata; `healthy` says whether the connection state protects traffic. */
  datatype Input = Input(packet: seq<byte>, now: nat, route: Option<Policy>, healthy: bool)

  datatype Done = Done(engine: Engine, actions: seq<Action>)

  function InitialSequence(id: nat): (r: nat)
    ensures r < WRAP
  {
    (0xa50f_0000 as bv32 ^ ((id % WRAP * 0x9e37_79b9 % WRAP) as bv32)) as nat
  }

  function Fresh(c: Config): Engine {
    Engine(c, map[], map[], map[], 1, 1, true, None)
  }

  // ---------------------------------------------------------------- the tables

  function Insert(e: Engine, f: Flow): Engine {
    e.(flows := e.flows[f.key := f], ids := e.ids[f.id := f.key])
  }

  function Orphaned(pending: map<nat, DnsTarget>, id: nat): map<nat, DnsTarget> {
    map q | q in pending && pending[q] != TcpTarget(id) :: pending[q]
  }

  function Remove(e: Engine, key: Key): Engine {
    if key !in e.flows then e
    else
      var id := e.flows[key].id;
      e.(flows := e.flows - {key}, ids := e.ids - {id}, pending := Orphaned(e.pending, id))
  }

  predicate AtLeast(q: nat, firstId: nat) {
    firstId <= q
  }

  function Asked(pending: map<nat, DnsTarget>, firstId: nat, count: nat, id: nat): map<nat, DnsTarget> {
    pending + map q: nat | q < firstId + count && AtLeast(q, firstId) :: TcpTarget(id)
  }

  /** Writes back what happened to one flow. */
  function Install(e: Engine, key: Key, o: Outcome): Engine {
    var e' := e.(flows := e.flows[key := o.flow],
                 pending := Asked(e.pending, e.nextDnsId, |o.queries|, o.flow.id),
                 nextDnsId := e.nextDnsId + |o.queries|);
    if o.removed then Remove(e', key) else e'
  }

  function Applied(e: Engine, key: Key, o: Outcome): Done {
    Done(Install(e, key, o), o.actions)
  }

  predicate Knows(e: Engine, id: nat) {
    id in e.ids && e.ids[id] in e.flows
  }

  function FlowOf(e: Engine, id: nat): Flow
    requires Knows(e, id)
  {
    e.flows[e.ids[id]]
  }

  // ---------------------------------------------------------------- refusing and failing

  function Blocked(e: Engine, reason: Reason): Done {
    Done(e, [BlockFlow(None, reason)])
  }

  function RejectSyn(e: Engine, s: Segment, reason: Reason): Done {
    Done(e, [SendTcp(None, Segment(s.destination, s.source, s.destinationPort, s.sourcePort,
                                   0, Plus(s.sequence, 1), 0, RST_ACK, [])),
             BlockFlow(None, reason)])
  }

  function FailFlow(e: Engine, id: nat, reason: Reason): Done {
    if !Knows(e, id) then Done(e, [])
    else Done(Remove(e, e.ids[id]), FailActions(FlowOf(e, id), reason))
  }

  function FailMany(e: Engine, doomed: seq<(nat, Reason)>): Done
    decreases |doomed|
  {
    if doomed == [] then Done(e, [])
    else
      var first := FailFlow(e, doomed[0].0, doomed[0].1);
      var rest := FailMany(first.engine, doomed[1..]);
      Done(rest.engine, first.actions + rest.actions)
  }

  function Doom(order: seq<nat>, reason: Reason): (r: seq<(nat, Reason)>)
    ensures |r| == |order|
  {
    seq(|order|, i requires 0 <= i < |order| => (order[i], reason))
  }

  // ---------------------------------------------------------------- packets

  function KeyOf(s: Segment): Key {
    Key(Endpoint(s.source, s.sourcePort), Endpoint(s.destination, s.destinationPort))
  }

  function Process(e: Engine, input: Input): Done {
    match Classify(input.packet)
    case Err(_) => Done(e, [BlockFlow(None, MalformedPacket), Diagnostic(BadPacket, None)])
    case Ok(Ipv6) => Blocked(e, Ipv6Blocked)
    case Ok(Udp(datagram)) => ProcessUdp(e, datagram, input.healthy)
    case Ok(Tcp(segment)) => ProcessTcp(e, segment, input)
    case Ok(Icmp(_, _, _, _)) => Blocked(e, IcmpUnsupported)
    case Ok(Other(_)) => Blocked(e, UnsupportedTransport)
  }

  function ProcessUdp(e: Engine, d: Datagram, healthy: bool): Done {
    if d.destinationPort == 53 then
      if !e.accepting then Blocked(e, Shutdown)
      else if !healthy then Blocked(e, ProtectedPathUnavailable)
      else if d.payload == [] || |d.payload| > MAX_DNS_MESSAGE_BYTES || |e.pending| >= e.config.maxPendingDns then
        Blocked(e, Backpressure)
      else
        var target := UdpTarget(Endpoint(d.source, d.sourcePort), Endpoint(d.destination, d.destinationPort));
        Done(e.(pending := e.pending[e.nextDnsId := target], nextDnsId := e.nextDnsId + 1),
             [ResolveDns(e.nextDnsId, d.payload, target)])
    else if d.destinationPort == 443 then Blocked(e, QuicBlocked)
    else Blocked(e, UdpBlocked)
  }

  function ProcessTcp(e: Engine, s: Segment, input: Input): Done {
    var key := KeyOf(s);
    if s.flags.syn && (s.flags.fin || s.flags.rst || s.payload != []) then
      if key in e.flows then FailFlow(e, e.flows[key].id, MalformedPacket) else RejectSyn(e, s, MalformedPacket)
    else if s.flags.rst then
      if key in e.flows then Done(Remove(e, key), [CloseBoth(e.flows[key].id)]) else Done(e, [])
    else if key !in e.flows then
      if !s.flags.syn || s.flags.ack then Done(e, [Diagnostic(UnknownFlow, None)])
      else if s.destinationPort == 53 then OpenDnsTcp(e, key, s, input)
      else OpenTcp(e, key, s, input)
    else if !input.healthy then FailFlow(e, e.flows[key].id, ProtectedPathUnavailable)
    else ExistingTcp(e, key, s, input.now)
  }

  function NewFlow(e: Engine, key: Key, s: Segment, now: nat, dns: bool): Flow {
    Flow(e.nextFlowId, key, now, now, if dns then None else Some(now), if dns then SynAckSent else Connecting,
         0, 0, Plus(s.sequence, 1), Plus(InitialSequence(e.nextFlowId), 1), dns, [], None)
  }

  function OpenDnsTcp(e: Engine, key: Key, s: Segment, input: Input): Done {
    if !e.accepting then RejectSyn(e, s, Shutdown)
    else if !input.healthy then RejectSyn(e, s, ProtectedPathUnavailable)
    else if |e.flows| >= e.config.maxFlows then RejectSyn(e, s, Backpressure)
    else
      var f := NewFlow(e, key, s, input.now, true);
      Done(Insert(e.(nextFlowId := e.nextFlowId + 1), f),
           [Reply(f, InitialSequence(f.id), f.clientNext, SYN_ACK, e.config.receiveWindow, [])])
  }

  function OpenTcp(e: Engine, key: Key, s: Segment, input: Input): Done {
    if !e.accepting then RejectSyn(e, s, Shutdown)
    else if !input.healthy then RejectSyn(e, s, ProtectedPathUnavailable)
    else if input.route.None? || input.route.value.Deny? then RejectSyn(e, s, PolicyDenied)
    else if input.route.value.Bypass? then RejectSyn(e, s, DirectFallbackForbidden)
    else if |e.flows| >= e.config.maxFlows then
      Done(e, RejectSyn(e, s, Backpressure).actions + [Diagnostic(FlowLimit, None)])
    else
      var f := NewFlow(e, key, s, input.now, false);
      Done(Insert(e.(nextFlowId := e.nextFlowId + 1), f), [OpenStream(f.id, key.destination)])
  }

  function Room(e: Engine): nat {
    if |e.pending| >= e.config.maxPendingDns then 0 else e.config.maxPendingDns - |e.pending|
  }

  function ExistingTcp(e: Engine, key: Key, s: Segment, now: nat): Done
    requires key in e.flows
  {
    Applied(e, key, Existing(e.config, e.flows[key], s, now, Room(e), e.nextDnsId))
  }

  // ---------------------------------------------------------------- the protected stream

  function Opened(e: Engine, id: nat, now: nat): Done {
    if !Knows(e, id) then Done(e, [Diagnostic(UnknownFlow, Some(id))])
    else Applied(e, e.ids[id], StreamOpened(e.config, FlowOf(e, id), now))
  }

  function AcknowledgeForwarded(e: Engine, id: nat, bytes: nat, now: nat): Done {
    if !Knows(e, id) then Done(e, [])
    else Applied(e, e.ids[id], Forwarded(e.config, FlowOf(e, id), bytes, now))
  }

  function ReadCapacity(e: Engine, id: nat): nat {
    if !Knows(e, id) then 0 else Capacity(e.config, FlowOf(e, id))
  }

  function ProtectedPayload(e: Engine, id: nat, payload: seq<byte>, now: nat): Done {
    if !Knows(e, id) then Done(e, [Diagnostic(UnknownFlow, Some(id))])
    else if payload == [] then Done(e, [])
    else if !Accepts(e.config, FlowOf(e, id), payload) then FailFlow(e, id, Backpressure)
    else Applied(e, e.ids[id], StreamPayload(e.config, FlowOf(e, id), payload, now))
  }

  function ProtectedClosed(e: Engine, id: nat, now: nat): Done {
    if !Knows(e, id) then Done(e, [])
    else if !Receptive(FlowOf(e, id)) then FailFlow(e, id, DownstreamFailure)
    else Applied(e, e.ids[id], StreamClosed(e.config, FlowOf(e, id), now))
  }

  /** The two length bytes keep only the low 16 bits of the length. */
  function Framed(wire: seq<byte>): seq<byte> {
    Bytes16(|wire| % WORD) + wire
  }

  function CompleteDns(e: Engine, query: nat, wire: seq<byte>, now: nat): Done {
    if query !in e.pending then Done(e, [])
    else
      var target := e.pending[query];
      var e := e.(pending := e.pending - {query});
      if wire == [] || |wire| > MAX_DNS_MESSAGE_BYTES then
        if target.TcpTarget? then FailFlow(e, target.flow, DownstreamFailure) else Blocked(e, DownstreamFailure)
      else if target.UdpTarget? then
        if |wire| > 65507 then Blocked(e, Backpressure)
        else Done(e, [SendUdp(Datagram(target.resolver.address, target.client.address,
                                       target.resolver.port, target.client.port, wire))])
      else if !Knows(e, target.flow) then Done(e, [])
      else if !Accepts(e.config, FlowOf(e, target.flow), Framed(wire)) then FailFlow(e, target.flow, Backpressure)
      else Applied(e, e.ids[target.flow], StreamPayload(e.config, FlowOf(e, target.flow), Framed(wire), now))
  }

  // ---------------------------------------------------------------- the clock and the life of the engine

  /** The order in which a hash table is walked: every key once. */
  ghost predicate Enumerates<T(!new)>(order: seq<T>, keys: set<T>) {
    && (forall i, j :: 0 <= i < j < |order| ==> order[i] != order[j])
    && (forall k :: k in order <==> k in keys)
  }

  function Retransmissions(c: Config, flows: map<Key, Flow>, order: seq<Key>, now: nat): seq<Action>
    requires forall k :: k in order ==> k in flows
  {
    if order == [] then [] else TickActions(c, flows[order[0]], now) + Retransmissions(c, flows, order[1..], now)
  }

  function Expired(c: Config, flows: map<Key, Flow>, order: seq<Key>, now: nat): seq<(nat, Reason)>
    requires forall k :: k in order ==> k in flows
  {
    if order == [] then []
    else
      var f := flows[order[0]];
      (if Expiry(c, f, now).Some? then [(f.id, Expiry(c, f, now).value)] else []) + Expired(c, flows, order[1..], now)
  }

  function AllTicked(e: Engine, now: nat): Engine {
    e.(flows := map k | k in e.flows :: Ticked(e.config, e.flows[k], now))
  }

  function Tick(e: Engine, now: nat, order: seq<Key>): Done
    requires forall k :: k in order ==> k in e.flows
  {
    if e.suspendedAt.Some? then Done(e, [])
    else
      var failed := FailMany(AllTicked(e, now), Expired(e.config, e.flows, order, now));
      Done(failed.engine, Retransmissions(e.config, e.flows, order, now) + failed.actions)
  }

  function Suspend(e: Engine, now: nat): Engine {
    if e.suspendedAt.None? then e.(suspendedAt := Some(now)) else e
  }

  function Resume(e: Engine, now: nat, healthy: bool, order: seq<nat>): Done {
    if e.suspendedAt.None? then Done(e, [])
    else
      var slept := Since(now, e.suspendedAt.value);
      var e := e.(suspendedAt := None);
      if !healthy then
        var failed := FailMany(e, Doom(order, ProtectedPathUnavailable));
        Done(failed.engine, [Diagnostic(ResumePathInvalid, None)] + failed.actions)
      else Done(e.(flows := map k | k in e.flows :: Slept(e.flows[k], slept)), [])
  }

  function FailAll(e: Engine, reason: Reason, order: seq<nat>): Done {
    FailMany(e.(pending := map[]), Doom(order, reason))
  }

  function Stop(e: Engine, order: seq<nat>): Done {
    var failed := FailAll(e.(accepting := false), Shutdown, order);
    Done(failed.engine, [Diagnostic(ShuttingDown, None)] + failed.actions)
  }
}
