/**
 One locally terminated TCP flow: its record, the actions the engine asks for, and what a segment of
 the application, an event of the protected stream or the clock does to the record. Sequence numbers
 are 32-bit and wrap (section 3.4 of RFC 9293).
 */
module TcpFlow {
  import opened Bytes
  import opened Options
  import opened Packet

  const U64_MAX: nat := 0xFFFF_FFFF_FFFF_FFFF

  datatype Endpoint = Endpoint(address: Address, port: nat)

  datatype Key = Key(source: Endpoint, destination: Endpoint)

  datatype Config = Config(
    maxFlows: nat, maxPendingDns: nat,
    toGatewayBytes: nat, toApplicationBytes: nat,
    connectionTimeout: nat, idleTimeout: nat,
    retransmitInterval: nat, maxRetransmissions: nat,
    receiveWindow: nat)

  predicate ValidConfig(c: Config) {
    && c.maxFlows > 0 && c.maxPendingDns > 0
    && c.toGatewayBytes > 0 && c.toApplicationBytes > 0
    && c.connectionTimeout > 0 && c.idleTimeout > 0
    && c.retransmitInterval > 0 && 0 < c.maxRetransmissions < 256
    && 0 < c.receiveWindow < WORD && c.receiveWindow <= c.toGatewayBytes
    && c.toApplicationBytes < WORD
  }

  datatype FlowState = Connecting | SynAckSent | Established | HalfClosedLocal | HalfClosedRemote | Closing

  datatype Outstanding = Outstanding(
    sequence: nat, acknowledgement: nat, flags: Flags, payload: seq<byte>, sentMs: nat, retransmissions: nat)

  datatype Flow = Flow(
    id: nat, key: Key,
    createdMs: nat, lastActivityMs: nat, connectStartedMs: Option<nat>,
    state: FlowState,
    queuedToGateway: nat, queuedToApplication: nat,
    clientNext: nat, serverNext: nat,
    dns: bool, buffer: seq<byte>,
    outstanding: Option<Outstanding>)

  datatype Reason =
    | MalformedPacket | Ipv6Blocked | UdpBlocked | QuicBlocked | IcmpUnsupported | UnsupportedTransport
    | PolicyDenied | DirectFallbackForbidden | ProtectedPathUnavailable | Backpressure
    | ConnectionTimeout | IdleTimeout | Shutdown | DownstreamFailure

  datatype Code =
    | BadPacket | Retransmission | OutOfOrder | FlowLimit | BufferLimit | UnknownFlow | ResumePathInvalid | ShuttingDown

  datatype DnsTarget = UdpTarget(client: Endpoint, resolver: Endpoint) | TcpTarget(flow: nat)

  /** What the engine asks its caller to do. `SendTcp` names the flow its packet answers. */
  datatype Action =
    | OpenStream(flow: nat, destination: Endpoint)
    | ForwardPayload(flow: nat, payload: seq<byte>)
    | ResolveDns(query: nat, wire: seq<byte>, target: DnsTarget)
    | CloseWrite(flow: nat)
    | CloseBoth(flow: nat)
    | SendTcp(origin: Option<nat>, segment: Segment)
    | SendUdp(datagram: Datagram)
    | BlockFlow(about: Option<nat>, reason: Reason)
    | Diagnostic(code: Code, about: Option<nat>)

  const MAX_DNS_MESSAGE_BYTES: nat := 65536

  const SYN_ACK := Flags(false, true, false, false, true)
  const ACK := Flags(false, false, false, false, true)
  const PSH_ACK := Flags(false, false, false, true, true)
  const FIN_ACK := Flags(true, false, false, false, true)
  const RST_ACK := Flags(false, false, true, false, true)

  // ---------------------------------------------------------------- sequence arithmetic

  function Plus(sequence: nat, n: nat): (r: nat)
    ensures r < WRAP
  {
    (sequence + n) % WRAP
  }

  function Minus(sequence: nat, n: nat): (r: nat)
    ensures r < WRAP
  {
    (sequence + WRAP - n % WRAP) % WRAP
  }

  /** The signed 32-bit difference is negative. */
  predicate SequenceBefore(left: nat, right: nat) {
    Minus(left, right) >= 0x8000_0000
  }

  function Since(now: nat, then_: nat): nat {
    if now >= then_ then now - then_ else 0
  }

  function SaturatingAdd(a: nat, b: nat): nat {
    if a + b <= U64_MAX then a + b else U64_MAX
  }

  // ---------------------------------------------------------------- packets towards the application

  function Reply(f: Flow, sequence: nat, acknowledgement: nat, flags: Flags, window: nat, payload: seq<byte>): Action {
    SendTcp(Some(f.id), Segment(
      f.key.destination.address, f.key.source.address, f.key.destination.port, f.key.source.port,
      sequence, acknowledgement, window, flags, payload))
  }

  function AckReply(c: Config, f: Flow): Action {
    Reply(f, f.serverNext, f.clientNext, ACK, c.receiveWindow, [])
  }

  function SynAckReply(c: Config, f: Flow): Action {
    Reply(f, Minus(f.serverNext, 1), f.clientNext, SYN_ACK, c.receiveWindow, [])
  }

  function ResetReply(f: Flow): Action {
    Reply(f, f.serverNext, f.clientNext, RST_ACK, 0, [])
  }

  // ---------------------------------------------------------------- DNS messages on a byte stream

  datatype Drained = Drained(queries: seq<seq<byte>>, rest: seq<byte>, stop: Ending)

  datatype Ending = Waiting | Malformed | Full

  /** Takes complete length-prefixed messages off the buffer while there is room for pending queries. */
  function Drain(buffer: seq<byte>, room: nat): (r: Drained)
    ensures |r.queries| <= room
    decreases |buffer|
  {
    if |buffer| < 2 then Drained([], buffer, Waiting)
    else
      var length := Be16(buffer[0], buffer[1]);
      if length == 0 || length > MAX_DNS_MESSAGE_BYTES then Drained([], buffer, Malformed)
      else if |buffer| < length + 2 then Drained([], buffer, Waiting)
      else if room == 0 then Drained([], buffer, Full)
      else
        var more := Drain(buffer[length + 2..], room - 1);
        Drained([buffer[2..length + 2]] + more.queries, more.rest, more.stop)
  }

  function Resolves(queries: seq<seq<byte>>, firstId: nat, flow: nat): (r: seq<Action>)
    ensures |r| == |queries|
  {
    seq(|queries|, i requires 0 <= i < |queries| => ResolveDns(firstId + i, queries[i], TcpTarget(flow)))
  }

  // ---------------------------------------------------------------- a segment on a known flow

  datatype Outcome = Outcome(flow: Flow, removed: bool, actions: seq<Action>, queries: seq<seq<byte>>)

  /** Work on one segment in progress. */
  datatype Work = Work(flow: Flow, actions: seq<Action>, reset: bool, queries: seq<seq<byte>>)

  function Kept(f: Flow, actions: seq<Action>): Outcome {
    Outcome(f, false, actions, [])
  }

  function Note(f: Flow, code: Code): Action {
    Diagnostic(code, Some(f.id))
  }

  predicate CompletesHandshake(f: Flow, s: Segment) {
    s.flags.ack && s.acknowledgement == f.serverNext && s.sequence == f.clientNext
  }

  function Promoted(f: Flow): Flow {
    if f.state.SynAckSent? then f.(state := Established, connectStartedMs := None) else f
  }

  function Existing(c: Config, f: Flow, s: Segment, now: nat, room: nat, firstId: nat): Outcome
  {
    var f := f.(lastActivityMs := now);
    if s.flags.syn then
      Kept(f, [Note(f, Retransmission)] + if f.state.SynAckSent? then [SynAckReply(c, f)] else [])
    else if f.state.Connecting? then Kept(f, [])
    else if f.state.SynAckSent? && !CompletesHandshake(f, s) then Kept(f, [Note(f, OutOfOrder), SynAckReply(c, f)])
    else if (s.payload != [] || s.flags.fin) && !s.flags.ack then
      Kept(Promoted(f), [Note(f, OutOfOrder), AckReply(c, f)])
    else Synchronized(c, Promoted(f), s, room, firstId)
  }

  /** The acknowledgement field releases the outstanding segment. */
  function Released(f: Flow, s: Segment): Flow {
    if s.flags.ack && s.acknowledgement == f.serverNext && f.outstanding.Some? then
      f.(outstanding := None, queuedToApplication := 0)
    else f
  }

  predicate Finished(f: Flow, s: Segment) {
    && f.state.Closing? && s.flags.ack && s.acknowledgement == f.serverNext
    && f.outstanding.None? && s.payload == [] && !s.flags.fin
  }

  function Synchronized(c: Config, f: Flow, s: Segment, room: nat, firstId: nat): Outcome
  {
    if s.flags.ack && SequenceBefore(f.serverNext, s.acknowledgement) then
      Conclude(Work(f, [BlockFlow(Some(f.id), MalformedPacket), Note(f, OutOfOrder)], true, []), false)
    else
      var f := Released(f, s);
      if Finished(f, s) then Outcome(f, true, [CloseBoth(f.id)], [])
      else TakeFin(c, TakeQueries(TakePayload(c, f, s), room, firstId), s)
  }

  function Refused(f: Flow, reason: Reason, code: Code): Work {
    Work(f, [BlockFlow(Some(f.id), reason), Note(f, code)], true, [])
  }

  function TakePayload(c: Config, f: Flow, s: Segment): (w: Work)
    ensures w.queries == []
  {
    if s.payload == [] then Work(f, [], false, [])
    else if f.state.HalfClosedLocal? || f.state.Closing? then Refused(f, MalformedPacket, OutOfOrder)
    else if s.sequence == f.clientNext then
      if f.dns then
        if |f.buffer| + |s.payload| > c.toGatewayBytes then Refused(f, Backpressure, BufferLimit)
        else
          var f := f.(buffer := f.buffer + s.payload, clientNext := Plus(f.clientNext, |s.payload|));
          Work(f, [AckReply(c, f)], false, [])
      else if f.queuedToGateway + |s.payload| > c.toGatewayBytes then Refused(f, Backpressure, BufferLimit)
      else
        Work(f.(queuedToGateway := f.queuedToGateway + |s.payload|, clientNext := Plus(f.clientNext, |s.payload|)),
             [ForwardPayload(f.id, s.payload)], false, [])
    else if SequenceBefore(s.sequence, f.clientNext) then
      Work(f, [Note(f, Retransmission), AckReply(c, f)], false, [])
    else
      Work(f, [Note(f, OutOfOrder), AckReply(c, f)], false, [])
  }

  function StopActions(f: Flow, stop: Ending): seq<Action> {
    match stop
    case Waiting => []
    case Malformed => [BlockFlow(Some(f.id), MalformedPacket)]
    case Full => [BlockFlow(Some(f.id), Backpressure)]
  }

  function TakeQueries(w: Work, room: nat, firstId: nat): Work {
    if !w.flow.dns || w.reset then w
    else
      var d := Drain(w.flow.buffer, room);
      Work(w.flow.(buffer := d.rest), w.actions + Resolves(d.queries, firstId, w.flow.id) + StopActions(w.flow, d.stop),
           !d.stop.Waiting?, d.queries)
  }

  /** The FIN of the segment is next in sequence. */
  predicate FinIsNext(f: Flow, s: Segment) {
    s.flags.fin && Plus(s.sequence, |s.payload|) == f.clientNext
  }

  function TakeFin(c: Config, w: Work, s: Segment): Outcome {
    var f := w.flow;
    if w.reset then Conclude(w, false)
    else if FinIsNext(f, s) then
      var g := f.(clientNext := Plus(f.clientNext, 1), state := if f.state.HalfClosedRemote? then Closing else HalfClosedLocal);
      if f.state.HalfClosedRemote? then
        Conclude(w.(flow := g, actions := w.actions + [CloseBoth(f.id)] + if s.payload == [] then [AckReply(c, g)] else []),
                 s.payload == [])
      else
        Conclude(w.(flow := g,
                    actions := w.actions + (if f.dns then [] else [CloseWrite(f.id)])
                               + if f.dns || s.payload == [] then [AckReply(c, g)] else []),
                 false)
    else if s.flags.fin && Plus(Plus(s.sequence, |s.payload|), 1) == f.clientNext then
      Conclude(w.(actions := w.actions + [Note(f, Retransmission), AckReply(c, f)]), false)
    else Conclude(w, false)
  }

  function Conclude(w: Work, graceful: bool): Outcome {
    if w.reset then Outcome(w.flow, true, w.actions + [ResetReply(w.flow), CloseBoth(w.flow.id)], w.queries)
    else Outcome(w.flow, graceful, w.actions, w.queries)
  }

  // ---------------------------------------------------------------- events of the protected stream

  function StreamOpened(c: Config, f: Flow, now: nat): Outcome {
    if !f.state.Connecting? then Kept(f, [])
    else
      var f := f.(state := SynAckSent, lastActivityMs := now);
      Kept(f, [SynAckReply(c, f)])
  }

  function Forwarded(c: Config, f: Flow, bytes: nat, now: nat): Outcome {
    var f := f.(queuedToGateway := Since(f.queuedToGateway, bytes), lastActivityMs := now);
    Outcome(f, f.state.Closing? && f.outstanding.None?, [AckReply(c, f)], [])
  }

  predicate Receptive(f: Flow) {
    f.outstanding.None? && (f.state.Established? || f.state.HalfClosedLocal?)
  }

  function Capacity(c: Config, f: Flow): nat {
    if Receptive(f) then c.toApplicationBytes else 0
  }

  /** Sends one new segment to the application and keeps it until it is acknowledged. */
  function Emit(c: Config, f: Flow, flags: Flags, payload: seq<byte>, now: nat): Outcome {
    var length := |payload| + if flags.fin then 1 else 0;
    Kept(f.(lastActivityMs := now, serverNext := Plus(f.serverNext, length),
            outstanding := Some(Outstanding(f.serverNext, f.clientNext, flags, payload, now, 0))),
         [Reply(f, f.serverNext, f.clientNext, flags, c.receiveWindow, payload)])
  }

  predicate Accepts(c: Config, f: Flow, payload: seq<byte>) {
    |payload| <= c.toApplicationBytes && Receptive(f)
  }

  function StreamPayload(c: Config, f: Flow, payload: seq<byte>, now: nat): Outcome
    requires Accepts(c, f, payload)
  {
    Emit(c, f.(queuedToApplication := |payload|), PSH_ACK, payload, now)
  }

  function StreamClosed(c: Config, f: Flow, now: nat): Outcome
    requires Receptive(f)
  {
    Emit(c, f.(state := if f.state.HalfClosedLocal? then Closing else HalfClosedRemote), FIN_ACK, [], now)
  }

  function FailActions(f: Flow, reason: Reason): seq<Action> {
    [ResetReply(f), BlockFlow(Some(f.id), reason), CloseBoth(f.id)]
  }

  // ---------------------------------------------------------------- the clock

  function Expiry(c: Config, f: Flow, now: nat): Option<Reason> {
    if (f.state.Connecting? || f.state.SynAckSent?)
       && Since(now, if f.connectStartedMs.Some? then f.connectStartedMs.value else f.createdMs) >= c.connectionTimeout then
      Some(ConnectionTimeout)
    else if Since(now, f.lastActivityMs) >= c.idleTimeout then Some(IdleTimeout)
    else if f.outstanding.Some? && Since(now, f.outstanding.value.sentMs) >= c.retransmitInterval
            && f.outstanding.value.retransmissions >= c.maxRetransmissions then Some(IdleTimeout)
    else None
  }

  predicate Retransmits(c: Config, f: Flow, now: nat) {
    && Expiry(c, f, now).None?
    && f.outstanding.Some? && Since(now, f.outstanding.value.sentMs) >= c.retransmitInterval
  }

  function Ticked(c: Config, f: Flow, now: nat): Flow {
    if Retransmits(c, f, now) then
      var o := f.outstanding.value;
      f.(outstanding := Some(o.(retransmissions := o.retransmissions + 1, sentMs := now)))
    else f
  }

  function TickActions(c: Config, f: Flow, now: nat): seq<Action> {
    if Retransmits(c, f, now) then
      var o := f.outstanding.value;
      [Note(f, Retransmission), Reply(f, o.sequence, o.acknowledgement, o.flags, c.receiveWindow, o.payload)]
    else []
  }

  function Slept(f: Flow, slept: nat): Flow {
    f.(createdMs := SaturatingAdd(f.createdMs, slept),
       lastActivityMs := SaturatingAdd(f.lastActivityMs, slept),
       connectStartedMs := if f.connectStartedMs.Some? then Some(SaturatingAdd(f.connectStartedMs.value, slept)) else None)
  }
}
