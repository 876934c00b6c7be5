/**
 One authenticated endpoint of a gateway session: phase, flow ledger, outbound scheduler and frame
 sequence numbers.  Message sizes and the outcome of envelope validation are inputs, because the
 protobuf encoding is library code.
 */
module Session {
  import opened Options
  import Q = FairQueue
  import F = FlowControl
  import G = GatewayScheduler

  const MAX_DATA_PAYLOAD: nat := 32 * 1024

  type Payload = seq<bv8>

  datatype Role = Client | Server

  datatype Phase = Active | Draining | Closed

  /** Frame bodies.  `Notice` stands for the messages without effect on streams: ping, pong, session
      rotation and error, of which a fatal error closes the session. */
  datatype Body =
    | OpenTcp(stream: nat, window: nat)
    | Opened(stream: nat, window: nat)
    | Rejected(stream: nat)
    | Data(stream: nat, payload: Payload)
    | WindowUpdate(stream: nat, credit: nat)
    | HalfClose(stream: nat)
    | CloseStream(stream: nat)
    | GoAway
    | Notice(fatal: bool)

  datatype Frame = Frame(sequence: nat, body: Body)

  datatype State = State(
    role: Role,
    phase: Phase,
    tcp: bool,
    credits: bool,
    flow: F.Ledger,
    queue: Q.Queue<Body>,
    limits: Q.Limits,
    nextSend: nat,
    nextRecv: nat)

  function ErrorOf(reason: Q.Refusal): F.Error {
    match reason
    case Backpressure => F.Backpressure
    case IntegerOverflow => F.IntegerOverflow
    case InvalidField => F.InvalidField
    case ProtocolViolation => F.ProtocolViolation
  }

  // ---------------------------------------------------------------- local calls

  /** The common tail of every local call: size the frame, reserve its place, change the ledger, queue it. */
  ghost function Commit(st: State, size: Option<nat>, body: Body, flow: F.Result<F.Ledger>,
                        base: Q.Queue<Body>): F.Result<State>
    requires Q.WellFormed(st.queue)
  {
    if size.None? then F.Err(F.InvalidFrame)
    else
      var admission := Q.ControlAdmission(st.queue, st.limits, size.value);
      if admission.Refused? then F.Err(ErrorOf(admission.reason))
      else match flow
        case Err(e) => F.Err(e)
        case Ok(l) => F.Ok(st.(flow := l, queue := Q.PushControl(base, Q.Item(body, size.value))))
  }

  predicate Usable(st: State) {
    st.phase.Active? || st.phase.Draining?
  }

  ghost function OpenTcpStream(st: State, stream: nat, window: nat, size: Option<nat>): F.Result<State>
    requires Q.WellFormed(st.queue)
  {
    if !st.phase.Active? || !st.role.Client? then F.Err(F.Closed)
    else if !st.tcp then F.Err(F.ProtocolViolation)
    else Commit(st, size, OpenTcp(stream, window), F.OpenLocal(st.flow, stream, window), st.queue)
  }

  ghost function AcceptTcp(st: State, stream: nat, window: nat, size: Option<nat>): F.Result<State>
    requires Q.WellFormed(st.queue)
  {
    if !st.phase.Active? || !st.role.Server? then F.Err(F.Closed)
    else if !st.tcp then F.Err(F.ProtocolViolation)
    else Commit(st, size, Opened(stream, window), F.AcceptRemoteOpen(st.flow, stream, window), st.queue)
  }

  ghost function RejectTcp(st: State, stream: nat, size: Option<nat>): F.Result<State>
    requires Q.WellFormed(st.queue)
  {
    if !st.phase.Active? || !st.role.Server? then F.Err(F.Closed)
    else if !st.tcp then F.Err(F.ProtocolViolation)
    else Commit(st, size, Rejected(stream), F.RejectOrClose(st.flow, stream), st.queue)
  }

  function Chunk(payload: Payload): Payload {
    if |payload| <= MAX_DATA_PAYLOAD then payload else payload[..MAX_DATA_PAYLOAD]
  }

  ghost function TryQueueData(st: State, stream: nat, payload: Payload, size: Option<nat>): F.Result<State>
    requires Q.WellFormed(st.queue)
  {
    if !Usable(st) then F.Err(F.Closed)
    else if !st.tcp then F.Err(F.ProtocolViolation)
    else if !F.ValidId(stream) then F.Err(F.InvalidStreamId)
    else if payload == [] then F.Err(F.InvalidField)
    else if size.None? then F.Err(F.InvalidFrame)
    else
      var admission := Q.StreamAdmission(st.queue, st.limits, stream, size.value);
      if admission.Refused? then F.Err(ErrorOf(admission.reason))
      else match F.DebitSend(st.flow, stream, |Chunk(payload)|)
        case Err(e) => F.Err(e)
        case Ok(l) =>
          F.Ok(st.(flow := l, queue := Q.PushStream(st.queue, stream, Q.Item(Data(stream, Chunk(payload)), size.value))))
  }

  ghost function GrantCredit(st: State, stream: nat, credit: nat, size: Option<nat>): F.Result<State>
    requires Q.WellFormed(st.queue)
  {
    if !Usable(st) then F.Err(F.Closed)
    else if !st.credits then F.Err(F.ProtocolViolation)
    else Commit(st, size, WindowUpdate(stream, credit), F.GrantReceiveCredit(st.flow, stream, credit), st.queue)
  }

  ghost function HalfCloseStream(st: State, stream: nat, size: Option<nat>): F.Result<State>
    requires Q.WellFormed(st.queue)
  {
    if !Usable(st) then F.Err(F.Closed)
    else if !st.tcp then F.Err(F.ProtocolViolation)
    else Commit(st, size, HalfClose(stream), F.LocalHalfClose(st.flow, stream), st.queue)
  }

  ghost function CloseTcp(st: State, stream: nat, size: Option<nat>): F.Result<State>
    requires Q.WellFormed(st.queue)
  {
    if !Usable(st) then F.Err(F.Closed)
    else if !st.tcp then F.Err(F.ProtocolViolation)
    else Commit(st, size, CloseStream(stream), F.RejectOrClose(st.flow, stream), Q.Cancel(st.queue, stream))
  }

  ghost function QueueNotice(st: State, fatal: bool, size: Option<nat>): F.Result<State>
    requires Q.WellFormed(st.queue)
  {
    if !Usable(st) then F.Err(F.Closed)
    else Commit(st, size, Notice(fatal), F.Ok(st.flow), st.queue)
  }

  ghost function BeginGoAway(st: State, size: Option<nat>): F.Result<State>
    requires Q.WellFormed(st.queue)
  {
    if !Usable(st) then F.Err(F.Closed)
    else match Commit(st, size, GoAway, F.Ok(st.flow), st.queue)
      case Err(e) => F.Err(e)
      case Ok(next) => F.Ok(next.(phase := Draining))
  }

  // ---------------------------------------------------------------- flushing and receiving

  datatype Flushed = Flushed(state: State, sent: Option<Frame>)

  /** How writing a frame ends: written and flushed, written although the flush failed, or not written. */
  datatype Writing = Written | Unflushed | Unwritten

  /** Pops one item and writes it.  A failure closes the session; what was written still reaches the peer. */
  ghost function Flush(st: State, writing: Writing): Flushed
    requires Q.WellFormed(st.queue)
  {
    if st.phase.Closed? || Q.Front(st.queue).Nothing? then Flushed(st, None)
    else
      var next := st.(queue := Q.Rest(st.queue), nextSend := st.nextSend + 1);
      var frame := Frame(st.nextSend, Q.Front(st.queue).item.body);
      match writing
      case Written => Flushed(next, Some(frame))
      case Unflushed => Flushed(next.(phase := Closed), Some(frame))
      case Unwritten => Flushed(next.(phase := Closed), None)
  }

  datatype Applied = Applied(state: State, status: F.Result<()>)

  function Settle(st: State, flow: F.Result<F.Ledger>): Applied {
    match flow
    case Ok(l) => Applied(st.(flow := l), F.Ok(()))
    case Err(e) => Applied(st, F.Err(e))
  }

  function ApplyInbound(st: State, body: Body): Applied {
    match body
    case OpenTcp(stream, window) =>
      if !st.tcp then Applied(st, F.Err(F.ProtocolViolation))
      else if !st.role.Server? || st.phase.Draining? then Applied(st, F.Err(F.ProtocolViolation))
      else Settle(st, F.ReceiveOpen(st.flow, stream, window))
    case Opened(stream, window) =>
      if !st.tcp || !st.role.Client? then Applied(st, F.Err(F.ProtocolViolation))
      else Settle(st, F.ConfirmLocalOpen(st.flow, stream, window))
    case Rejected(stream) =>
      if !st.tcp || !st.role.Client? then Applied(st, F.Err(F.ProtocolViolation))
      else Settle(st, F.RejectOrClose(st.flow, stream))
    case Data(stream, payload) =>
      if !st.tcp then Applied(st, F.Err(F.ProtocolViolation))
      else Settle(st, F.DebitReceive(st.flow, stream, |payload|))
    case WindowUpdate(stream, credit) =>
      if !st.credits then Applied(st, F.Err(F.ProtocolViolation))
      else Settle(st, F.ReceiveWindowUpdate(st.flow, stream, credit))
    case HalfClose(stream) =>
      if !st.tcp then Applied(st, F.Err(F.ProtocolViolation))
      else Settle(st, F.ReceiveHalfClose(st.flow, stream))
    case CloseStream(stream) =>
      if !st.tcp then Applied(st, F.Err(F.ProtocolViolation))
      else Settle(st.(queue := Q.Cancel(st.queue, stream)), F.RejectOrClose(st.flow, stream))
    case GoAway => Applied(st.(phase := Draining), F.Ok(()))
    case Notice(fatal) => Applied(if fatal then st.(phase := Closed) else st, F.Ok(()))
  }

  function Shut(a: Applied): Applied {
    if a.status.Err? then a.(state := a.state.(phase := Closed)) else a
  }

  /** Takes one frame off the transport.  Any error closes the session. */
  function Receive(st: State, frame: Frame, wellFormed: bool): Applied {
    if st.phase.Closed? then Applied(st, F.Err(F.Closed))
    else if !wellFormed then Shut(Applied(st, F.Err(F.InvalidFrame)))
    else if frame.sequence != st.nextRecv then Shut(Applied(st, F.Err(F.InvalidSequence)))
    else Shut(ApplyInbound(st.(nextRecv := st.nextRecv + 1), frame.body))
  }
}
