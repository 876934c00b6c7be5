/**
 The mutable session endpoint.  Each method performs the checks and updates of the protocol state
 machine one after the other and is proved to produce exactly the state `Session` specifies.
 */
module SessionEndpoint {
  import opened Options
  import Q = FairQueue
  import F = FlowControl
  import G = GatewayScheduler
  import opened Session

  class Endpoint {
    const role: Role
    var phase: Phase
    const tcp: bool
    const credits: bool
    const flow: F.FlowController
    const scheduler: G.FairScheduler<Body>
    var nextSend: nat
    var nextRecv: nat

    ghost function Value(): State
      reads this, flow, scheduler
    {
      State(role, phase, tcp, credits, flow.Value(), scheduler.View(), scheduler.limits, nextSend, nextRecv)
    }

    ghost predicate Valid()
      reads this, scheduler
    {
      scheduler.Valid()
    }

    ghost predicate Did(before: State, spec: F.Result<State>, r: F.Result<()>, after: State) {
      match spec
      case Ok(st) => r == F.Ok(()) && after == st
      case Err(e) => r == F.Err(e) && after == before
    }

    constructor (role: Role, tcp: bool, credits: bool, flow: F.FlowController, scheduler: G.FairScheduler<Body>)
      requires scheduler.Valid()
      ensures Valid() && this.flow == flow && this.scheduler == scheduler
      ensures Value() == State(role, Active, tcp, credits, flow.Value(), scheduler.View(), scheduler.limits, 1, 1)
    {
      this.role, this.tcp, this.credits := role, tcp, credits;
      this.flow, this.scheduler := flow, scheduler;
      phase, nextSend, nextRecv := Active, 1, 1;
    }

    /** Sizes a control frame and checks that the scheduler has room for it. */
    method ReserveControl(size: Option<nat>) returns (r: F.Result<nat>)
      requires Valid()
      ensures match r
              case Ok(n) => size == Some(n) && Q.ControlAdmission(scheduler.View(), scheduler.limits, n).Accepted?
              case Err(e) => forall body, flow, base :: Commit(Value(), size, body, flow, base) == F.Err(e)
    {
      if size.None? {
        return F.Err(F.InvalidFrame);
      }
      var room := scheduler.CanEnqueueControl(size.value);
      if room.Refused? {
        return F.Err(ErrorOf(room.reason));
      }
      return F.Ok(size.value);
    }

    method OpenTcpCall(stream: nat, window: nat, size: Option<nat>) returns (r: F.Result<()>)
      requires Valid()
      modifies flow, scheduler
      ensures Valid()
      ensures Did(old(Value()), OpenTcpStream(old(Value()), stream, window, size), r, Value())
    {
      if phase != Active || role != Client {
        return F.Err(F.Closed);
      }
      if !tcp {
        return F.Err(F.ProtocolViolation);
      }
      var reserved := ReserveControl(size);
      if reserved.Err? {
        return F.Err(reserved.error);
      }
      r := flow.OpenLocalStream(stream, window);
      if r.Err? {
        return;
      }
      var queued := scheduler.EnqueueControl(Q.Item(OpenTcp(stream, window), reserved.value));
    }

    method AcceptTcpCall(stream: nat, window: nat, size: Option<nat>) returns (r: F.Result<()>)
      requires Valid()
      modifies flow, scheduler
      ensures Valid()
      ensures Did(old(Value()), AcceptTcp(old(Value()), stream, window, size), r, Value())
    {
      if phase != Active || role != Server {
        return F.Err(F.Closed);
      }
      if !tcp {
        return F.Err(F.ProtocolViolation);
      }
      var reserved := ReserveControl(size);
      if reserved.Err? {
        return F.Err(reserved.error);
      }
      r := flow.AcceptRemote(stream, window);
      if r.Err? {
        return;
      }
      var queued := scheduler.EnqueueControl(Q.Item(Opened(stream, window), reserved.value));
    }

    method RejectTcpCall(stream: nat, size: Option<nat>) returns (r: F.Result<()>)
      requires Valid()
      modifies flow, scheduler
      ensures Valid()
      ensures Did(old(Value()), RejectTcp(old(Value()), stream, size), r, Value())
    {
      if phase != Active || role != Server {
        return F.Err(F.Closed);
      }
      if !tcp {
        return F.Err(F.ProtocolViolation);
      }
      var reserved := ReserveControl(size);
      if reserved.Err? {
        return F.Err(reserved.error);
      }
      r := flow.Remove(stream);
      if r.Err? {
        return;
      }
      var queued := scheduler.EnqueueControl(Q.Item(Rejected(stream), reserved.value));
    }

    /** Queues at most one DATA frame and reports how much of the payload it took. */
    method TryQueueDataCall(stream: nat, payload: Payload, size: Option<nat>) returns (r: F.Result<nat>)
      requires Valid()
      modifies flow, scheduler
      ensures Valid()
      ensures var spec := TryQueueData(old(Value()), stream, payload, size);
              match spec
              case Ok(st) => Value() == st && r.Ok?
              case Err(e) => Value() == old(Value()) && r == F.Err(e)
      ensures r.Ok? ==>
                && r.value == (if |payload| < MAX_DATA_PAYLOAD then |payload| else MAX_DATA_PAYLOAD) && size.Some?
                && Q.Pending(scheduler.View(), stream)
                   == old(Q.Pending(scheduler.View(), stream)) + [Q.Item(Data(stream, payload[..r.value]), size.value)]
    {
      if phase == Closed {
        return F.Err(F.Closed);
      }
      if !tcp {
        return F.Err(F.ProtocolViolation);
      }
      if !F.ValidId(stream) {
        return F.Err(F.InvalidStreamId);
      }
      if |payload| == 0 {
        return F.Err(F.InvalidField);
      }
      var consumed := if |payload| < MAX_DATA_PAYLOAD then |payload| else MAX_DATA_PAYLOAD;
      assert payload[..consumed] == Chunk(payload);
      if size.None? {
        return F.Err(F.InvalidFrame);
      }
      var room := scheduler.CanEnqueueStream(stream, size.value);
      if room.Refused? {
        return F.Err(ErrorOf(room.reason));
      }
      var debited := flow.Send(stream, consumed);
      if debited.Err? {
        return F.Err(debited.error);
      }
      var queued := scheduler.EnqueueStream(stream, Q.Item(Data(stream, payload[..consumed]), size.value));
      return F.Ok(consumed);
    }

    method GrantReceiveCredit(stream: nat, credit: nat, size: Option<nat>) returns (r: F.Result<()>)
      requires Valid()
      modifies flow, scheduler
      ensures Valid()
      ensures Did(old(Value()), GrantCredit(old(Value()), stream, credit, size), r, Value())
    {
      if phase == Closed {
        return F.Err(F.Closed);
      }
      if !credits {
        return F.Err(F.ProtocolViolation);
      }
      var reserved := ReserveControl(size);
      if reserved.Err? {
        return F.Err(reserved.error);
      }
      r := flow.Grant(stream, credit);
      if r.Err? {
        return;
      }
      var queued := scheduler.EnqueueControl(Q.Item(WindowUpdate(stream, credit), reserved.value));
    }

    method HalfCloseCall(stream: nat, size: Option<nat>) returns (r: F.Result<()>)
      requires Valid()
      modifies flow, scheduler
      ensures Valid()
      ensures Did(old(Value()), HalfCloseStream(old(Value()), stream, size), r, Value())
    {
      if phase == Closed {
        return F.Err(F.Closed);
      }
      if !tcp {
        return F.Err(F.ProtocolViolation);
      }
      var reserved := ReserveControl(size);
      if reserved.Err? {
        return F.Err(reserved.error);
      }
      r := flow.HalfCloseLocal(stream);
      if r.Err? {
        return;
      }
      var queued := scheduler.EnqueueControl(Q.Item(HalfClose(stream), reserved.value));
    }

    /** Closing cancels the queued DATA first, so the place reserved for the close frame is still free. */
    method CloseStreamCall(stream: nat, size: Option<nat>) returns (r: F.Result<()>)
      requires Valid()
      modifies flow, scheduler
      ensures Valid()
      ensures Did(old(Value()), CloseTcp(old(Value()), stream, size), r, Value())
    {
      if phase == Closed {
        return F.Err(F.Closed);
      }
      if !tcp {
        return F.Err(F.ProtocolViolation);
      }
      var reserved := ReserveControl(size);
      if reserved.Err? {
        return F.Err(reserved.error);
      }
      r := flow.Remove(stream);
      if r.Err? {
        return;
      }
      Q.CancelKeeps(scheduler.View(), stream);
      scheduler.CancelStream(stream);
      var queued := scheduler.EnqueueControl(Q.Item(CloseStream(stream), reserved.value));
    }

    method QueueNoticeCall(fatal: bool, size: Option<nat>) returns (r: F.Result<()>)
      requires Valid()
      modifies scheduler
      ensures Valid()
      ensures Did(old(Value()), QueueNotice(old(Value()), fatal, size), r, Value())
    {
      if phase == Closed {
        return F.Err(F.Closed);
      }
      r := QueueControlBody(Notice(fatal), size);
    }

    method QueueControlBody(body: Body, size: Option<nat>) returns (r: F.Result<()>)
      requires Valid()
      modifies scheduler
      ensures Valid()
      ensures var was := old(Value()); Did(was, Commit(was, size, body, F.Ok(was.flow), was.queue), r, Value())
    {
      if size.None? {
        return F.Err(F.InvalidFrame);
      }
      var queued := scheduler.EnqueueControl(Q.Item(body, size.value));
      return if queued.Refused? then F.Err(ErrorOf(queued.reason)) else F.Ok(());
    }

    method BeginGoAwayCall(size: Option<nat>) returns (r: F.Result<()>)
      requires Valid()
      modifies this, scheduler
      ensures Valid()
      ensures Did(old(Value()), BeginGoAway(old(Value()), size), r, Value())
    {
      if phase == Closed {
        return F.Err(F.Closed);
      }
      r := QueueControlBody(GoAway, size);
      if r.Ok? {
        phase := Draining;
      }
    }

    method FlushOne(writing: Writing) returns (sent: Option<Frame>)
      requires Valid()
      modifies this, scheduler
      ensures Valid()
      ensures Flushed(Value(), sent) == Flush(old(Value()), writing)
    {
      if phase == Closed {
        return None;
      }
      var item := scheduler.PopNext();
      if item.None? {
        return None;
      }
      var sequence := nextSend;
      nextSend := nextSend + 1;
      if writing != Written {
        phase := Closed;
      }
      return if writing == Unwritten then None else Some(Frame(sequence, item.value.body));
    }

    method ApplyActiveInbound(body: Body) returns (r: F.Result<()>)
      requires Valid()
      modifies this, flow, scheduler
      ensures Valid()
      ensures Applied(Value(), r) == ApplyInbound(old(Value()), body)
    {
      match body {
        case OpenTcp(stream, window) =>
          if !tcp {
            return F.Err(F.ProtocolViolation);
          }
          if role != Server || phase == Draining {
            return F.Err(F.ProtocolViolation);
          }
          r := flow.ReceiveOpenStream(stream, window);
        case Opened(stream, window) =>
          if !tcp || role != Client {
            return F.Err(F.ProtocolViolation);
          }
          r := flow.ConfirmLocal(stream, window);
        case Rejected(stream) =>
          if !tcp || role != Client {
            return F.Err(F.ProtocolViolation);
          }
          r := flow.Remove(stream);
        case Data(stream, payload) =>
          if !tcp {
            return F.Err(F.ProtocolViolation);
          }
          r := flow.Receive(stream, |payload|);
        case WindowUpdate(stream, credit) =>
          if !credits {
            return F.Err(F.ProtocolViolation);
          }
          r := flow.WindowUpdate(stream, credit);
        case HalfClose(stream) =>
          if !tcp {
            return F.Err(F.ProtocolViolation);
          }
          r := flow.HalfCloseRemote(stream);
        case CloseStream(stream) =>
          if !tcp {
            return F.Err(F.ProtocolViolation);
          }
          scheduler.CancelStream(stream);
          r := flow.Remove(stream);
        case GoAway =>
          phase := Draining;
          return F.Ok(());
        case Notice(fatal) =>
          if fatal {
            phase := Closed;
          }
          return F.Ok(());
      }
    }

    method ReceiveFrame(frame: Frame, wellFormed: bool) returns (r: F.Result<()>)
      requires Valid()
      modifies this, flow, scheduler
      ensures Valid()
      ensures Applied(Value(), r) == Receive(old(Value()), frame, wellFormed)
    {
      hide ApplyInbound;
      if phase == Closed {
        return F.Err(F.Closed);
      }
      if !wellFormed {
        phase := Closed;
        return F.Err(F.InvalidFrame);
      }
      if frame.sequence != nextRecv {
        phase := Closed;
        return F.Err(F.InvalidSequence);
      }
      nextRecv := nextRecv + 1;
      ghost var counted := Value();
      r := ApplyActiveInbound(frame.body);
      ghost var applied := ApplyInbound(counted, frame.body);
      if r.Err? {
        phase := Closed;
      }
      assert Applied(Value(), r) == Shut(applied);
    }
  }
}
