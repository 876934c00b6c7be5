/**
 The two-level credit ledger of one session endpoint: a connection window and a window per
 stream in each direction.
 */
module FlowControl {

  const U64_MAX: nat := 0xFFFF_FFFF_FFFF_FFFF
  const MAX_STREAM_WINDOW: nat := 4 * 1024 * 1024
  const MAX_CONNECTION_WINDOW: nat := 16 * 1024 * 1024

  datatype StreamPhase = OpeningLocal | OpeningRemote | Open

  datatype Stream = Stream(phase: StreamPhase, send: nat, recv: nat, localClosed: bool, remoteClosed: bool)

  datatype Ledger = Ledger(
    connSend: nat,
    connRecv: nat,
    maxStreams: nat,
    maxSeen: nat,
    streams: map<nat, Stream>)

  datatype Error =
    | InvalidField | InvalidStreamId | InvalidSequence | InvalidFrame | StreamLimit | ProtocolViolation
    | Backpressure | Closed | FlowControlViolation | IntegerOverflow

  datatype Result<+T> = Ok(value: T) | Err(error: Error)

  // ---------------------------------------------------------------- checks

  /** Client stream identifiers are odd. */
  predicate ValidId(stream: nat) {
    stream % 2 == 1
  }

  predicate WindowOk(window: nat) {
    0 < window <= MAX_STREAM_WINDOW
  }

  function CheckedCreditAdd(current: nat, credit: nat, maximum: nat): (r: Result<nat>)
    ensures r.Ok? ==> r.value == current + credit <= maximum
    ensures current + credit <= maximum <= U64_MAX ==> r.Ok?
  {
    if current + credit > U64_MAX then Err(IntegerOverflow)
    else if current + credit > maximum then Err(FlowControlViolation)
    else Ok(current + credit)
  }

  function Lookup(l: Ledger, stream: nat): Result<Stream> {
    if !ValidId(stream) then Err(InvalidStreamId)
    else if stream !in l.streams then Err(InvalidStreamId)
    else Ok(l.streams[stream])
  }

  function Put(l: Ledger, stream: nat, s: Stream): Ledger {
    l.(streams := l.streams[stream := s])
  }

  // ---------------------------------------------------------------- operations

  function InsertStream(l: Ledger, stream: nat, phase: StreamPhase, send: nat, recv: nat): Result<Ledger> {
    if !ValidId(stream) then Err(InvalidStreamId)
    else if stream <= l.maxSeen || stream in l.streams then Err(InvalidStreamId)
    else if |l.streams| >= l.maxStreams then Err(StreamLimit)
    else if send != 0 && !WindowOk(send) then Err(InvalidField)
    else if recv != 0 && !WindowOk(recv) then Err(InvalidField)
    else Ok(Put(l.(maxSeen := stream), stream, Stream(phase, send, recv, false, false)))
  }

  function OpenLocal(l: Ledger, stream: nat, window: nat): Result<Ledger> {
    InsertStream(l, stream, OpeningLocal, 0, window)
  }

  function ReceiveOpen(l: Ledger, stream: nat, window: nat): Result<Ledger> {
    InsertStream(l, stream, OpeningRemote, window, 0)
  }

  function ConfirmLocalOpen(l: Ledger, stream: nat, window: nat): Result<Ledger> {
    if !WindowOk(window) then Err(InvalidField)
    else match Lookup(l, stream)
      case Err(e) => Err(e)
      case Ok(s) =>
        if s.phase != OpeningLocal then Err(ProtocolViolation)
        else Ok(Put(l, stream, s.(phase := Open, send := window)))
  }

  function AcceptRemoteOpen(l: Ledger, stream: nat, window: nat): Result<Ledger> {
    if !WindowOk(window) then Err(InvalidField)
    else match Lookup(l, stream)
      case Err(e) => Err(e)
      case Ok(s) =>
        if s.phase != OpeningRemote then Err(ProtocolViolation)
        else Ok(Put(l, stream, s.(phase := Open, recv := window)))
  }

  function RejectOrClose(l: Ledger, stream: nat): Result<Ledger> {
    match Lookup(l, stream)
    case Err(e) => Err(e)
    case Ok(_) => Ok(l.(streams := l.streams - {stream}))
  }

  function DebitSend(l: Ledger, stream: nat, bytes: nat): Result<Ledger> {
    if bytes == 0 then Err(InvalidField)
    else if l.connSend < bytes then Err(Backpressure)
    else match Lookup(l, stream)
      case Err(e) => Err(e)
      case Ok(s) =>
        if s.phase != Open || s.localClosed then Err(Closed)
        else if s.send < bytes then Err(Backpressure)
        else Ok(Put(l.(connSend := l.connSend - bytes), stream, s.(send := s.send - bytes)))
  }

  function DebitReceive(l: Ledger, stream: nat, bytes: nat): Result<Ledger> {
    if bytes == 0 || l.connRecv < bytes || stream !in l.streams
       || l.streams[stream].phase != Open || l.streams[stream].remoteClosed || l.streams[stream].recv < bytes
    then Err(FlowControlViolation)
    else if !ValidId(stream) then Err(InvalidStreamId)
    else
      var s := l.streams[stream];
      Ok(Put(l.(connRecv := l.connRecv - bytes), stream, s.(recv := s.recv - bytes)))
  }

  function ReceiveWindowUpdate(l: Ledger, stream: nat, credit: nat): Result<Ledger> {
    if credit == 0 then Err(FlowControlViolation)
    else if stream == 0 then
      match CheckedCreditAdd(l.connSend, credit, MAX_CONNECTION_WINDOW)
      case Err(e) => Err(e)
      case Ok(n) => Ok(l.(connSend := n))
    else match Lookup(l, stream)
      case Err(e) => Err(e)
      case Ok(s) =>
        match CheckedCreditAdd(s.send, credit, MAX_STREAM_WINDOW)
        case Err(e) => Err(e)
        case Ok(n) => Ok(Put(l, stream, s.(send := n)))
  }

  function GrantReceiveCredit(l: Ledger, stream: nat, credit: nat): Result<Ledger> {
    if credit == 0 then Err(InvalidField)
    else if stream == 0 then
      match CheckedCreditAdd(l.connRecv, credit, MAX_CONNECTION_WINDOW)
      case Err(e) => Err(e)
      case Ok(n) => Ok(l.(connRecv := n))
    else match Lookup(l, stream)
      case Err(e) => Err(e)
      case Ok(s) =>
        match CheckedCreditAdd(s.recv, credit, MAX_STREAM_WINDOW)
        case Err(e) => Err(e)
        case Ok(n) => Ok(Put(l, stream, s.(recv := n)))
  }

  function LocalHalfClose(l: Ledger, stream: nat): Result<Ledger> {
    match Lookup(l, stream)
    case Err(e) => Err(e)
    case Ok(s) =>
      if s.phase != Open || s.localClosed then Err(Closed)
      else Ok(Put(l, stream, s.(localClosed := true)))
  }

  function ReceiveHalfClose(l: Ledger, stream: nat): Result<Ledger> {
    match Lookup(l, stream)
    case Err(e) => Err(e)
    case Ok(s) =>
      if s.phase != Open || s.remoteClosed then Err(ProtocolViolation)
      else Ok(Put(l, stream, s.(remoteClosed := true)))
  }

  // ---------------------------------------------------------------- the mutable ledger

  class FlowController {
    var connectionSendWindow: nat
    var connectionReceiveWindow: nat
    var maximumConcurrentStreams: nat
    var maximumSeenStreamId: nat
    var streams: map<nat, Stream>

    function Value(): Ledger
      reads this
    {
      Ledger(connectionSendWindow, connectionReceiveWindow, maximumConcurrentStreams, maximumSeenStreamId, streams)
    }

    /** What a method did: either the specified new ledger, or the specified error and no change. */
    static predicate Did(before: Ledger, spec: Result<Ledger>, r: Result<()>, after: Ledger) {
      match spec
      case Ok(l) => r == Ok(()) && after == l
      case Err(e) => r == Err(e) && after == before
    }

    constructor (peerWindow: nat, localWindow: nat, maxStreams: nat)
      ensures Value() == Ledger(peerWindow, localWindow, maxStreams, 0, map[])
    {
      connectionSendWindow, connectionReceiveWindow := peerWindow, localWindow;
      maximumConcurrentStreams, maximumSeenStreamId, streams := maxStreams, 0, map[];
    }

    static method Create(peerWindow: nat, localWindow: nat, maxStreams: nat) returns (r: Result<FlowController>)
      ensures r.Ok? <==> 0 < peerWindow <= MAX_CONNECTION_WINDOW && 0 < localWindow <= MAX_CONNECTION_WINDOW && 0 < maxStreams
      ensures r.Ok? ==> fresh(r.value) && r.value.Value() == Ledger(peerWindow, localWindow, maxStreams, 0, map[])
    {
      if peerWindow == 0 || localWindow == 0 || peerWindow > MAX_CONNECTION_WINDOW
         || localWindow > MAX_CONNECTION_WINDOW || maxStreams == 0
      {
        return Err(InvalidField);
      }
      var flow := new FlowController(peerWindow, localWindow, maxStreams);
      return Ok(flow);
    }

    method InsertNewStream(stream: nat, phase: StreamPhase, send: nat, recv: nat) returns (r: Result<()>)
      modifies this
      ensures Did(old(Value()), InsertStream(old(Value()), stream, phase, send, recv), r, Value())
    {
      if !ValidId(stream) {
        return Err(InvalidStreamId);
      }
      if stream <= maximumSeenStreamId || stream in streams {
        return Err(InvalidStreamId);
      }
      if |streams| >= maximumConcurrentStreams {
        return Err(StreamLimit);
      }
      if send != 0 && !WindowOk(send) {
        return Err(InvalidField);
      }
      if recv != 0 && !WindowOk(recv) {
        return Err(InvalidField);
      }
      maximumSeenStreamId := stream;
      streams := streams[stream := Stream(phase, send, recv, false, false)];
      return Ok(());
    }

    method OpenLocalStream(stream: nat, window: nat) returns (r: Result<()>)
      modifies this
      ensures Did(old(Value()), OpenLocal(old(Value()), stream, window), r, Value())
    {
      r := InsertNewStream(stream, OpeningLocal, 0, window);
    }

    method ReceiveOpenStream(stream: nat, window: nat) returns (r: Result<()>)
      modifies this
      ensures Did(old(Value()), ReceiveOpen(old(Value()), stream, window), r, Value())
    {
      r := InsertNewStream(stream, OpeningRemote, window, 0);
    }

    method StreamOf(stream: nat) returns (r: Result<Stream>)
      ensures r == Lookup(Value(), stream)
    {
      if !ValidId(stream) {
        return Err(InvalidStreamId);
      }
      if stream !in streams {
        return Err(InvalidStreamId);
      }
      return Ok(streams[stream]);
    }

    method ConfirmLocal(stream: nat, window: nat) returns (r: Result<()>)
      modifies this
      ensures Did(old(Value()), ConfirmLocalOpen(old(Value()), stream, window), r, Value())
    {
      if !WindowOk(window) {
        return Err(InvalidField);
      }
      var found := StreamOf(stream);
      if found.Err? {
        return Err(found.error);
      }
      var s := found.value;
      if s.phase != OpeningLocal {
        return Err(ProtocolViolation);
      }
      s := s.(phase := Open);
      s := s.(send := window);
      streams := streams[stream := s];
      return Ok(());
    }

    method AcceptRemote(stream: nat, window: nat) returns (r: Result<()>)
      modifies this
      ensures Did(old(Value()), AcceptRemoteOpen(old(Value()), stream, window), r, Value())
    {
      if !WindowOk(window) {
        return Err(InvalidField);
      }
      var found := StreamOf(stream);
      if found.Err? {
        return Err(found.error);
      }
      var s := found.value;
      if s.phase != OpeningRemote {
        return Err(ProtocolViolation);
      }
      s := s.(phase := Open);
      s := s.(recv := window);
      streams := streams[stream := s];
      return Ok(());
    }

    method Remove(stream: nat) returns (r: Result<()>)
      modifies this
      ensures Did(old(Value()), RejectOrClose(old(Value()), stream), r, Value())
    {
      var found := StreamOf(stream);
      if found.Err? {
        return Err(found.error);
      }
      streams := streams - {stream};
      return Ok(());
    }

    method Send(stream: nat, bytes: nat) returns (r: Result<()>)
      modifies this
      ensures Did(old(Value()), DebitSend(old(Value()), stream, bytes), r, Value())
      ensures r.Ok? <==> && 0 < bytes <= old(connectionSendWindow) && ValidId(stream) && stream in old(streams)
                         && old(streams)[stream].phase == Open && !old(streams)[stream].localClosed
                         && bytes <= old(streams)[stream].send
    {
      if bytes == 0 {
        return Err(InvalidField);
      }
      if connectionSendWindow < bytes {
        return Err(Backpressure);
      }
      var found := StreamOf(stream);
      if found.Err? {
        return Err(found.error);
      }
      var s := found.value;
      if s.phase != Open || s.localClosed {
        return Err(Closed);
      }
      if s.send < bytes {
        return Err(Backpressure);
      }
      streams := streams[stream := s.(send := s.send - bytes)];
      connectionSendWindow := connectionSendWindow - bytes;
      return Ok(());
    }

    method Receive(stream: nat, bytes: nat) returns (r: Result<()>)
      modifies this
      ensures Did(old(Value()), DebitReceive(old(Value()), stream, bytes), r, Value())
      ensures r.Ok? <==> && 0 < bytes <= old(connectionReceiveWindow) && ValidId(stream) && stream in old(streams)
                         && old(streams)[stream].phase == Open && !old(streams)[stream].remoteClosed
                         && bytes <= old(streams)[stream].recv
    {
      var invalidStream :=
        if stream in streams then
          streams[stream].phase != Open || streams[stream].remoteClosed || streams[stream].recv < bytes
        else true;
      if bytes == 0 || connectionReceiveWindow < bytes || invalidStream {
        return Err(FlowControlViolation);
      }
      var found := StreamOf(stream);
      if found.Err? {
        return Err(found.error);
      }
      streams := streams[stream := found.value.(recv := found.value.recv - bytes)];
      connectionReceiveWindow := connectionReceiveWindow - bytes;
      return Ok(());
    }

    method WindowUpdate(stream: nat, credit: nat) returns (r: Result<()>)
      modifies this
      ensures Did(old(Value()), ReceiveWindowUpdate(old(Value()), stream, credit), r, Value())
    {
      if credit == 0 {
        return Err(FlowControlViolation);
      }
      if stream == 0 {
        var updated := CheckedCreditAdd(connectionSendWindow, credit, MAX_CONNECTION_WINDOW);
        if updated.Err? {
          return Err(updated.error);
        }
        connectionSendWindow := updated.value;
      } else {
        var found := StreamOf(stream);
        if found.Err? {
          return Err(found.error);
        }
        var updated := CheckedCreditAdd(found.value.send, credit, MAX_STREAM_WINDOW);
        if updated.Err? {
          return Err(updated.error);
        }
        streams := streams[stream := found.value.(send := updated.value)];
      }
      return Ok(());
    }

    method Grant(stream: nat, credit: nat) returns (r: Result<()>)
      modifies this
      ensures Did(old(Value()), GrantReceiveCredit(old(Value()), stream, credit), r, Value())
    {
      if credit == 0 {
        return Err(InvalidField);
      }
      if stream == 0 {
        var updated := CheckedCreditAdd(connectionReceiveWindow, credit, MAX_CONNECTION_WINDOW);
        if updated.Err? {
          return Err(updated.error);
        }
        connectionReceiveWindow := updated.value;
      } else {
        var found := StreamOf(stream);
        if found.Err? {
          return Err(found.error);
        }
        var updated := CheckedCreditAdd(found.value.recv, credit, MAX_STREAM_WINDOW);
        if updated.Err? {
          return Err(updated.error);
        }
        streams := streams[stream := found.value.(recv := updated.value)];
      }
      return Ok(());
    }

    method HalfCloseLocal(stream: nat) returns (r: Result<()>)
      modifies this
      ensures Did(old(Value()), LocalHalfClose(old(Value()), stream), r, Value())
    {
      var found := StreamOf(stream);
      if found.Err? {
        return Err(found.error);
      }
      var s := found.value;
      if s.phase != Open || s.localClosed {
        return Err(Closed);
      }
      streams := streams[stream := s.(localClosed := true)];
      return Ok(());
    }

    method HalfCloseRemote(stream: nat) returns (r: Result<()>)
      modifies this
      ensures Did(old(Value()), ReceiveHalfClose(old(Value()), stream), r, Value())
    {
      var found := StreamOf(stream);
      if found.Err? {
        return Err(found.error);
      }
      var s := found.value;
      if s.phase != Open || s.remoteClosed {
        return Err(ProtocolViolation);
      }
      streams := streams[stream := s.(remoteClosed := true)];
      return Ok(());
    }
  }
}
