/**
 Two session endpoints joined by two FIFO channels.  Every step is a local call, a flush or a
 receive at one of them; writes and envelope validation may fail at any time.
 */
module SessionNetwork {
  import opened Options
  import Q = FairQueue
  import F = FlowControl
  import C = CreditLane
  import opened Session
  import opened SessionPipes

  // ---------------------------------------------------------------- steps

  datatype Call =
    | CallOpen(stream: nat, window: nat, size: Option<nat>)
    | CallAccept(stream: nat, window: nat, size: Option<nat>)
    | CallReject(stream: nat, size: Option<nat>)
    | CallData(stream: nat, payload: Payload, size: Option<nat>)
    | CallGrant(stream: nat, credit: nat, size: Option<nat>)
    | CallHalfClose(stream: nat, size: Option<nat>)
    | CallClose(stream: nat, size: Option<nat>)
    | CallNotice(fatal: bool, size: Option<nat>)
    | CallGoAway(size: Option<nat>)

  ghost function Called(st: State, call: Call): F.Result<State>
    requires Q.WellFormed(st.queue)
  {
    match call
    case CallOpen(s, w, size) => OpenTcpStream(st, s, w, size)
    case CallAccept(s, w, size) => AcceptTcp(st, s, w, size)
    case CallReject(s, size) => RejectTcp(st, s, size)
    case CallData(s, p, size) => TryQueueData(st, s, p, size)
    case CallGrant(s, c, size) => GrantCredit(st, s, c, size)
    case CallHalfClose(s, size) => HalfCloseStream(st, s, size)
    case CallClose(s, size) => CloseTcp(st, s, size)
    case CallNotice(fatal, size) => QueueNotice(st, fatal, size)
    case CallGoAway(size) => BeginGoAway(st, size)
  }

  /** `Breaks` is a transport failure outside a write. */
  datatype Move = Local(call: Call) | FlushOut(writing: Writing) | TakeIn(wellFormed: bool) | Breaks

  /** An endpoint with the channel it reads, the channel it writes, and the DATA bytes it has debited
      and then cancelled without sending. */
  datatype Side = Side(st: State, inbox: seq<Frame>, outbox: seq<Frame>, lost: nat)

  ghost function Moved(e: Side, mv: Move): Side
    requires Q.WellFormed(e.st.queue)
  {
    match mv
    case Local(call) =>
      (match Called(e.st, call)
       case Err(_) => e
       case Ok(st) => e.(st := st, lost := e.lost + if call.CallClose? then QueuedData(e.st.queue, call.stream) else 0))
    case FlushOut(writing) =>
      var f := Flush(e.st, writing);
      e.(st := f.state, outbox := if f.sent.Some? then e.outbox + [f.sent.value] else e.outbox)
    case TakeIn(wellFormed) =>
      if e.st.phase.Closed? || e.inbox == [] then e
      else
        var a := Receive(e.st, e.inbox[0], wellFormed);
        e.(st := a.state, inbox := e.inbox[1..],
           lost := e.lost + if a.status.Ok? && e.inbox[0].body.CloseStream?
                            then QueuedData(e.st.queue, e.inbox[0].body.stream) else 0)
    case Breaks => e.(st := e.st.(phase := Closed))
  }

  datatype Net = Net(client: State, server: State, up: seq<Frame>, down: seq<Frame>, lostUp: nat, lostDown: nat)

  datatype Step = ByClient(mv: Move) | ByServer(mv: Move)

  function ClientSide(n: Net): Side {
    Side(n.client, n.down, n.up, n.lostUp)
  }

  function ServerSide(n: Net): Side {
    Side(n.server, n.up, n.down, n.lostDown)
  }

  ghost function Next(n: Net, step: Step): Net
    requires Q.WellFormed(n.client.queue) && Q.WellFormed(n.server.queue)
  {
    match step
    case ByClient(mv) =>
      var e := Moved(ClientSide(n), mv);
      n.(client := e.st, down := e.inbox, up := e.outbox, lostUp := e.lost)
    case ByServer(mv) =>
      var e := Moved(ServerSide(n), mv);
      n.(server := e.st, up := e.inbox, down := e.outbox, lostDown := e.lost)
  }

  /** The state right after authentication: each side's send window is the window the other announced. */
  predicate Initial(n: Net) {
    && n.client.role.Client? && n.server.role.Server?
    && n.client.phase.Active? && n.server.phase.Active?
    && n.client.flow.streams == map[] && n.server.flow.streams == map[]
    && n.client.flow.connSend == n.server.flow.connRecv <= F.MAX_CONNECTION_WINDOW
    && n.server.flow.connSend == n.client.flow.connRecv <= F.MAX_CONNECTION_WINDOW
    && n.client.queue == Q.Queue([], map[], [], 0) && n.server.queue == Q.Queue([], map[], [], 0)
    && n.client.nextSend == n.server.nextRecv && n.server.nextSend == n.client.nextRecv
    && n.up == [] && n.down == [] && n.lostUp == 0 && n.lostDown == 0
  }

  // ---------------------------------------------------------------- shape of queues and channels

  predicate BodyOk(role: Role, b: Body) {
    && (b.OpenTcp? ==> role.Client?)
    && (b.Opened? || b.Rejected? ==> role.Server?)
    && (b.Data? ==> b.payload != [] && F.ValidId(b.stream))
    && (b.WindowUpdate? ==> b.credit > 0 && (b.stream == 0 || F.ValidId(b.stream)))
  }

  ghost predicate QueueOk(role: Role, q: Q.Queue<Body>) {
    && Q.WellFormed(q)
    && (forall i :: 0 <= i < |q.control| ==> !q.control[i].body.Data? && BodyOk(role, q.control[i].body))
    && (forall s, i :: s in q.streams && 0 <= i < |q.streams[s]| ==>
          var b := q.streams[s][i].body; b.Data? && b.stream == s && BodyOk(role, b))
  }

  ghost predicate ChannelOk(role: Role, frames: seq<Frame>) {
    forall i :: 0 <= i < |frames| ==> BodyOk(role, frames[i].body)
  }

  ghost predicate SideOk(e: Side, peer: Role) {
    && QueueOk(e.st.role, e.st.queue)
    && ChannelOk(e.st.role, e.outbox)
    && ChannelOk(peer, e.inbox)
  }

  lemma ControlShape(role: Role, q: Q.Queue<Body>, item: Q.Item<Body>)
    requires QueueOk(role, q) && !item.body.Data? && BodyOk(role, item.body)
    ensures QueueOk(role, Q.PushControl(q, item))
  {
    Q.PushControlKeeps(q, item);
  }

  lemma StreamShape(role: Role, q: Q.Queue<Body>, item: Q.Item<Body>)
    requires QueueOk(role, q) && item.body.Data? && BodyOk(role, item.body)
    ensures QueueOk(role, Q.PushStream(q, item.body.stream, item))
  {
    Q.PushStreamKeeps(q, item.body.stream, item);
  }

  lemma CancelShape(role: Role, q: Q.Queue<Body>, s: nat)
    requires QueueOk(role, q)
    ensures QueueOk(role, Q.Cancel(q, s))
  {
    Q.CancelKeeps(q, s);
  }

  /** The frame a successful local call queues, and the queue it appends to. */
  function BodyOf(call: Call): Body {
    match call
    case CallOpen(s, w, _) => OpenTcp(s, w)
    case CallAccept(s, w, _) => Opened(s, w)
    case CallReject(s, _) => Rejected(s)
    case CallData(s, p, _) => Data(s, Chunk(p))
    case CallGrant(s, c, _) => WindowUpdate(s, c)
    case CallHalfClose(s, _) => HalfClose(s)
    case CallClose(s, _) => CloseStream(s)
    case CallNotice(fatal, _) => Notice(fatal)
    case CallGoAway(_) => GoAway
  }

  ghost function QueueAfter(q: Q.Queue<Body>, call: Call, size: nat): Q.Queue<Body> {
    var item := Q.Item(BodyOf(call), size);
    if call.CallData? then Q.PushStream(q, call.stream, item)
    else if call.CallClose? then Q.PushControl(Q.Cancel(q, call.stream), item)
    else Q.PushControl(q, item)
  }

  /** What the ledger does in a local call. */
  function LedgerAfter(l: F.Ledger, call: Call): F.Result<F.Ledger> {
    match call
    case CallOpen(s, w, _) => F.OpenLocal(l, s, w)
    case CallAccept(s, w, _) => F.AcceptRemoteOpen(l, s, w)
    case CallReject(s, _) => F.RejectOrClose(l, s)
    case CallData(s, p, _) => F.DebitSend(l, s, |Chunk(p)|)
    case CallGrant(s, c, _) => F.GrantReceiveCredit(l, s, c)
    case CallHalfClose(s, _) => F.LocalHalfClose(l, s)
    case CallClose(s, _) => F.RejectOrClose(l, s)
    case CallNotice(_, _) => F.Ok(l)
    case CallGoAway(_) => F.Ok(l)
  }

  /** What the ledger does with an inbound message. */
  function LedgerTaking(l: F.Ledger, b: Body): F.Result<F.Ledger> {
    match b
    case OpenTcp(s, w) => F.ReceiveOpen(l, s, w)
    case Opened(s, w) => F.ConfirmLocalOpen(l, s, w)
    case Rejected(s) => F.RejectOrClose(l, s)
    case Data(s, p) => F.DebitReceive(l, s, |p|)
    case WindowUpdate(s, c) => F.ReceiveWindowUpdate(l, s, c)
    case HalfClose(s) => F.ReceiveHalfClose(l, s)
    case CloseStream(s) => F.RejectOrClose(l, s)
    case GoAway => F.Ok(l)
    case Notice(_) => F.Ok(l)
  }

  ghost function QueueTaking(q: Q.Queue<Body>, b: Body): Q.Queue<Body> {
    if b.CloseStream? then Q.Cancel(q, b.stream) else q
  }

  // ---------------------------------------------------------------- the four ways an endpoint can move

  /** A local call succeeded. */
  ghost predicate Did(e: Side, call: Call, e': Side) {
    && call.size.Some? && Live(e.st) && Live(e'.st) && BodyOk(e.st.role, BodyOf(call))
    && LedgerAfter(e.st.flow, call) == F.Ok(e'.st.flow)
    && e'.st.queue == QueueAfter(e.st.queue, call, call.size.value)
    && e'.st.role == e.st.role && e'.st.nextSend == e.st.nextSend && e'.st.nextRecv == e.st.nextRecv
    && e'.inbox == e.inbox && e'.outbox == e.outbox
    && e'.lost == e.lost + (if call.CallClose? then QueuedData(e.st.queue, call.stream) else 0)
    && (call.CallOpen? ==> e.st.role.Client?)
    && (call.CallAccept? || call.CallReject? ==> e.st.role.Server?)
  }

  /** One frame was written. */
  ghost predicate Wrote(e: Side, e': Side) {
    && Q.WellFormed(e.st.queue) && Live(e.st) && !Q.Front(e.st.queue).Nothing?
    && e'.st == e.st.(queue := Q.Rest(e.st.queue), nextSend := e.st.nextSend + 1)
    && e'.outbox == e.outbox + [Frame(e.st.nextSend, Q.Front(e.st.queue).item.body)]
    && e'.inbox == e.inbox && e'.lost == e.lost
  }

  /** One frame was taken and applied. */
  ghost predicate Took(e: Side, e': Side) {
    && Live(e.st) && Live(e'.st) && e.inbox != []
    && LedgerTaking(e.st.flow, e.inbox[0].body) == F.Ok(e'.st.flow)
    && e'.st.queue == QueueTaking(e.st.queue, e.inbox[0].body)
    && e'.inbox == e.inbox[1..] && e'.outbox == e.outbox
    && e'.lost == e.lost + (if e.inbox[0].body.CloseStream? then QueuedData(e.st.queue, e.inbox[0].body.stream) else 0)
    && e'.st.role == e.st.role && e'.st.nextSend == e.st.nextSend && e'.st.nextRecv == e.st.nextRecv + 1
    && (e.inbox[0].body.OpenTcp? ==> e.st.role.Server?)
    && (e.inbox[0].body.Opened? || e.inbox[0].body.Rejected? ==> e.st.role.Client?)
  }

  /** The session closed: the ledger is as it was, nothing was written, at most one frame was taken. */
  ghost predicate ShutDown(e: Side, e': Side) {
    && Live(e.st) && !Live(e'.st)
    && e'.st.flow == e.st.flow && e'.st.role == e.st.role
    && e'.outbox == e.outbox
    && (e'.inbox == e.inbox || (e.inbox != [] && e'.inbox == e.inbox[1..]))
  }

  lemma CalledDid(e: Side, call: Call)
    requires Q.WellFormed(e.st.queue) && Called(e.st, call).Ok?
    ensures Did(e, call, Moved(e, Local(call)))
  {
  }

  /** What an inbound message does to ledger, queue and phase. */
  lemma InboundDid(st: State, b: Body)
    requires Live(st)
    ensures var a := ApplyInbound(st, b);
            && a.state == st.(flow := a.state.flow, queue := a.state.queue, phase := a.state.phase)
            && (a.status.Err? || !Live(a.state) ==> a.state.flow == st.flow)
            && (a.status.Ok? ==>
                  && LedgerTaking(st.flow, b) == F.Ok(a.state.flow) && a.state.queue == QueueTaking(st.queue, b)
                  && (b.OpenTcp? ==> st.role.Server?) && (b.Opened? || b.Rejected? ==> st.role.Client?))
  {
  }

  lemma TakenDid(e: Side, wellFormed: bool)
    requires Q.WellFormed(e.st.queue) && Live(e.st) && e.inbox != []
    ensures var e' := Moved(e, TakeIn(wellFormed)); Took(e, e') || ShutDown(e, e')
  {
    hide ApplyInbound, LedgerTaking, QueueTaking, QueuedData;
    InboundDid(e.st.(nextRecv := e.st.nextRecv + 1), e.inbox[0].body);
  }

  /** A write whose flush fails is a write and then a failure. */
  lemma UnflushedMoves(e: Side)
    requires Q.WellFormed(e.st.queue)
    ensures var e1 := Moved(e, FlushOut(Written));
            && Q.WellFormed(e1.st.queue)
            && (Moved(e, FlushOut(Unflushed)) == e || Moved(e, FlushOut(Unflushed)) == Moved(e1, Breaks))
  {
    Q.RestWellFormed(e.st.queue);
  }

  /** Every other move is one of these, or changes nothing. */
  lemma MoveCases(e: Side, mv: Move)
    requires Q.WellFormed(e.st.queue) && mv != FlushOut(Unflushed)
    ensures var e' := Moved(e, mv);
            e' == e || (mv.Local? && Did(e, mv.call, e')) || Wrote(e, e') || Took(e, e') || ShutDown(e, e')
  {
    match mv
    case Local(call) =>
      if Called(e.st, call).Ok? {
        CalledDid(e, call);
      }
    case TakeIn(wellFormed) =>
      if Live(e.st) && e.inbox != [] {
        TakenDid(e, wellFormed);
      }
    case _ =>
  }

  lemma CalledShape(e: Side, call: Call, e': Side)
    requires QueueOk(e.st.role, e.st.queue) && Did(e, call, e')
    ensures QueueOk(e.st.role, e'.st.queue)
  {
    var q := e.st.queue;
    var item := Q.Item(BodyOf(call), call.size.value);
    if call.CallData? {
      StreamShape(e.st.role, q, item);
    } else if call.CallClose? {
      CancelShape(e.st.role, q, call.stream);
      ControlShape(e.st.role, Q.Cancel(q, call.stream), item);
    } else {
      ControlShape(e.st.role, q, item);
    }
  }

  lemma FlushShape(st: State)
    requires QueueOk(st.role, st.queue) && !Q.Front(st.queue).Nothing?
    ensures QueueOk(st.role, Q.Rest(st.queue))
    ensures BodyOk(st.role, Q.Front(st.queue).item.body)
    ensures var f := Q.Front(st.queue); f.FromControl? ==> !f.item.body.Data?
    ensures var f := Q.Front(st.queue); f.FromStream? ==> f.item.body.Data? && f.item.body.stream == f.stream
  {
    Q.RestKeeps(st.queue);
    if Q.Front(st.queue).FromStream? {
      assert st.queue.active[0] in st.queue.active;
    }
  }

  lemma WrittenShape(e: Side)
    requires QueueOk(e.st.role, e.st.queue)
    ensures var e1 := Moved(e, FlushOut(Written)); QueueOk(e.st.role, e1.st.queue) && e1.st.role == e.st.role
  {
    if !Q.Front(e.st.queue).Nothing? {
      FlushShape(e.st);
    }
  }

  lemma MovedShape(e: Side, mv: Move, peer: Role)
    requires SideOk(e, peer)
    ensures SideOk(Moved(e, mv), peer) && Moved(e, mv).st.role == e.st.role
    decreases mv == FlushOut(Unflushed)
  {
    if mv == FlushOut(Unflushed) {
      UnflushedMoves(e);
      MovedShape(e, FlushOut(Written), peer);
      MovedShape(Moved(e, FlushOut(Written)), Breaks, peer);
      return;
    }
    var e' := Moved(e, mv);
    MoveCases(e, mv);
    if mv.Local? && Did(e, mv.call, e') {
      CalledShape(e, mv.call, e');
    } else if Wrote(e, e') {
      FlushShape(e.st);
    } else if Took(e, e') {
      CancelShape(e.st.role, e.st.queue, if e.inbox[0].body.CloseStream? then e.inbox[0].body.stream else 0);
    } else if ShutDown(e, e') {
      ShutShape(e, mv);
    }
  }

  /** Closing leaves the queue as it was, or with its head popped, or with one stream cancelled. */
  lemma ShutShape(e: Side, mv: Move)
    requires QueueOk(e.st.role, e.st.queue)
    ensures ShutDown(e, Moved(e, mv)) ==> QueueOk(e.st.role, Moved(e, mv).st.queue)
  {
    if mv.FlushOut? {
      if !Q.Front(e.st.queue).Nothing? {
        FlushShape(e.st);
      }
    } else if mv.TakeIn? && e.inbox != [] && e.inbox[0].body.CloseStream? {
      CancelShape(e.st.role, e.st.queue, e.inbox[0].body.stream);
    } else if mv.Local? && Called(e.st, mv.call).Ok? {
      CalledDid(e, mv.call);
    }
  }
}
