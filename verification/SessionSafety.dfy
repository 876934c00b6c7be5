/**
 Safety of whole runs of two session endpoints: window arithmetic is balanced in every reachable
 state, so neither DATA nor credit is ever refused because of the size of a window, and frame
 sequence numbers always match.
 */
module SessionSafety {
  import Q = FairQueue
  import F = FlowControl
  import C = CreditLane
  import opened Session
  import opened SessionPipes
  import opened SessionNetwork
  import opened SessionLanes
  import opened SessionStreams

  // ---------------------------------------------------------------- the connection window

  /** DATA bytes x has debited from its connection window and y has not. */
  ghost function InFlight(x: State, xy: seq<Frame>): nat
    requires Q.WellFormed(x.queue)
  {
    AllDataIn(FrameBodies(xy)) + if Live(x) then Load(x.queue) else 0
  }

  ghost function Spendable(x: State, y: State, yx: seq<Frame>): nat {
    if Live(x) then x.flow.connSend + CreditIn(Outbound(y, yx)) else 0
  }

  /** The receiver's connection window covers everything the sender may still send and everything on
      the way; while both sides live, what is left over is exactly the DATA cancelled unsent. */
  ghost predicate ConnInv(x: State, y: State, xy: seq<Frame>, yx: seq<Frame>, lost: nat)
    requires Q.WellFormed(x.queue)
  {
    && (Live(y) ==> y.flow.connRecv >= Spendable(x, y, yx) + InFlight(x, xy))
    && (Live(x) && Live(y) ==> y.flow.connRecv == Spendable(x, y, yx) + InFlight(x, xy) + lost)
    && Spendable(x, y, yx) <= F.MAX_CONNECTION_WINDOW
  }

  function Spent(call: Call): nat {
    if call.CallData? then |Chunk(call.payload)| else 0
  }

  function Granted(call: Call): nat {
    if call.CallGrant? && call.stream == 0 then call.credit else 0
  }

  lemma CallLedger(l: F.Ledger, call: Call, l': F.Ledger)
    requires LedgerAfter(l, call) == F.Ok(l')
    ensures l'.connSend == l.connSend - Spent(call)
    ensures l'.connRecv == l.connRecv + Granted(call)
    ensures Granted(call) != 0 ==> l'.connRecv <= F.MAX_CONNECTION_WINDOW
  {
  }

  lemma CallCredit(e: Side, call: Call, e': Side)
    requires Did(e, call, e')
    ensures CreditIn(Outbound(e'.st, e'.outbox)) == CreditIn(Outbound(e.st, e.outbox)) + Granted(call)
  {
    LocalOutbound(e, call, e');
    Single(BodyOf(call), 0);
    SumsConcat(Outbound(e.st, e.outbox), if call.CallData? then [] else [BodyOf(call)], 0);
  }

  lemma CallLoad(e: Side, call: Call, e': Side)
    requires QueueOk(e.st.role, e.st.queue) && Did(e, call, e')
    ensures Q.WellFormed(e'.st.queue)
    ensures Load(e'.st.queue) == Load(e.st.queue) + Spent(call) - (e'.lost - e.lost)
  {
    var item := Q.Item(BodyOf(call), call.size.value);
    if call.CallData? {
      LoadPushStream(e.st.queue, call.stream, item);
    } else if call.CallClose? {
      LoadCancel(e.st.queue, call.stream);
      LoadPushControl(Q.Cancel(e.st.queue, call.stream), item);
    } else {
      LoadPushControl(e.st.queue, item);
    }
  }

  lemma TakeConn(e: Side, e': Side)
    requires QueueOk(e.st.role, e.st.queue) && QueueOk(e.st.role, e'.st.queue) && Took(e, e')
    ensures var b := e.inbox[0].body;
            && Outbound(e'.st, e'.outbox) == Outbound(e.st, e.outbox)
            && Load(e'.st.queue) == Load(e.st.queue) - (e'.lost - e.lost)
            && e'.st.flow.connSend == e.st.flow.connSend + CreditOf(b)
            && e'.st.flow.connRecv == e.st.flow.connRecv - Bytes(b)
  {
    if e.inbox[0].body.CloseStream? {
      LoadCancel(e.st.queue, e.inbox[0].body.stream);
    }
  }

  /** A move by an endpoint keeps the balance of the direction in which it sends. */
  lemma OutConn(e: Side, mv: Move, p: State)
    requires SideOk(e, p.role)
    requires ConnInv(e.st, p, e.outbox, e.inbox, e.lost)
    ensures SideOk(Moved(e, mv), p.role)
    ensures var e' := Moved(e, mv); ConnInv(e'.st, p, e'.outbox, e'.inbox, e'.lost)
    decreases mv == FlushOut(Unflushed)
  {
    if mv == FlushOut(Unflushed) {
      UnflushedMoves(e);
      MovedShape(e, FlushOut(Written), p.role);
      OutConn(e, FlushOut(Written), p);
      OutConn(Moved(e, FlushOut(Written)), Breaks, p);
      return;
    }
    var e' := Moved(e, mv);
    MovedShape(e, mv, p.role);
    MoveCases(e, mv);
    if mv.Local? && Did(e, mv.call, e') {
      CallLedger(e.st.flow, mv.call, e'.st.flow);
      CallCredit(e, mv.call, e');
      CallLoad(e, mv.call, e');
    } else if Wrote(e, e') {
      WroteData(e, e', 0);
    } else if Took(e, e') {
      TakeConn(e, e');
      TakeInbox(p, e.inbox, 0);
    }
  }

  /** A move by an endpoint keeps the balance of the direction in which it receives. */
  lemma InConn(e: Side, mv: Move, p: State, lost: nat)
    requires SideOk(e, p.role) && Q.WellFormed(p.queue)
    requires ConnInv(p, e.st, e.inbox, e.outbox, lost)
    ensures var e' := Moved(e, mv); ConnInv(p, e'.st, e'.inbox, e'.outbox, lost)
    decreases mv == FlushOut(Unflushed)
  {
    if mv == FlushOut(Unflushed) {
      UnflushedMoves(e);
      MovedShape(e, FlushOut(Written), p.role);
      InConn(e, FlushOut(Written), p, lost);
      InConn(Moved(e, FlushOut(Written)), Breaks, p, lost);
      return;
    }
    var e' := Moved(e, mv);
    MovedShape(e, mv, p.role);
    MoveCases(e, mv);
    if mv.Local? && Did(e, mv.call, e') {
      CallLedger(e.st.flow, mv.call, e'.st.flow);
      CallCredit(e, mv.call, e');
      CallLoad(e, mv.call, e');
    } else if Wrote(e, e') {
      WroteOutbound(e, e', 0);
    } else if Took(e, e') {
      TakeConn(e, e');
      TakeInbox(p, e.inbox, 0);
    } else if ShutDown(e, e') {
      SumsConcat(FrameBodies(e.outbox), ItemBodies(e.st.queue.control), 0);
      assert Outbound(e'.st, e'.outbox) == FrameBodies(e.outbox);
    }
  }

  // ---------------------------------------------------------------- sequence numbers

  ghost predicate SequenceInv(x: State, y: State, xy: seq<Frame>) {
    Live(y) ==>
      && (forall i :: 0 <= i < |xy| ==> xy[i].sequence == y.nextRecv + i)
      && (Live(x) ==> x.nextSend == y.nextRecv + |xy|)
  }

  lemma OutSequence(e: Side, mv: Move, p: State)
    requires Q.WellFormed(e.st.queue) && SequenceInv(e.st, p, e.outbox)
    ensures var e' := Moved(e, mv); SequenceInv(e'.st, p, e'.outbox)
    decreases mv == FlushOut(Unflushed)
  {
    if mv == FlushOut(Unflushed) {
      UnflushedMoves(e);
      OutSequence(e, FlushOut(Written), p);
      OutSequence(Moved(e, FlushOut(Written)), Breaks, p);
      return;
    }
    MoveCases(e, mv);
  }

  lemma InSequence(e: Side, mv: Move, p: State)
    requires Q.WellFormed(e.st.queue) && SequenceInv(p, e.st, e.inbox)
    ensures var e' := Moved(e, mv); SequenceInv(p, e'.st, e'.inbox)
    decreases mv == FlushOut(Unflushed)
  {
    if mv == FlushOut(Unflushed) {
      UnflushedMoves(e);
      InSequence(e, FlushOut(Written), p);
      InSequence(Moved(e, FlushOut(Written)), Breaks, p);
      return;
    }
    MoveCases(e, mv);
  }

  // ---------------------------------------------------------------- the invariant of every reachable state

  ghost function UpLane(n: Net, s: nat): C.Lane {
    LaneOf(n.client, n.server, n.up, n.down, s)
  }

  ghost function DownLane(n: Net, s: nat): C.Lane {
    LaneOf(n.server, n.client, n.down, n.up, s)
  }

  ghost predicate Shape(n: Net) {
    && n.client.role.Client? && n.server.role.Server?
    && SideOk(ClientSide(n), Server) && SideOk(ServerSide(n), Client)
  }

  ghost predicate Inv(n: Net) {
    && Shape(n)
    && (forall s :: F.ValidId(s) ==> StreamInv(n.client.flow, n.server.flow, UpLane(n, s), DownLane(n, s), s))
    && ConnInv(n.client, n.server, n.up, n.down, n.lostUp)
    && ConnInv(n.server, n.client, n.down, n.up, n.lostDown)
    && SequenceInv(n.client, n.server, n.up) && SequenceInv(n.server, n.client, n.down)
  }

  lemma InitialStream(n: Net, s: nat)
    requires Initial(n)
    ensures C.Fresh(UpLane(n, s)) && C.Fresh(DownLane(n, s))
  {
    assert Outbound(n.client, []) == [] && Outbound(n.server, []) == [];
    assert Weigh([]) == [];
  }

  lemma InitialConn(n: Net)
    requires Initial(n)
    ensures Q.WellFormed(n.client.queue) && Q.WellFormed(n.server.queue)
    ensures ConnInv(n.client, n.server, [], [], 0) && ConnInv(n.server, n.client, [], [], 0)
  {
    assert Weighed(n.client.queue) == n.client.queue;
    assert Outbound(n.client, []) == [] && Outbound(n.server, []) == [];
  }

  lemma InitialInv(n: Net)
    requires Initial(n)
    ensures Inv(n)
  {
    hide ConnInv;
    InitialConn(n);
    forall s | F.ValidId(s)
      ensures StreamInv(n.client.flow, n.server.flow, UpLane(n, s), DownLane(n, s), s)
    {
      InitialStream(n, s);
    }
  }

  lemma NextShape(n: Net, step: Step)
    requires Shape(n)
    ensures Shape(Next(n, step))
  {
    if step.ByClient? {
      MovedShape(ClientSide(n), step.mv, Server);
    } else {
      MovedShape(ServerSide(n), step.mv, Client);
    }
  }

  lemma NextStream(n: Net, step: Step, s: nat)
    requires Shape(n) && F.ValidId(s)
    requires StreamInv(n.client.flow, n.server.flow, UpLane(n, s), DownLane(n, s), s)
    ensures var n' := Next(n, step); StreamInv(n'.client.flow, n'.server.flow, UpLane(n', s), DownLane(n', s), s)
  {
    if step.ByClient? {
      ClientMoves(ClientSide(n), step.mv, n.server, s);
    } else {
      ServerMoves(ServerSide(n), step.mv, n.client, s);
    }
  }

  lemma NextConn(n: Net, step: Step)
    requires Shape(n) && Shape(Next(n, step))
    requires ConnInv(n.client, n.server, n.up, n.down, n.lostUp)
    requires ConnInv(n.server, n.client, n.down, n.up, n.lostDown)
    ensures var n' := Next(n, step);
            && ConnInv(n'.client, n'.server, n'.up, n'.down, n'.lostUp)
            && ConnInv(n'.server, n'.client, n'.down, n'.up, n'.lostDown)
  {
    if step.ByClient? {
      OutConn(ClientSide(n), step.mv, n.server);
      InConn(ClientSide(n), step.mv, n.server, n.lostDown);
    } else {
      OutConn(ServerSide(n), step.mv, n.client);
      InConn(ServerSide(n), step.mv, n.client, n.lostUp);
    }
  }

  lemma NextSequence(n: Net, step: Step)
    requires Shape(n)
    requires SequenceInv(n.client, n.server, n.up) && SequenceInv(n.server, n.client, n.down)
    ensures var n' := Next(n, step); SequenceInv(n'.client, n'.server, n'.up) && SequenceInv(n'.server, n'.client, n'.down)
  {
    if step.ByClient? {
      OutSequence(ClientSide(n), step.mv, n.server);
      InSequence(ClientSide(n), step.mv, n.server);
    } else {
      OutSequence(ServerSide(n), step.mv, n.client);
      InSequence(ServerSide(n), step.mv, n.client);
    }
  }

  lemma NextInv(n: Net, step: Step)
    requires Inv(n)
    ensures Inv(Next(n, step))
  {
    NextShape(n, step);
    NextConn(n, step);
    NextSequence(n, step);
    var n' := Next(n, step);
    forall s | F.ValidId(s)
      ensures StreamInv(n'.client.flow, n'.server.flow, UpLane(n', s), DownLane(n', s), s)
    {
      NextStream(n, step, s);
    }
  }

  // ---------------------------------------------------------------- runs

  ghost predicate Run(states: seq<Net>, steps: seq<Step>) {
    && |states| == |steps| + 1
    && Initial(states[0])
    && (forall i :: 0 <= i < |steps| ==>
          && Q.WellFormed(states[i].client.queue) && Q.WellFormed(states[i].server.queue)
          && states[i + 1] == Next(states[i], steps[i]))
  }

  lemma {:induction false} RunInv(states: seq<Net>, steps: seq<Step>, k: nat)
    requires Run(states, steps) && k < |states|
    ensures Inv(states[k])
  {
    if k == 0 {
      InitialInv(states[0]);
    } else {
      RunInv(states, steps, k - 1);
      NextInv(states[k - 1], steps[k - 1]);
    }
  }

  // ---------------------------------------------------------------- what the invariant means for the peers

  lemma DataFits(e: Side, p: State)
    requires Q.WellFormed(p.queue) && Live(e.st) && e.st.tcp && e.inbox != [] && e.inbox[0].body.Data?
    requires BodyOk(p.role, e.inbox[0].body) && C.LaneOk(InLane(e, p, e.inbox[0].body.stream))
    requires exists lost :: ConnInv(p, e.st, e.inbox, e.outbox, lost)
    requires SequenceInv(p, e.st, e.inbox)
    ensures var s := e.inbox[0].body.stream;
            s in e.st.flow.streams && e.st.flow.streams[s].phase.Open? && !e.st.flow.streams[s].remoteClosed
            <==> Receive(e.st, e.inbox[0], true).status.Ok?
  {
    TakeInbox(p, e.inbox, e.inbox[0].body.stream);
  }

  /** DATA from a peer is refused only for reasons other than the size of a window. */
  lemma DataFitsWindows(states: seq<Net>, steps: seq<Step>, k: nat, e: Side)
    requires Run(states, steps) && k < |states|
    requires e == ClientSide(states[k]) || e == ServerSide(states[k])
    requires Live(e.st) && e.st.tcp && e.inbox != [] && e.inbox[0].body.Data?
    ensures var s := e.inbox[0].body.stream;
            s in e.st.flow.streams && e.st.flow.streams[s].phase.Open? && !e.st.flow.streams[s].remoteClosed
            <==> Receive(e.st, e.inbox[0], true).status.Ok?
  {
    RunInv(states, steps, k);
    var n := states[k];
    if e == ClientSide(n) {
      DataFits(e, n.server);
    } else {
      DataFits(e, n.client);
    }
  }

  lemma CreditFits(e: Side, p: State)
    requires Q.WellFormed(e.st.queue) && Live(e.st) && e.st.credits && e.inbox != [] && e.inbox[0].body.WindowUpdate?
    requires BodyOk(p.role, e.inbox[0].body)
    requires F.ValidId(e.inbox[0].body.stream) ==> C.LaneOk(OutLane(e, p, e.inbox[0].body.stream))
    requires exists lost :: ConnInv(e.st, p, e.outbox, e.inbox, lost)
    requires SequenceInv(p, e.st, e.inbox)
    ensures var s := e.inbox[0].body.stream;
            s == 0 || s in e.st.flow.streams <==> Receive(e.st, e.inbox[0], true).status.Ok?
  {
    var b := e.inbox[0].body;
    TakeInbox(p, e.inbox, b.stream);
    if b.stream != 0 && b.stream in e.st.flow.streams {
      var lane := OutLane(e, p, b.stream);
      assert lane.ups[0] == C.Add(b.credit);
      C.Arrive(lane, lane.ups[1..]);
    }
  }

  /** Credit from a peer is refused only if it names a stream this side does not have. */
  lemma CreditFitsCaps(states: seq<Net>, steps: seq<Step>, k: nat, e: Side)
    requires Run(states, steps) && k < |states|
    requires e == ClientSide(states[k]) || e == ServerSide(states[k])
    requires Live(e.st) && e.st.credits && e.inbox != [] && e.inbox[0].body.WindowUpdate?
    ensures var s := e.inbox[0].body.stream;
            s == 0 || s in e.st.flow.streams <==> Receive(e.st, e.inbox[0], true).status.Ok?
  {
    RunInv(states, steps, k);
    var n := states[k];
    if e == ClientSide(n) {
      CreditFits(e, n.server);
    } else {
      CreditFits(e, n.client);
    }
  }

  /** Credit of a stream granted by y and not yet applied by x. */
  ghost function CreditOnTheWay(y: State, yx: seq<Frame>, s: nat): nat {
    C.Sum(Updates(Outbound(y, yx), s))
  }

  /** For a stream open at both live ends, in both directions, the receiver's window is exactly the
      sender's window plus the DATA bytes not yet received plus the credit not yet applied. */
  lemma StreamWindowsBalance(states: seq<Net>, steps: seq<Step>, k: nat, s: nat)
    requires Run(states, steps) && k < |states|
    requires var n := states[k];
             Live(n.client) && Live(n.server) && F.ValidId(s)
             && s in n.client.flow.streams && n.client.flow.streams[s].phase.Open?
             && s in n.server.flow.streams && n.server.flow.streams[s].phase.Open?
    ensures var n := states[k];
            && n.server.flow.streams[s].recv
               == n.client.flow.streams[s].send + DebitedData(n.client, n.up, s) + CreditOnTheWay(n.server, n.down, s)
            && n.client.flow.streams[s].recv
               == n.server.flow.streams[s].send + DebitedData(n.server, n.down, s) + CreditOnTheWay(n.client, n.up, s)
  {
    RunInv(states, steps, k);
    var n := states[k];
    assert StreamInv(n.client.flow, n.server.flow, UpLane(n, s), DownLane(n, s), s);
    C.EventualWithoutSet(n.client.flow.streams[s].send, UpLane(n, s).ups);
    C.EventualWithoutSet(n.server.flow.streams[s].send, DownLane(n, s).ups);
  }

  /** The connection windows balance up to the DATA that was cancelled unsent, whose credit is never
      returned: with nothing cancelled the balance is exact. */
  lemma ConnectionWindowsBalance(states: seq<Net>, steps: seq<Step>, k: nat)
    requires Run(states, steps) && k < |states|
    requires Live(states[k].client) && Live(states[k].server)
    ensures var n := states[k];
            && Q.WellFormed(n.client.queue) && Q.WellFormed(n.server.queue)
            && n.server.flow.connRecv
               == n.client.flow.connSend + InFlight(n.client, n.up) + CreditIn(Outbound(n.server, n.down)) + n.lostUp
            && n.client.flow.connRecv
               == n.server.flow.connSend + InFlight(n.server, n.down) + CreditIn(Outbound(n.client, n.up)) + n.lostDown
  {
    RunInv(states, steps, k);
  }

  lemma SequenceFits(e: Side, p: State, wellFormed: bool)
    requires Live(e.st) && e.inbox != [] && SequenceInv(p, e.st, e.inbox)
    ensures Receive(e.st, e.inbox[0], wellFormed).status != F.Err(F.InvalidSequence)
  {
  }

  /** A frame is never refused because of its sequence number. */
  lemma SequencesMatch(states: seq<Net>, steps: seq<Step>, k: nat, e: Side, wellFormed: bool)
    requires Run(states, steps) && k < |states|
    requires e == ClientSide(states[k]) || e == ServerSide(states[k])
    requires Live(e.st) && e.inbox != []
    ensures Receive(e.st, e.inbox[0], wellFormed).status != F.Err(F.InvalidSequence)
  {
    RunInv(states, steps, k);
    SequenceFits(e, if e == ClientSide(states[k]) then states[k].server else states[k].client, wellFormed);
  }
}
