/**
 What closing does to queued DATA. Closing a stream cancels the DATA it has queued, whose connection credit
 is lost; half-closing queues its frame on the control FIFO, which overtakes the DATA still queued. Both are
 harmless exactly when nothing is queued on the stream.
 */
module SessionCloses {
  import opened Options
  import Q = FairQueue
  import F = FlowControl
  import opened Session
  import opened SessionPipes
  import opened SessionNetwork
  import opened SessionLanes
  import opened SessionStreams
  import opened SessionSafety

  // ---------------------------------------------------------------- credit lost by closing

  /** The endpoint closes the stream, or takes the peer's close of it. */
  ghost predicate Drops(e: Side, mv: Move, s: nat)
    requires Q.WellFormed(e.st.queue)
  {
    match mv
    case Local(call) => call.CallClose? && call.stream == s && Called(e.st, call).Ok?
    case TakeIn(wellFormed) =>
      Live(e.st) && e.inbox != [] && e.inbox[0].body == CloseStream(s) && Receive(e.st, e.inbox[0], wellFormed).status.Ok?
    case _ => false
  }

  /** Nothing is queued on a stream that is dropped. */
  ghost predicate DropsClean(e: Side, mv: Move)
    requires Q.WellFormed(e.st.queue)
  {
    forall s :: Drops(e, mv, s) ==> s !in e.st.queue.streams
  }

  lemma QueuedIff(role: Role, q: Q.Queue<Body>, s: nat)
    requires QueueOk(role, q)
    ensures QueuedData(q, s) > 0 <==> s in q.streams
  {
    if s in q.streams {
      assert q.streams[s][0].body.Data?;
      assert Weigh(q.streams[s])[0].size > 0;
    }
  }

  lemma MoveLoss(e: Side, mv: Move, peer: Role)
    requires SideOk(e, peer)
    ensures Moved(e, mv).lost >= e.lost
    ensures Moved(e, mv).lost == e.lost <==> DropsClean(e, mv)
  {
    hide Called, Receive, Flush, QueuedData;
    if mv.Local? && mv.call.CallClose? {
      QueuedIff(e.st.role, e.st.queue, mv.call.stream);
      assert Called(e.st, mv.call).Ok? ==> Drops(e, mv, mv.call.stream);
    } else if mv.TakeIn? && e.inbox != [] && e.inbox[0].body.CloseStream? {
      QueuedIff(e.st.role, e.st.queue, e.inbox[0].body.stream);
      assert Live(e.st) && Receive(e.st, e.inbox[0], mv.wellFormed).status.Ok? ==> Drops(e, mv, e.inbox[0].body.stream);
    }
  }

  ghost predicate CleanUp(n: Net, step: Step)
    requires Q.WellFormed(n.client.queue)
  {
    step.ByClient? ==> DropsClean(ClientSide(n), step.mv)
  }

  ghost predicate CleanDown(n: Net, step: Step)
    requires Q.WellFormed(n.server.queue)
  {
    step.ByServer? ==> DropsClean(ServerSide(n), step.mv)
  }

  /** No connection credit is lost if and only if no stream was ever dropped with DATA queued on it. */
  lemma {:induction false} LossFreeIff(states: seq<Net>, steps: seq<Step>, k: nat)
    requires Run(states, steps) && k < |states|
    ensures states[k].lostUp == 0 <==> forall i :: 0 <= i < k ==> CleanUp(states[i], steps[i])
    ensures states[k].lostDown == 0 <==> forall i :: 0 <= i < k ==> CleanDown(states[i], steps[i])
  {
    hide Moved, DropsClean, SideOk;
    if k > 0 {
      LossFreeIff(states, steps, k - 1);
      var n := states[k - 1];
      RunShape(states, steps, k - 1);
      if steps[k - 1].ByClient? {
        MoveLoss(ClientSide(n), steps[k - 1].mv, Server);
      } else {
        MoveLoss(ServerSide(n), steps[k - 1].mv, Client);
      }
    }
  }

  // ---------------------------------------------------------------- half closes

  predicate LocalClosed(x: State, s: nat) {
    s in x.flow.streams && x.flow.streams[s].localClosed
  }

  predicate RemoteClosed(y: State, s: nat) {
    s in y.flow.streams && y.flow.streams[s].remoteClosed
  }

  /** No DATA of the stream will ever be queued again. */
  predicate NoMoreData(l: F.Ledger, s: nat) {
    s <= l.maxSeen && (s in l.streams ==> l.streams[s].localClosed)
  }

  predicate IsData(b: Body, s: nat) {
    b.Data? && b.stream == s
  }

  /** The half close of x is on its way to y or has arrived there. */
  predicate HalfCloseSent(x: State, y: State, xy: seq<Frame>, s: nat) {
    RemoteClosed(y, s) || HalfClose(s) in Outbound(x, xy)
  }

  /** In every run a stream whose half close was announced is spent. */
  predicate Final(x: State, y: State, xy: seq<Frame>, s: nat) {
    && (s in x.flow.streams ==> s <= x.flow.maxSeen)
    && (HalfCloseSent(x, y, xy, s) || LocalClosed(x, s) ==> NoMoreData(x.flow, s))
  }

  /** No DATA of the stream follows a half close of it. */
  ghost predicate InOrder(x: State, y: State, xy: seq<Frame>, s: nat) {
    && (Live(x) && (HalfCloseSent(x, y, xy, s) || LocalClosed(x, s)) ==> s !in x.queue.streams)
    && (RemoteClosed(y, s) ==> forall j :: 0 <= j < |xy| ==> !IsData(xy[j].body, s))
    && (forall i, j :: 0 <= i < j < |xy| && xy[i].body == HalfClose(s) ==> !IsData(xy[j].body, s))
  }

  /** A half close of the stream finds nothing queued on it. */
  ghost predicate HalfClean(e: Side, mv: Move, s: nat)
    requires Q.WellFormed(e.st.queue)
  {
    mv.Local? && mv.call.CallHalfClose? && mv.call.stream == s && Called(e.st, mv.call).Ok? ==> s !in e.st.queue.streams
  }

  lemma CallSpends(l: F.Ledger, call: Call, l': F.Ledger, s: nat)
    requires LedgerAfter(l, call) == F.Ok(l')
    ensures l'.maxSeen >= l.maxSeen && (NoMoreData(l, s) ==> NoMoreData(l', s))
    ensures (s in l.streams ==> s <= l.maxSeen) ==> (s in l'.streams ==> s <= l'.maxSeen)
    ensures (call.CallHalfClose? || call.CallData?) && call.stream == s ==> s in l.streams && !l.streams[s].localClosed
    ensures s in l'.streams && l'.streams[s].localClosed && !(s in l.streams && l.streams[s].localClosed) ==>
              call.CallHalfClose? && call.stream == s
    ensures s in l'.streams && l'.streams[s].remoteClosed ==> s in l.streams && l.streams[s].remoteClosed
  {
  }

  lemma TakeSpends(l: F.Ledger, b: Body, l': F.Ledger, s: nat)
    requires LedgerTaking(l, b) == F.Ok(l')
    ensures l'.maxSeen >= l.maxSeen && (NoMoreData(l, s) ==> NoMoreData(l', s))
    ensures (s in l.streams ==> s <= l.maxSeen) ==> (s in l'.streams ==> s <= l'.maxSeen)
    ensures s in l'.streams && l'.streams[s].localClosed ==> s in l.streams && l.streams[s].localClosed
    ensures s in l'.streams && l'.streams[s].remoteClosed && !(s in l.streams && l.streams[s].remoteClosed) ==>
              b == HalfClose(s)
  {
  }

  /** What a successful local call queues on the control FIFO and on the stream. */
  lemma CallQueues(e: Side, call: Call, e': Side, s: nat)
    requires Q.WellFormed(e.st.queue) && Did(e, call, e')
    ensures HalfClose(s) in Outbound(e'.st, e'.outbox) <==>
              HalfClose(s) in Outbound(e.st, e.outbox) || (call.CallHalfClose? && call.stream == s)
    ensures s in e'.st.queue.streams ==> s in e.st.queue.streams || (call.CallData? && call.stream == s)
  {
    LocalOutbound(e, call, e');
    hide Outbound;
  }

  lemma OutCall(e: Side, call: Call, e': Side, p: State, s: nat)
    requires Q.WellFormed(e.st.queue) && Did(e, call, e') && Final(e.st, p, e.outbox, s)
    ensures Final(e'.st, p, e'.outbox, s)
    ensures InOrder(e.st, p, e.outbox, s) && (call.CallHalfClose? && call.stream == s ==> s !in e.st.queue.streams) ==>
              InOrder(e'.st, p, e'.outbox, s)
  {
    CallSpends(e.st.flow, call, e'.st.flow, s);
    CallQueues(e, call, e', s);
    hide LedgerAfter, QueueAfter, Outbound, BodyOf, IsData;
  }

  /** Writing moves the first item from the queue to the end of the channel. */
  lemma WroteFrame(e: Side, e': Side, s: nat)
    requires QueueOk(e.st.role, e.st.queue) && Wrote(e, e')
    ensures var b := Q.Front(e.st.queue).item.body;
            && (HalfClose(s) in Outbound(e'.st, e'.outbox) <==> HalfClose(s) in Outbound(e.st, e.outbox))
            && (b == HalfClose(s) ==> HalfClose(s) in Outbound(e.st, e.outbox))
  {
    hide QueueOk, Outbound;
    FlushShape(e.st);
    var f := e'.outbox[|e.outbox|];
    FlushOutbound(e.st, e.outbox, e'.st, e'.outbox, f);
    BodiesHave(e.st, e.outbox);
    OutboundHas(e.st, e.outbox, HalfClose(s));
    OutboundHas(e'.st, e'.outbox, HalfClose(s));
    if Q.ControlTurn(e.st.queue) {
      assert Outbound(e'.st, e'.outbox) == Outbound(e.st, e.outbox);
    } else {
      assert f.body != HalfClose(s);
    }
  }

  lemma OutboundHas(x: State, channel: seq<Frame>, b: Body)
    ensures b in Outbound(x, channel) <==>
              b in FrameBodies(channel) || (Live(x) && b in ItemBodies(x.queue.control))
  {
    hide FrameBodies, ItemBodies;
  }

  lemma BodiesHave(x: State, channel: seq<Frame>)
    ensures forall i :: 0 <= i < |channel| ==> channel[i].body in FrameBodies(channel)
    ensures forall i :: 0 <= i < |x.queue.control| ==> x.queue.control[i].body in ItemBodies(x.queue.control)
  {
    hide FrameBodies, ItemBodies;
    forall i | 0 <= i < |channel| ensures channel[i].body in FrameBodies(channel) {
      assert FrameBodies(channel)[i] == channel[i].body;
    }
    forall i | 0 <= i < |x.queue.control| ensures x.queue.control[i].body in ItemBodies(x.queue.control) {
      assert ItemBodies(x.queue.control)[i] == x.queue.control[i].body;
    }
  }

  lemma WroteQueue(e: Side, e': Side, s: nat)
    requires QueueOk(e.st.role, e.st.queue) && Wrote(e, e')
    ensures IsData(Q.Front(e.st.queue).item.body, s) ==> s in e.st.queue.streams
    ensures s in e'.st.queue.streams ==> s in e.st.queue.streams
  {
    FlushShape(e.st);
    if !Q.ControlTurn(e.st.queue) {
      assert e.st.queue.active[0] in e.st.queue.active;
    }
  }

  lemma OutWrote(e: Side, e': Side, p: State, s: nat)
    requires QueueOk(e.st.role, e.st.queue) && Wrote(e, e') && Final(e.st, p, e.outbox, s)
    ensures Final(e'.st, p, e'.outbox, s)
    ensures InOrder(e.st, p, e.outbox, s) ==> InOrder(e'.st, p, e'.outbox, s)
  {
    hide Outbound, Q.Rest, Q.Front, Q.WellFormed, QueueOk;
    WroteFrame(e, e', s);
    WroteQueue(e, e', s);
    BodiesHave(e.st, e.outbox);
    OutboundHas(e.st, e.outbox, HalfClose(s));
  }

  lemma OutTook(e: Side, e': Side, p: State, s: nat)
    requires Q.WellFormed(e.st.queue) && Took(e, e') && Final(e.st, p, e.outbox, s)
    ensures Final(e'.st, p, e'.outbox, s)
    ensures InOrder(e.st, p, e.outbox, s) ==> InOrder(e'.st, p, e'.outbox, s)
  {
    TakeSpends(e.st.flow, e.inbox[0].body, e'.st.flow, s);
    assert Outbound(e'.st, e'.outbox) == Outbound(e.st, e.outbox);
    hide LedgerTaking, Outbound;
  }

  lemma OutShut(e: Side, e': Side, p: State, s: nat)
    requires ShutDown(e, e') && Final(e.st, p, e.outbox, s)
    ensures Final(e'.st, p, e'.outbox, s)
    ensures InOrder(e.st, p, e.outbox, s) ==> InOrder(e'.st, p, e'.outbox, s)
  {
    assert Outbound(e'.st, e'.outbox) <= Outbound(e.st, e.outbox);
    assert HalfClose(s) in Outbound(e'.st, e'.outbox) ==> HalfClose(s) in Outbound(e.st, e.outbox);
    hide Outbound;
  }

  /** Moves of the sender. */
  lemma OutHalf(e: Side, mv: Move, p: State, s: nat)
    requires SideOk(e, p.role) && Final(e.st, p, e.outbox, s)
    ensures var e' := Moved(e, mv); Final(e'.st, p, e'.outbox, s)
    ensures InOrder(e.st, p, e.outbox, s) && HalfClean(e, mv, s) ==> InOrder(Moved(e, mv).st, p, Moved(e, mv).outbox, s)
    decreases mv == FlushOut(Unflushed)
  {
    if mv == FlushOut(Unflushed) {
      UnflushedMoves(e);
      MovedShape(e, FlushOut(Written), p.role);
      OutHalf(e, FlushOut(Written), p, s);
      OutHalf(Moved(e, FlushOut(Written)), Breaks, p, s);
      return;
    }
    MoveCases(e, mv);
    var e' := Moved(e, mv);
    hide Final, InOrder;
    if e' == e {
    } else if mv.Local? && Did(e, mv.call, e') {
      OutCall(e, mv.call, e', p, s);
    } else if Wrote(e, e') {
      OutWrote(e, e', p, s);
    } else if Took(e, e') {
      OutTook(e, e', p, s);
    } else {
      OutShut(e, e', p, s);
    }
  }

  /** Moves of the receiver. */
  lemma InHalf(e: Side, mv: Move, p: State, s: nat)
    requires SideOk(e, p.role) && Final(p, e.st, e.inbox, s)
    ensures var e' := Moved(e, mv); Final(p, e'.st, e'.inbox, s)
    ensures InOrder(p, e.st, e.inbox, s) ==> InOrder(p, Moved(e, mv).st, Moved(e, mv).inbox, s)
    decreases mv == FlushOut(Unflushed)
  {
    if mv == FlushOut(Unflushed) {
      UnflushedMoves(e);
      MovedShape(e, FlushOut(Written), p.role);
      InHalf(e, FlushOut(Written), p, s);
      InHalf(Moved(e, FlushOut(Written)), Breaks, p, s);
      return;
    }
    MoveCases(e, mv);
    var e' := Moved(e, mv);
    hide Final, InOrder;
    if mv.Local? && Did(e, mv.call, e') {
      InCall(e, mv.call, e', p, s);
    } else if Took(e, e') {
      InTook(e, e', p, s);
    } else {
      InStays(e, e', p, s);
    }
  }

  lemma InCall(e: Side, call: Call, e': Side, p: State, s: nat)
    requires Did(e, call, e') && Final(p, e.st, e.inbox, s)
    ensures Final(p, e'.st, e'.inbox, s)
    ensures InOrder(p, e.st, e.inbox, s) ==> InOrder(p, e'.st, e'.inbox, s)
  {
    CallSpends(e.st.flow, call, e'.st.flow, s);
    hide LedgerAfter, QueueAfter, Outbound, BodyOf, IsData;
  }

  lemma OutboundTail(p: State, inbox: seq<Frame>, s: nat)
    requires inbox != []
    ensures HalfClose(s) in Outbound(p, inbox) <==> inbox[0].body == HalfClose(s) || HalfClose(s) in Outbound(p, inbox[1..])
  {
    assert FrameBodies(inbox) == [inbox[0].body] + FrameBodies(inbox[1..]);
    assert Outbound(p, inbox) == [inbox[0].body] + Outbound(p, inbox[1..]);
  }

  lemma InTook(e: Side, e': Side, p: State, s: nat)
    requires Took(e, e') && Final(p, e.st, e.inbox, s)
    ensures Final(p, e'.st, e'.inbox, s)
    ensures InOrder(p, e.st, e.inbox, s) ==> InOrder(p, e'.st, e'.inbox, s)
  {
    TakeSpends(e.st.flow, e.inbox[0].body, e'.st.flow, s);
    OutboundTail(p, e.inbox, s);
    hide LedgerTaking, Outbound;
  }

  /** Its ledger is as it was and at most one frame left the channel. */
  lemma InStays(e: Side, e': Side, p: State, s: nat)
    requires e'.st.flow == e.st.flow && (e'.inbox == e.inbox || (e.inbox != [] && e'.inbox == e.inbox[1..]))
    requires Final(p, e.st, e.inbox, s)
    ensures Final(p, e'.st, e'.inbox, s)
    ensures InOrder(p, e.st, e.inbox, s) ==> InOrder(p, e'.st, e'.inbox, s)
  {
    if e'.inbox != e.inbox {
      OutboundTail(p, e.inbox, s);
    }
    hide Outbound;
  }

  // ---------------------------------------------------------------- half closes in every run

  ghost predicate HalfCleanStep(n: Net, step: Step, s: nat)
    requires Q.WellFormed(n.client.queue) && Q.WellFormed(n.server.queue)
  {
    HalfClean(if step.ByClient? then ClientSide(n) else ServerSide(n), step.mv, s)
  }

  predicate FinalBoth(n: Net, s: nat) {
    Final(n.client, n.server, n.up, s) && Final(n.server, n.client, n.down, s)
  }

  ghost predicate InOrderBoth(n: Net, s: nat) {
    InOrder(n.client, n.server, n.up, s) && InOrder(n.server, n.client, n.down, s)
  }

  /** One step keeps what holds of the direction from client to server. */
  lemma UpStep(n: Net, step: Step, s: nat)
    requires Shape(n) && Final(n.client, n.server, n.up, s)
    ensures var n' := Next(n, step); Final(n'.client, n'.server, n'.up, s)
    ensures InOrder(n.client, n.server, n.up, s) && (step.ByClient? ==> HalfClean(ClientSide(n), step.mv, s)) ==>
              var n' := Next(n, step); InOrder(n'.client, n'.server, n'.up, s)
  {
    hide Moved, Final, InOrder, HalfClean;
    if step.ByClient? {
      OutHalf(ClientSide(n), step.mv, n.server, s);
    } else {
      InHalf(ServerSide(n), step.mv, n.client, s);
    }
  }

  lemma DownStep(n: Net, step: Step, s: nat)
    requires Shape(n) && Final(n.server, n.client, n.down, s)
    ensures var n' := Next(n, step); Final(n'.server, n'.client, n'.down, s)
    ensures InOrder(n.server, n.client, n.down, s) && (step.ByServer? ==> HalfClean(ServerSide(n), step.mv, s)) ==>
              var n' := Next(n, step); InOrder(n'.server, n'.client, n'.down, s)
  {
    hide Moved, Final, InOrder, HalfClean;
    if step.ByServer? {
      OutHalf(ServerSide(n), step.mv, n.client, s);
    } else {
      InHalf(ClientSide(n), step.mv, n.server, s);
    }
  }

  lemma HalfStep(n: Net, step: Step, s: nat)
    requires Shape(n) && FinalBoth(n, s)
    ensures FinalBoth(Next(n, step), s)
    ensures InOrderBoth(n, s) && HalfCleanStep(n, step, s) ==> InOrderBoth(Next(n, step), s)
  {
    hide Next, Final, InOrder, HalfClean;
    UpStep(n, step, s);
    DownStep(n, step, s);
  }

  lemma {:induction false} RunFinal(states: seq<Net>, steps: seq<Step>, k: nat, s: nat)
    requires Run(states, steps) && k < |states|
    ensures Shape(states[k]) && FinalBoth(states[k], s)
  {
    hide Next, Shape, FinalBoth, Initial;
    RunShape(states, steps, k);
    if k == 0 {
      InitialHalf(states[0], s);
    } else {
      RunFinal(states, steps, k - 1, s);
      HalfStep(states[k - 1], steps[k - 1], s);
    }
  }

  lemma RunShape(states: seq<Net>, steps: seq<Step>, k: nat)
    requires Run(states, steps) && k < |states|
    ensures Shape(states[k])
  {
    RunInv(states, steps, k);
    hide Run, Shape;
  }

  lemma InitialHalf(n: Net, s: nat)
    requires Initial(n)
    ensures FinalBoth(n, s) && InOrderBoth(n, s)
  {
  }

  lemma {:induction false} RunInOrder(states: seq<Net>, steps: seq<Step>, k: nat, s: nat)
    requires Run(states, steps) && k < |states|
    requires forall i :: 0 <= i < k ==> HalfCleanStep(states[i], steps[i], s)
    ensures InOrderBoth(states[k], s)
  {
    hide Next, FinalBoth, InOrderBoth, Shape, HalfClean, Initial;
    if k == 0 {
      InitialHalf(states[0], s);
    } else {
      RunInOrder(states, steps, k - 1, s);
      RunFinal(states, steps, k - 1, s);
      HalfStep(states[k - 1], steps[k - 1], s);
    }
  }

  /** If every half close of a stream finds nothing queued on it, DATA of the stream never meets a
      half-closed stream: it is accepted exactly while the stream is open. */
  lemma CleanHalfCloses(states: seq<Net>, steps: seq<Step>, k: nat, e: Side)
    requires Run(states, steps) && k < |states|
    requires e == ClientSide(states[k]) || e == ServerSide(states[k])
    requires Live(e.st) && e.st.tcp && e.inbox != [] && e.inbox[0].body.Data?
    requires forall i :: 0 <= i < k ==> HalfCleanStep(states[i], steps[i], e.inbox[0].body.stream)
    ensures var s := e.inbox[0].body.stream;
            s in e.st.flow.streams && e.st.flow.streams[s].phase.Open? <==> Receive(e.st, e.inbox[0], true).status.Ok?
  {
    var s := e.inbox[0].body.stream;
    DataFitsWindows(states, steps, k, e);
    RunInOrder(states, steps, k, s);
    hide Run, Receive, HalfCleanStep;
    assert IsData(e.inbox[0].body, s);
    assert !RemoteClosed(e.st, s);
  }

  // ---------------------------------------------------------------- exactly when a half close overtakes DATA

  ghost predicate RunsFrom(states: seq<Net>, steps: seq<Step>, n: Net) {
    && |states| == |steps| + 1 && states[0] == n
    && (forall i :: 0 <= i < |steps| ==>
          && Q.WellFormed(states[i].client.queue) && Q.WellFormed(states[i].server.queue)
          && states[i + 1] == Next(states[i], steps[i]))
  }

  /** The endpoint of a role and its channels. */
  function SideOf(n: Net, role: Role): Side {
    if role.Client? then ClientSide(n) else ServerSide(n)
  }

  function Peer(role: Role): Role {
    if role.Client? then Server else Client
  }

  function By(role: Role, mv: Move): Step {
    if role.Client? then ByClient(mv) else ByServer(mv)
  }

  /** What holds of the direction in which an endpoint sends. */
  predicate FinalFrom(n: Net, role: Role, s: nat) {
    Final(SideOf(n, role).st, SideOf(n, Peer(role)).st, SideOf(n, role).outbox, s)
  }

  ghost predicate InOrderFrom(n: Net, role: Role, s: nat) {
    InOrder(SideOf(n, role).st, SideOf(n, Peer(role)).st, SideOf(n, role).outbox, s)
  }

  lemma StepFrom(n: Net, step: Step, role: Role, s: nat)
    requires Shape(n) && FinalFrom(n, role, s)
    ensures Shape(Next(n, step)) && FinalFrom(Next(n, step), role, s)
    ensures InOrderFrom(n, role, s) && (step == By(role, step.mv) ==> HalfClean(SideOf(n, role), step.mv, s)) ==>
              InOrderFrom(Next(n, step), role, s)
  {
    NextShape(n, step);
    hide Shape, Next, Final, InOrder, HalfClean;
    assert Q.WellFormed(n.client.queue) && Q.WellFormed(n.server.queue);
    if role.Client? {
      UpStep(n, step, s);
    } else {
      DownStep(n, step, s);
    }
  }

  /** DATA of the stream arrives at a receiver that has already taken its half close, and is refused. */
  predicate Overtaken(n: Net, role: Role, s: nat) {
    var p := SideOf(n, Peer(role));
    && Live(p.st) && p.inbox != [] && IsData(p.inbox[0].body, s) && RemoteClosed(p.st, s)
    && Receive(p.st, p.inbox[0], true).status == F.Err(F.FlowControlViolation)
  }

  lemma StaysSpent(e: Side, mv: Move, s: nat)
    requires Q.WellFormed(e.st.queue) && NoMoreData(e.st.flow, s)
    ensures NoMoreData(Moved(e, mv).st.flow, s) && HalfClean(e, mv, s)
  {
    if mv == FlushOut(Unflushed) {
    } else {
      MoveCases(e, mv);
      var e' := Moved(e, mv);
      hide Moved;
      if mv.Local? && Did(e, mv.call, e') {
        CallSpends(e.st.flow, mv.call, e'.st.flow, s);
      } else if Took(e, e') {
        TakeSpends(e.st.flow, e.inbox[0].body, e'.st.flow, s);
      }
    }
  }

  lemma {:induction false} StaysInOrder(states: seq<Net>, steps: seq<Step>, k: nat, n: Net, role: Role, s: nat)
    requires RunsFrom(states, steps, n) && k < |states| && Shape(n) && NoMoreData(SideOf(n, role).st.flow, s)
    requires FinalFrom(n, role, s) && InOrderFrom(n, role, s)
    ensures var m := states[k];
            Shape(m) && NoMoreData(SideOf(m, role).st.flow, s) && FinalFrom(m, role, s) && InOrderFrom(m, role, s)
  {
    hide Moved, FinalFrom, InOrderFrom, HalfClean, Shape, NoMoreData;
    if k > 0 {
      StaysInOrder(states, steps, k - 1, n, role, s);
      var m, step := states[k - 1], steps[k - 1];
      if step == By(role, step.mv) {
        StaysSpent(SideOf(m, role), step.mv, s);
      }
      StepFrom(m, step, role, s);
    }
  }

  /** An endpoint is about to half-close a stream; nothing else of it is under way to the peer, and the
      stream is next in turn if it has anything queued. */
  ghost predicate Quiet(n: Net, role: Role, s: nat) {
    var e, p := SideOf(n, role), SideOf(n, Peer(role)).st;
    && Live(e.st) && Live(p) && p.tcp && e.outbox == []
    && e.st.queue.control == [] && e.st.queue.burst < Q.CONTROL_BURST
    && (s in e.st.queue.streams ==> e.st.queue.active != [] && e.st.queue.active[0] == s)
    && s in p.flow.streams && p.flow.streams[s].phase.Open?
  }

  function HalfCloseBy(role: Role, s: nat, size: Option<nat>): Step {
    By(role, Local(CallHalfClose(s, size)))
  }

  /** A clean half close is never overtaken. */
  lemma CleanNeverOvertaken(n: Net, role: Role, s: nat, size: Option<nat>, later: seq<Net>, moves: seq<Step>)
    requires Shape(n) && FinalFrom(n, role, s) && SideOf(n, role).outbox == []
    requires Called(SideOf(n, role).st, CallHalfClose(s, size)).Ok? && s !in SideOf(n, role).st.queue.streams
    requires RunsFrom(later, moves, Next(n, HalfCloseBy(role, s, size)))
    ensures !Overtaken(later[|moves|], role, s)
  {
    var call, n' := CallHalfClose(s, size), Next(n, HalfCloseBy(role, s, size));
    CalledDid(SideOf(n, role), call);
    CallSpends(SideOf(n, role).st.flow, call, SideOf(n', role).st.flow, s);
    assert InOrderFrom(n, role, s);
    StepFrom(n, HalfCloseBy(role, s, size), role, s);
    hide Next, Shape, InOrderFrom, FinalFrom, Called, NoMoreData;
    StaysInOrder(later, moves, |moves|, n', role, s);
    InOrderMeans(later[|moves|], role, s);
  }

  lemma InOrderMeans(n: Net, role: Role, s: nat)
    requires InOrderFrom(n, role, s)
    ensures !Overtaken(n, role, s)
  {
  }

  /** The queued half close is written before the DATA of its stream. */
  lemma WritesTwo(e: Side, s: nat)
    requires Q.WellFormed(e.st.queue) && Live(e.st) && s in e.st.queue.streams && e.st.queue.active[0] == s
    requires |e.st.queue.control| == 1 && e.st.queue.burst < Q.CONTROL_BURST
    ensures var e1 := Moved(e, FlushOut(Written)); Q.WellFormed(e1.st.queue) && e1.st.queue.control == []
    ensures var e2 := Moved(Moved(e, FlushOut(Written)), FlushOut(Written));
            && Q.WellFormed(e2.st.queue)
            && e2.outbox == e.outbox + [Frame(e.st.nextSend, e.st.queue.control[0].body),
                                        Frame(e.st.nextSend + 1, e.st.queue.streams[s][0].body)]
  {
    var e1 := Moved(e, FlushOut(Written));
    Q.RestWellFormed(e.st.queue);
    assert e1.outbox == e.outbox + [Frame(e.st.nextSend, e.st.queue.control[0].body)];
    Q.RestWellFormed(e1.st.queue);
  }

  lemma TakesHalfClose(e: Side, s: nat)
    requires Q.WellFormed(e.st.queue) && Live(e.st) && e.st.tcp && |e.inbox| == 2 && F.ValidId(s)
    requires e.inbox[0] == Frame(e.st.nextRecv, HalfClose(s)) && IsData(e.inbox[1].body, s)
    requires e.inbox[1].sequence == e.st.nextRecv + 1
    requires s in e.st.flow.streams && e.st.flow.streams[s].phase.Open? && !e.st.flow.streams[s].remoteClosed
    ensures var e' := Moved(e, TakeIn(true));
            && Live(e'.st) && e'.inbox == e.inbox[1..] && RemoteClosed(e'.st, s)
            && Receive(e'.st, e'.inbox[0], true).status == F.Err(F.FlowControlViolation)
  {
  }

  /** The half close and the DATA queued behind it are ready to be written, and the peer to take them. */
  ghost predicate Ready(n: Net, role: Role, s: nat) {
    var e, p := SideOf(n, role), SideOf(n, Peer(role)).st;
    && Q.WellFormed(n.client.queue) && Q.WellFormed(n.server.queue)
    && Live(e.st) && e.st.queue.burst < Q.CONTROL_BURST && e.outbox == []
    && |e.st.queue.control| == 1 && e.st.queue.control[0].body == HalfClose(s)
    && s in e.st.queue.streams && e.st.queue.active[0] == s && IsData(e.st.queue.streams[s][0].body, s)
    && Live(p) && p.tcp && F.ValidId(s) && e.st.nextSend == p.nextRecv
    && s in p.flow.streams && p.flow.streams[s].phase.Open? && !p.flow.streams[s].remoteClosed
  }

  lemma AfterHalfClose(n: Net, role: Role, s: nat, size: Option<nat>)
    requires Shape(n) && FinalFrom(n, role, s) && Quiet(n, role, s)
    requires SequenceInv(SideOf(n, role).st, SideOf(n, Peer(role)).st, SideOf(n, role).outbox)
    requires Called(SideOf(n, role).st, CallHalfClose(s, size)).Ok? && s in SideOf(n, role).st.queue.streams
    ensures Ready(Next(n, HalfCloseBy(role, s, size)), role, s)
  {
    hide Moved, Called;
    var call, e := CallHalfClose(s, size), SideOf(n, role);
    CalledDid(e, call);
    CallSpends(e.st.flow, call, SideOf(Next(n, HalfCloseBy(role, s, size)), role).st.flow, s);
    Q.PushControlKeeps(e.st.queue, Q.Item(HalfClose(s), size.value));
  }

  lemma ReadyOvertakes(n: Net, role: Role, s: nat)
    requires Ready(n, role, s)
    ensures exists later, moves :: RunsFrom(later, moves, n) && Overtaken(later[|moves|], role, s)
  {
    hide Moved, Receive, Q.WellFormed;
    WritesTwo(SideOf(n, role), s);
    var write, take := By(role, FlushOut(Written)), By(Peer(role), TakeIn(true));
    var n2 := Next(n, write);
    var n3 := Next(n2, write);
    TakesHalfClose(SideOf(n3, Peer(role)), s);
    var n4 := Next(n3, take);
    var later, moves := [n, n2, n3, n4], [write, write, take];
    assert RunsFrom(later, moves, n) && later[|moves|] == n4;
  }

  /** From a quiet state, some continuation lets the half close overtake DATA, which the peer then refuses,
      if and only if the stream has DATA queued when it is half-closed. */
  lemma HalfCloseExact(states: seq<Net>, steps: seq<Step>, k: nat, role: Role, s: nat, size: Option<nat>)
    requires Run(states, steps) && k < |states| && Quiet(states[k], role, s)
    requires Q.WellFormed(states[k].client.queue) && Q.WellFormed(states[k].server.queue)
    requires Called(SideOf(states[k], role).st, CallHalfClose(s, size)).Ok?
    ensures s in SideOf(states[k], role).st.queue.streams <==>
              exists later, moves ::
                RunsFrom(later, moves, Next(states[k], HalfCloseBy(role, s, size))) && Overtaken(later[|moves|], role, s)
  {
    var n := states[k];
    RunFinal(states, steps, k, s);
    RunSequence(states, steps, k, role);
    hide Run, Called, Next, Overtaken, Ready, Quiet, Final;
    if s in SideOf(n, role).st.queue.streams {
      AfterHalfClose(n, role, s, size);
      ReadyOvertakes(Next(n, HalfCloseBy(role, s, size)), role, s);
    } else {
      forall later, moves | RunsFrom(later, moves, Next(n, HalfCloseBy(role, s, size)))
        ensures !Overtaken(later[|moves|], role, s)
      {
        assert SideOf(n, role).outbox == [] by { QuietChannel(n, role, s); }
        CleanNeverOvertaken(n, role, s, size, later, moves);
      }
    }
  }

  lemma QuietChannel(n: Net, role: Role, s: nat)
    requires Quiet(n, role, s)
    ensures SideOf(n, role).outbox == []
  {
  }

  lemma RunSequence(states: seq<Net>, steps: seq<Step>, k: nat, role: Role)
    requires Run(states, steps) && k < |states|
    ensures var n := states[k]; SequenceInv(SideOf(n, role).st, SideOf(n, Peer(role)).st, SideOf(n, role).outbox)
  {
    RunInv(states, steps, k);
    hide Run, Shape, ConnInv, SequenceInv;
  }

  // ---------------------------------------------------------------- one run that shows both

  function Endpoint(role: Role, streams: map<nat, F.Stream>, maxSeen: nat, queue: Q.Queue<Body>, send: nat,
                    recv: nat): State {
    State(role, Active, true, true, F.Ledger(100, 100, 1, maxSeen, streams), queue,
          Q.Limits(1000, 1000, 1000), send, recv)
  }

  function Bare(burst: nat): Q.Queue<Body> {
    Q.Queue([], map[], [], burst)
  }

  function StreamOne(phase: F.StreamPhase, send: nat, recv: nat): map<nat, F.Stream> {
    map[1 := F.Stream(phase, send, recv, false, false)]
  }

  /** Before anything happened, and with stream 1 open at both ends and nothing under way. */
  function NewNet(): Net {
    Net(Endpoint(Client, map[], 0, Bare(0), 1, 1), Endpoint(Server, map[], 0, Bare(0), 1, 1), [], [], 0, 0)
  }

  function OpenNet(): Net {
    Net(Endpoint(Client, StreamOne(F.Open, 50, 50), 1, Bare(1), 2, 2),
        Endpoint(Server, StreamOne(F.Open, 50, 50), 1, Bare(1), 2, 2), [], [], 0, 0)
  }

  const OPENING: seq<Step> := [
    ByClient(Local(CallOpen(1, 50, Some(1)))), ByClient(FlushOut(Written)), ByServer(TakeIn(true)),
    ByServer(Local(CallAccept(1, 50, Some(1)))), ByServer(FlushOut(Written)), ByClient(TakeIn(true))]

  function Asking(): State {
    Endpoint(Client, StreamOne(F.OpeningLocal, 0, 50), 1, Bare(1), 2, 1)
  }

  function Asked(): State {
    Endpoint(Server, StreamOne(F.OpeningRemote, 50, 0), 1, Bare(0), 1, 2)
  }

  /** The only queued frame is written. */
  lemma WritesOnly(e: Side, item: Q.Item<Body>)
    requires Live(e.st) && e.st.queue == Q.Queue([item], map[], [], 0)
    ensures Q.WellFormed(e.st.queue)
    ensures Moved(e, FlushOut(Written))
         == e.(st := e.st.(queue := Bare(1), nextSend := e.st.nextSend + 1),
               outbox := e.outbox + [Frame(e.st.nextSend, item.body)])
  {
  }

  lemma BareAdmits(st: State, burst: nat)
    requires st.queue == Bare(burst) && st.limits == Q.Limits(1000, 1000, 1000)
    ensures Q.WellFormed(st.queue) && Q.ControlAdmission(st.queue, st.limits, 1).Accepted?
  {
  }

  lemma ClientAsks(e: Side)
    requires e.st == NewNet().client
    ensures Q.WellFormed(e.st.queue)
    ensures var e1 := Moved(e, OPENING[0].mv);
            && Q.WellFormed(e1.st.queue)
            && Moved(e1, OPENING[1].mv) == e.(st := Asking(), outbox := e.outbox + [Frame(1, OpenTcp(1, 50))])
  {
    BareAdmits(e.st, 0);
    hide Q.WellFormed, Flush;
    var e1 := Moved(e, OPENING[0].mv);
    assert e1.st.queue.control == [Q.Item(OpenTcp(1, 50), 1)];
    WritesOnly(e1, Q.Item(OpenTcp(1, 50), 1));
  }

  lemma ServerAnswers(e: Side)
    requires e.st == Asked()
    ensures Q.WellFormed(e.st.queue)
    ensures var e1 := Moved(e, OPENING[3].mv);
            && Q.WellFormed(e1.st.queue)
            && Moved(e1, OPENING[4].mv) == e.(st := OpenNet().server, outbox := e.outbox + [Frame(1, Opened(1, 50))])
  {
    BareAdmits(e.st, 0);
    hide Q.WellFormed, Flush;
    var e1 := Moved(e, OPENING[3].mv);
    assert e1.st.queue.control == [Q.Item(Opened(1, 50), 1)];
    WritesOnly(e1, Q.Item(Opened(1, 50), 1));
  }

  lemma ServerLearns1(e: Side)
    requires e.st == NewNet().server && e.inbox == [Frame(1, OpenTcp(1, 50))]
    ensures Q.WellFormed(e.st.queue) && Moved(e, OPENING[2].mv) == e.(st := Asked(), inbox := [])
  {
  }

  lemma ClientLearns1(e: Side)
    requires e.st == Asking() && e.inbox == [Frame(1, Opened(1, 50))]
    ensures Q.WellFormed(e.st.queue) && Moved(e, OPENING[5].mv) == e.(st := OpenNet().client, inbox := [])
  {
  }

  lemma Opening() returns (states: seq<Net>)
    ensures Run(states, OPENING) && |states| == 7 && states[6] == OpenNet()
  {
    hide Moved, StreamOne, Bare, Q.WellFormed, Initial;
    BareWellFormed();
    var n := NewNet();
    ClientAsks(ClientSide(n));
    var n1 := Next(n, OPENING[0]);
    var n2 := Next(n1, OPENING[1]);
    ServerLearns1(ServerSide(n2));
    var n3 := Next(n2, OPENING[2]);
    ServerAnswers(ServerSide(n3));
    var n4 := Next(n3, OPENING[3]);
    var n5 := Next(n4, OPENING[4]);
    ClientLearns1(ClientSide(n5));
    var n6 := Next(n5, OPENING[5]);
    assert n6.client == OpenNet().client && n6.server == OpenNet().server;
    assert n6.up == [] && n6.down == [];
    states := [n, n1, n2, n3, n4, n5, n6];
    NewIsInitial();
  }

  lemma BareWellFormed()
    ensures Q.WellFormed(Bare(0)) && Q.WellFormed(Bare(1))
  {
  }

  lemma NewIsInitial()
    ensures Initial(NewNet())
  {
  }

  /** Stream 1 is open at both ends and one byte of DATA waits to be written. */
  ghost predicate Loaded(n: Net) {
    && n.client == OpenNet().client.(flow := n.client.flow, queue := Q.Queue([], map[1 := [Q.Item(Data(1, [0]), 1)]], [1], 1))
    && 1 in n.client.flow.streams && n.client.flow.streams[1] == F.Stream(F.Open, 49, 50, false, false)
    && n == OpenNet().(client := n.client)
  }

  lemma LoadedWellFormed(n: Net)
    requires Loaded(n)
    ensures Q.WellFormed(n.client.queue) && Q.WellFormed(n.server.queue)
    ensures Q.ControlAdmission(n.client.queue, n.client.limits, 1).Accepted?
  {
    var q := n.client.queue;
    assert q.active[1..] == [] && q.streams[1][1..] == [];
    assert Q.TotalBytes(q) == 1;
  }

  lemma QueuesByte(n: Net)
    requires n == OpenNet()
    ensures Q.WellFormed(n.client.queue) && Q.WellFormed(n.server.queue)
    ensures Loaded(Next(n, ByClient(Local(CallData(1, [0], Some(1))))))
  {
    BareAdmits(n.client, 1);
    assert Chunk([0]) == [0];
    var item := Q.Item(Data(1, [0]), 1);
    var q := Q.PushStream(n.client.queue, 1, item);
    assert Q.Pending(n.client.queue, 1) + [item] == [item];
    assert q.streams == map[1 := [Q.Item(Data(1, [0]), 1)]] && q.active == [1];
    assert F.DebitSend(n.client.flow, 1, 1).Ok?;
  }

  lemma Extended(states: seq<Net>, steps: seq<Step>, step: Step)
    requires Run(states, steps)
    requires var n := states[|steps|]; Q.WellFormed(n.client.queue) && Q.WellFormed(n.server.queue)
    ensures Run(states + [Next(states[|steps|], step)], steps + [step])
  {
    hide Next, Initial;
  }

  lemma Loading() returns (states: seq<Net>, steps: seq<Step>)
    ensures Run(states, steps) && Loaded(states[|steps|])
  {
    hide Run, Next, OpenNet, Loaded, Q.WellFormed;
    states := Opening();
    QueuesByte(OpenNet());
    var data := ByClient(Local(CallData(1, [0], Some(1))));
    Extended(states, OPENING, data);
    states, steps := states + [Next(OpenNet(), data)], OPENING + [data];
  }

  predicate Leaks(n: Net) {
    Live(n.client) && Live(n.server) && n.lostUp > 0
  }

  lemma CloseLeaks(n: Net)
    requires Loaded(n) && Q.WellFormed(n.client.queue) && Q.WellFormed(n.server.queue)
    ensures Leaks(Next(n, ByClient(Local(CallClose(1, Some(1))))))
  {
    LoadedWellFormed(n);
    hide Q.WellFormed, Q.ControlAdmission;
    var q := n.client.queue;
    assert Weigh(Q.Pending(q, 1)) == [Q.Item(Data(1, [0]), 1)];
  }

  /** Credit is lost in some run: queued DATA is cancelled by closing its stream while both sides are live. */
  lemma LossHappens()
    ensures exists states, steps :: Run(states, steps) && Leaks(states[|steps|])
  {
    hide Run, Next, Loaded, Leaks, Q.WellFormed;
    var states, steps := Loading();
    RunLength(states, steps);
    var n, close := states[|steps|], ByClient(Local(CallClose(1, Some(1))));
    LoadedWellFormed(n);
    CloseLeaks(n);
    Extended(states, steps, close);
    var all, every := states + [Next(n, close)], steps + [close];
    assert all[|every|] == Next(n, close);
  }

  lemma LoadedQuiet(n: Net)
    requires Loaded(n) && Q.WellFormed(n.client.queue)
    ensures Quiet(n, Client, 1) && Called(n.client, CallHalfClose(1, Some(1))).Ok? && 1 in n.client.queue.streams
  {
    LoadedWellFormed(n);
    hide Q.WellFormed, Q.ControlAdmission;
  }

  lemma {:induction false} Joined(states: seq<Net>, steps: seq<Step>, later: seq<Net>, moves: seq<Step>)
    requires Run(states, steps) && RunsFrom(later, moves, states[|steps|])
    ensures exists all, every :: Run(all, every) && all[|every|] == later[|moves|]
    decreases |moves|
  {
    hide Next, Initial;
    if moves == [] {
      assert Run(states, steps) && states[|steps|] == later[|moves|];
    } else {
      Extended(states, steps, moves[0]);
      Joined(states + [later[1]], steps + [moves[0]], later[1..], moves[1..]);
    }
  }

  /** In some run DATA is refused because the half close of its stream overtook it. */
  lemma OvertakingHappens()
    ensures exists states, steps :: Run(states, steps) && Overtaken(states[|steps|], Client, 1)
  {
    hide Run, Next, Loaded, Overtaken, Quiet, Called, Q.WellFormed;
    var states, steps := Loading();
    RunLength(states, steps);
    var n, half := states[|steps|], HalfCloseBy(Client, 1, Some(1));
    LoadedWellFormed(n);
    LoadedQuiet(n);
    HalfCloseExact(states, steps, |steps|, Client, 1, Some(1));
    var later, moves :| RunsFrom(later, moves, Next(n, half)) && Overtaken(later[|moves|], Client, 1);
    Extended(states, steps, half);
    Joined(states + [Next(n, half)], steps + [half], later, moves);
  }

  lemma RunLength(states: seq<Net>, steps: seq<Step>)
    requires Run(states, steps)
    ensures |states| == |steps| + 1
  {
  }
}
