/**
 How one move of one endpoint changes the credit lanes of a stream, in both directions.
 */
module SessionLanes {
  import opened Options
  import Q = FairQueue
  import F = FlowControl
  import C = CreditLane
  import opened Session
  import opened SessionPipes
  import opened SessionNetwork

  function SendOf(l: F.Ledger, s: nat): Option<nat> {
    if s in l.streams then Some(l.streams[s].send) else None
  }

  function RecvOf(l: F.Ledger, s: nat): Option<nat> {
    if s in l.streams then Some(l.streams[s].recv) else None
  }

  ghost function DebitedData(x: State, channel: seq<Frame>, s: nat): nat {
    DataIn(FrameBodies(channel), s) + if Live(x) then QueuedData(x.queue, s) else 0
  }

  /** The lane of stream s from x to y; `xy` and `yx` are the channels between them. */
  ghost function LaneOf(x: State, y: State, xy: seq<Frame>, yx: seq<Frame>, s: nat): C.Lane {
    C.Lane(Live(x), Live(y), SendOf(x.flow, s), Updates(Outbound(y, yx), s), DebitedData(x, xy, s), RecvOf(y.flow, s))
  }

  /** The lane on which the endpoint sends. */
  ghost function OutLane(e: Side, p: State, s: nat): C.Lane {
    LaneOf(e.st, p, e.outbox, e.inbox, s)
  }

  /** The lane on which the endpoint receives. */
  ghost function InLane(e: Side, p: State, s: nat): C.Lane {
    LaneOf(p, e.st, e.inbox, e.outbox, s)
  }

  function Announced(call: Call, s: nat): seq<C.Update> {
    if call.CallData? then [] else UpdateOf(BodyOf(call), s)
  }

  lemma LocalOutbound(e: Side, call: Call, e': Side)
    requires Did(e, call, e')
    ensures Outbound(e'.st, e'.outbox) == Outbound(e.st, e.outbox) + if call.CallData? then [] else [BodyOf(call)]
  {
    if !call.CallData? {
      assert ItemBodies(e'.st.queue.control) == ItemBodies(e.st.queue.control) + [BodyOf(call)];
      var a, b, c := FrameBodies(e.outbox), ItemBodies(e.st.queue.control), [BodyOf(call)];
      assert a + (b + c) == (a + b) + c;
    }
  }

  lemma LocalQueuedData(e: Side, call: Call, e': Side, s: nat)
    requires Q.WellFormed(e.st.queue) && Did(e, call, e')
    ensures QueuedData(e'.st.queue, s)
         == if call.CallData? && call.stream == s then QueuedData(e.st.queue, s) + |Chunk(call.payload)|
            else if call.CallClose? && call.stream == s then 0
            else QueuedData(e.st.queue, s)
  {
    if call.CallData? {
      LoadPushStream(e.st.queue, call.stream, Q.Item(BodyOf(call), call.size.value));
    } else if call.CallClose? {
      LoadCancel(e.st.queue, call.stream);
    }
  }

  /** The effect of a successful call on the two lanes of a stream, given the new ledger. */
  predicate LanesCalled(call: Call, l': F.Ledger, out: C.Lane, inn: C.Lane, out': C.Lane, inn': C.Lane, s: nat) {
    && out.xLive && inn.yLive
    && (if call.CallClose? && call.stream == s then out'.data <= out.data
        else out'.data == out.data + if call.CallData? && call.stream == s then |Chunk(call.payload)| else 0)
    && out' == out.(send := SendOf(l', s), data := out'.data)
    && inn' == inn.(ups := inn.ups + Announced(call, s), recv := RecvOf(l', s))
  }

  lemma LocalLanes(e: Side, call: Call, e': Side, p: State, s: nat)
    requires Q.WellFormed(e.st.queue) && Did(e, call, e')
    ensures LanesCalled(call, e'.st.flow, OutLane(e, p, s), InLane(e, p, s), OutLane(e', p, s), InLane(e', p, s), s)
  {
    LocalQueuedData(e, call, e', s);
    LocalUpdates(e, call, e', s);
  }

  lemma LocalUpdates(e: Side, call: Call, e': Side, s: nat)
    requires Did(e, call, e')
    ensures Updates(Outbound(e'.st, e'.outbox), s) == Updates(Outbound(e.st, e.outbox), s) + Announced(call, s)
  {
    LocalOutbound(e, call, e');
    UpdatesConcat(Outbound(e.st, e.outbox), if call.CallData? then [] else [BodyOf(call)], s);
    Single(BodyOf(call), s);
  }

  // ---------------------------------------------------------------- flushing

  /** Writing a control frame only moves it from the queue to the channel. */
  lemma FlushOutbound(st: State, channel: seq<Frame>, st': State, channel': seq<Frame>, f: Frame)
    requires Live(st) && Live(st') && channel' == channel + [f]
    ensures st.queue.control != [] && f.body == st.queue.control[0].body && st'.queue.control == st.queue.control[1..] ==>
              Outbound(st', channel') == Outbound(st, channel)
    ensures st'.queue.control == st.queue.control ==>
              Outbound(st', channel') == FrameBodies(channel) + [f.body] + ItemBodies(st.queue.control)
  {
    var x, y := FrameBodies(channel), ItemBodies(st'.queue.control);
    assert FrameBodies(channel') == x + [f.body];
    assert x + ([f.body] + y) == (x + [f.body]) + y;
    if st.queue.control != [] && f.body == st.queue.control[0].body && st'.queue.control == st.queue.control[1..] {
      assert ItemBodies(st.queue.control) == [f.body] + y;
    }
  }

  lemma WroteOutbound(e: Side, e': Side, s: nat)
    requires QueueOk(e.st.role, e.st.queue) && Wrote(e, e')
    ensures Updates(Outbound(e'.st, e'.outbox), s) == Updates(Outbound(e.st, e.outbox), s)
    ensures CreditIn(Outbound(e'.st, e'.outbox)) == CreditIn(Outbound(e.st, e.outbox))
  {
    FlushShape(e.st);
    var f := e'.outbox[|e.outbox|];
    FlushOutbound(e.st, e.outbox, e'.st, e'.outbox, f);
    if Q.Front(e.st.queue).FromStream? {
      var a, c := FrameBodies(e.outbox), ItemBodies(e.st.queue.control);
      UpdatesConcat(a + [f.body], c, s);
      UpdatesConcat(a, [f.body], s);
      UpdatesConcat(a, c, s);
      SumsConcat(a + [f.body], c, s);
      SumsConcat(a, [f.body], s);
      SumsConcat(a, c, s);
      Single(f.body, s);
      assert Updates(a, s) + [] == Updates(a, s);
    }
  }

  lemma WroteData(e: Side, e': Side, s: nat)
    requires QueueOk(e.st.role, e.st.queue) && Wrote(e, e')
    ensures DebitedData(e'.st, e'.outbox, s) == DebitedData(e.st, e.outbox, s)
    ensures Q.WellFormed(e'.st.queue)
    ensures AllDataIn(FrameBodies(e'.outbox)) + Load(e'.st.queue) == AllDataIn(FrameBodies(e.outbox)) + Load(e.st.queue)
  {
    FlushShape(e.st);
    var f := e'.outbox[|e.outbox|];
    assert FrameBodies(e'.outbox) == FrameBodies(e.outbox) + [f.body];
    SumsConcat(FrameBodies(e.outbox), [f.body], s);
    Single(f.body, s);
    QueuedDataRest(e.st.queue, s);
    LoadRest(e.st.queue);
  }

  lemma FlushLanes(e: Side, e': Side, p: State, s: nat)
    requires QueueOk(e.st.role, e.st.queue) && Wrote(e, e')
    ensures OutLane(e', p, s) == OutLane(e, p, s) && InLane(e', p, s) == InLane(e, p, s)
  {
    WroteOutbound(e, e', s);
    WroteData(e, e', s);
  }

  // ---------------------------------------------------------------- receiving

  lemma TakeInbox(p: State, inbox: seq<Frame>, s: nat)
    requires inbox != []
    ensures Updates(Outbound(p, inbox), s) == UpdateOf(inbox[0].body, s) + Updates(Outbound(p, inbox[1..]), s)
    ensures DataIn(FrameBodies(inbox), s) == DataOf(inbox[0].body, s) + DataIn(FrameBodies(inbox[1..]), s)
    ensures AllDataIn(FrameBodies(inbox)) == Bytes(inbox[0].body) + AllDataIn(FrameBodies(inbox[1..]))
    ensures CreditIn(Outbound(p, inbox)) == CreditOf(inbox[0].body) + CreditIn(Outbound(p, inbox[1..]))
  {
    assert FrameBodies(inbox)[1..] == FrameBodies(inbox[1..]);
    assert Outbound(p, inbox)[1..] == Outbound(p, inbox[1..]);
  }

  lemma TakeQueue(e: Side, b: Body, s: nat)
    requires Q.WellFormed(e.st.queue)
    ensures QueueTaking(e.st.queue, b).control == e.st.queue.control
    ensures QueuedData(QueueTaking(e.st.queue, b), s) == if b == CloseStream(s) then 0 else QueuedData(e.st.queue, s)
  {
    if b.CloseStream? {
      LoadCancel(e.st.queue, b.stream);
    }
  }

  /** The effect of taking a message on the two lanes of a stream, given the new ledger. */
  predicate LanesTook(b: Body, l': F.Ledger, out: C.Lane, inn: C.Lane, out': C.Lane, inn': C.Lane, s: nat) {
    && out.xLive && inn.yLive
    && out.ups == UpdateOf(b, s) + out'.ups
    && out'.data <= out.data && (b != CloseStream(s) ==> out'.data == out.data)
    && out' == out.(send := SendOf(l', s), ups := out'.ups, data := out'.data)
    && inn.data >= DataOf(b, s)
    && inn' == inn.(data := inn.data - DataOf(b, s), recv := RecvOf(l', s))
  }

  lemma TakeLanes(e: Side, e': Side, p: State, s: nat)
    requires Q.WellFormed(e.st.queue) && Took(e, e')
    ensures LanesTook(e.inbox[0].body, e'.st.flow, OutLane(e, p, s), InLane(e, p, s), OutLane(e', p, s), InLane(e', p, s), s)
  {
    TakeInbox(p, e.inbox, s);
    TakeQueue(e, e.inbox[0].body, s);
    assert Outbound(e'.st, e'.outbox) == Outbound(e.st, e.outbox);
  }

  // ---------------------------------------------------------------- closing

  lemma ShutLanes(e: Side, e': Side, p: State, s: nat)
    requires ShutDown(e, e')
    requires C.LaneOk(OutLane(e, p, s)) && C.LaneOk(InLane(e, p, s))
    ensures C.LaneOk(OutLane(e', p, s)) && C.LaneOk(InLane(e', p, s))
    ensures C.Sets(OutLane(e', p, s).ups) <= C.Sets(OutLane(e, p, s).ups)
    ensures C.Sets(InLane(e', p, s).ups) <= C.Sets(InLane(e, p, s).ups)
    ensures OutLane(e, p, s).ups == [] ==> OutLane(e', p, s).ups == []
    ensures InLane(e, p, s).ups == [] ==> InLane(e', p, s).ups == []
    ensures OutLane(e', p, s).data <= OutLane(e, p, s).data && InLane(e', p, s).data <= InLane(e, p, s).data
  {
    if e'.inbox != e.inbox {
      TakeInbox(p, e.inbox, s);
      C.SetsPrefix(UpdateOf(e.inbox[0].body, s), Updates(Outbound(p, e.inbox[1..]), s));
    }
    C.SenderShut(OutLane(e, p, s), OutLane(e', p, s));
    UpdatesConcat(FrameBodies(e.outbox), ItemBodies(e.st.queue.control), s);
    assert Outbound(e'.st, e'.outbox) == FrameBodies(e.outbox);
    C.ReceiverShut(InLane(e, p, s), InLane(e', p, s), Updates(ItemBodies(e.st.queue.control), s));
  }
}
