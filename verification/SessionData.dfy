/**
 The bytes of a stream from end to end: in every run of two sessions the peer takes exactly the bytes that
 were accepted for sending, in their order.
 */
module SessionData {
  import opened Options
  import Q = FairQueue
  import F = FlowControl
  import opened Session
  import opened SessionPipes
  import opened SessionNetwork
  import opened SessionSafety
  import opened SessionCloses

  // ---------------------------------------------------------------- the bytes that frames carry

  function PayloadOf(b: Body, s: nat): Payload {
    if IsData(b, s) then b.payload else []
  }

  /** The DATA bytes of one stream in a row of messages. */
  function Carried(bodies: seq<Body>, s: nat): Payload {
    if bodies == [] then [] else PayloadOf(bodies[0], s) + Carried(bodies[1..], s)
  }

  lemma {:induction false} CarriedConcat(a: seq<Body>, b: seq<Body>, s: nat)
    ensures Carried(a + b, s) == Carried(a, s) + Carried(b, s)
  {
    if a == [] {
      assert a + b == b;
    } else {
      CarriedConcat(a[1..], b, s);
      assert (a + b)[1..] == a[1..] + b && (a + b)[0] == a[0];
      hide PayloadOf;
      var x, y, z := PayloadOf(a[0], s), Carried(a[1..], s), Carried(b, s);
      assert x + (y + z) == (x + y) + z;
    }
  }

  lemma CarriedOne(b: Body, s: nat)
    ensures Carried([b], s) == PayloadOf(b, s)
  {
    assert [b][1..] == [];
  }

  function InChannel(frames: seq<Frame>, s: nat): Payload {
    Carried(FrameBodies(frames), s)
  }

  function Queued(q: Q.Queue<Body>, s: nat): Payload {
    Carried(ItemBodies(Q.Pending(q, s)), s)
  }

  /** What an endpoint has sent or will send of a stream, as far as the peer has not taken it. */
  function Outgoing(e: Side, s: nat): Payload {
    InChannel(e.outbox, s) + Queued(e.st.queue, s)
  }

  lemma ChannelGrows(frames: seq<Frame>, f: Frame, s: nat)
    ensures InChannel(frames + [f], s) == InChannel(frames, s) + PayloadOf(f.body, s)
  {
    assert FrameBodies(frames + [f]) == FrameBodies(frames) + [f.body];
    CarriedConcat(FrameBodies(frames), [f.body], s);
    CarriedOne(f.body, s);
  }

  lemma QueueGrows(items: seq<Q.Item<Body>>, item: Q.Item<Body>, s: nat)
    ensures Carried(ItemBodies(items + [item]), s) == Carried(ItemBodies(items), s) + PayloadOf(item.body, s)
  {
    assert ItemBodies(items + [item]) == ItemBodies(items) + [item.body];
    CarriedConcat(ItemBodies(items), [item.body], s);
    CarriedOne(item.body, s);
  }

  lemma QueueShrinks(items: seq<Q.Item<Body>>, s: nat)
    requires items != []
    ensures Carried(ItemBodies(items), s) == PayloadOf(items[0].body, s) + Carried(ItemBodies(items[1..]), s)
  {
    assert ItemBodies(items)[1..] == ItemBodies(items[1..]);
  }

  // ---------------------------------------------------------------- accepted calls

  /** The part of a payload that one call takes: all of it, or its first 32768 bytes. */
  function Part(payload: Payload): Payload {
    payload[..if |payload| < 32768 then |payload| else 32768]
  }

  /** An accepted DATA call queues the front of its payload behind what the stream has queued, debits as many
      bytes from both windows and touches nothing else. */
  lemma DataCall(st: State, s: nat, payload: Payload, size: Option<nat>)
    requires Q.WellFormed(st.queue) && Called(st, CallData(s, payload, size)).Ok?
    ensures var st' := Called(st, CallData(s, payload, size)).value;
            && size.Some? && payload != [] && s in st.flow.streams && s in st'.flow.streams
            && Q.Pending(st'.queue, s) == Q.Pending(st.queue, s) + [Q.Item(Data(s, Part(payload)), size.value)]
            && (forall t: nat :: t != s ==> Q.Pending(st'.queue, t) == Q.Pending(st.queue, t))
            && st'.queue.control == st.queue.control
            && st'.flow.connSend + |Part(payload)| == st.flow.connSend
            && st'.flow.streams[s].send + |Part(payload)| == st.flow.streams[s].send
            && st' == st.(queue := st'.queue, flow := st'.flow)
  {
    assert Chunk(payload) == Part(payload);
  }

  /** The bytes that a move adds to what the endpoint has accepted for a stream. */
  ghost function Offer(e: Side, mv: Move, s: nat): Payload
    requires Q.WellFormed(e.st.queue)
  {
    if mv.Local? && mv.call.CallData? && mv.call.stream == s && Called(e.st, mv.call).Ok? then Part(mv.call.payload) else []
  }

  // ---------------------------------------------------------------- the sending endpoint moves

  lemma CallMoves(e: Side, call: Call, s: nat)
    requires Q.WellFormed(e.st.queue) && Called(e.st, call).Ok?
    ensures var e' := Moved(e, Local(call));
            && e'.outbox == e.outbox
            && (!Drops(e, Local(call), s) ==>
                  Queued(e'.st.queue, s) == Queued(e.st.queue, s) + Offer(e, Local(call), s))
  {
    CalledDid(e, call);
    if call.CallData? && call.stream == s {
      DataCall(e.st, s, call.payload, call.size);
      QueueGrows(Q.Pending(e.st.queue, s), Q.Item(Data(s, Part(call.payload)), call.size.value), s);
    } else {
      hide Called;
      var e' := Moved(e, Local(call));
      hide Moved;
      assert call.CallClose? && call.stream == s ==> Drops(e, Local(call), s);
      assert !Drops(e, Local(call), s) ==> Q.Pending(e'.st.queue, s) == Q.Pending(e.st.queue, s);
    }
  }

  /** A written frame goes from the front of its queue to the end of the channel. */
  lemma RestMoves(st: State, s: nat)
    requires QueueOk(st.role, st.queue) && !Q.Front(st.queue).Nothing?
    ensures var q' := Q.Rest(st.queue); var b := Q.Front(st.queue).item.body;
            && Queued(st.queue, s) == PayloadOf(b, s) + Queued(q', s)
            && (s !in st.queue.streams ==> s !in q'.streams && PayloadOf(b, s) == [])
  {
    var q, f := st.queue, Q.Front(st.queue);
    FlushShape(st);
    hide QueueOk;
    if f.FromStream? && f.stream == s {
      assert s in q.active;
      QueueShrinks(q.streams[s], s);
      assert Q.Pending(Q.Rest(q), s) == q.streams[s][1..];
    } else {
      assert Q.Pending(Q.Rest(q), s) == Q.Pending(q, s);
    }
  }

  lemma Regroup(a: Payload, b: Payload, c: Payload)
    ensures (a + b) + c == a + (b + c) && a <= a + b
  {
  }

  lemma WriteMoves(e: Side, e': Side, s: nat)
    requires QueueOk(e.st.role, e.st.queue) && Wrote(e, e')
    ensures Outgoing(e', s) == Outgoing(e, s)
    ensures InChannel(e.outbox, s) <= InChannel(e'.outbox, s)
    ensures s !in e.st.queue.streams ==> s !in e'.st.queue.streams && InChannel(e'.outbox, s) == InChannel(e.outbox, s)
  {
    var b := Q.Front(e.st.queue).item.body;
    ChannelGrows(e.outbox, Frame(e.st.nextSend, b), s);
    RestMoves(e.st, s);
    hide QueueOk, Q.Rest, Q.Front, PayloadOf, InChannel, Queued, Q.WellFormed;
    Regroup(InChannel(e.outbox, s), PayloadOf(b, s), Queued(e'.st.queue, s));
  }

  lemma TakeMoves(e: Side, wellFormed: bool, s: nat)
    requires Q.WellFormed(e.st.queue) && Took(e, Moved(e, TakeIn(wellFormed)))
    ensures var e' := Moved(e, TakeIn(wellFormed));
            && e'.outbox == e.outbox
            && (!Drops(e, TakeIn(wellFormed), s) ==> Queued(e'.st.queue, s) == Queued(e.st.queue, s))
  {
    var e' := Moved(e, TakeIn(wellFormed));
    if e.inbox[0].body == CloseStream(s) {
      assert Drops(e, TakeIn(wellFormed), s);
    } else {
      assert Q.Pending(e'.st.queue, s) == Q.Pending(e.st.queue, s);
    }
  }

  /** A live endpoint that does not drop the stream adds to it exactly what a call offers. */
  lemma SenderExact(e: Side, mv: Move, s: nat)
    requires QueueOk(e.st.role, e.st.queue) && Live(Moved(e, mv).st) && !Drops(e, mv, s)
    ensures Outgoing(Moved(e, mv), s) == Outgoing(e, s) + Offer(e, mv, s)
  {
    assert Q.WellFormed(e.st.queue);
    hide Called, Flush, Receive, QueuedData, InChannel, Queued, Drops, QueueOk, Q.WellFormed;
    match mv
    case Local(call) =>
      if Called(e.st, call).Ok? {
        CallMoves(e, call, s);
        Regroup(InChannel(e.outbox, s), Queued(e.st.queue, s), Offer(e, mv, s));
      }
    case FlushOut(writing) =>
      LiveWrites(e, writing);
      if Wrote(e, Moved(e, mv)) {
        WriteMoves(e, Moved(e, mv), s);
      }
    case TakeIn(wellFormed) =>
      if Live(e.st) && e.inbox != [] {
        TakenDid(e, wellFormed);
        TakeMoves(e, wellFormed, s);
      }
    case Breaks =>
  }

  lemma LiveWrites(e: Side, writing: Writing)
    requires Q.WellFormed(e.st.queue) && Live(Moved(e, FlushOut(writing)).st)
    ensures Moved(e, FlushOut(writing)) == e || Wrote(e, Moved(e, FlushOut(writing)))
  {
  }

  /** An endpoint that drops the stream sends nothing more of it, and what was queued is gone. */
  lemma SenderDrops(e: Side, mv: Move, s: nat)
    requires Q.WellFormed(e.st.queue) && Drops(e, mv, s) && (s in e.st.flow.streams ==> s <= e.st.flow.maxSeen)
    ensures var e' := Moved(e, mv);
            && e'.outbox == e.outbox && Offer(e, mv, s) == []
            && (Live(e'.st) ==> NoMoreData(e'.st.flow, s) && s !in e'.st.queue.streams)
  {
  }

  /** A spent stream stays spent. */
  lemma SenderSpent(e: Side, mv: Move, s: nat)
    requires QueueOk(e.st.role, e.st.queue) && Live(e.st) && NoMoreData(e.st.flow, s) && s !in e.st.queue.streams
    ensures var e' := Moved(e, mv);
            && NoMoreData(e'.st.flow, s) && s !in e'.st.queue.streams
            && InChannel(e'.outbox, s) == InChannel(e.outbox, s) && Offer(e, mv, s) == []
  {
    assert Q.WellFormed(e.st.queue);
    StaysSpent(e, mv, s);
    hide Called, Receive, QueuedData, InChannel, Drops, QueueOk, Q.WellFormed, NoMoreData;
    match mv
    case Local(call) =>
      if Called(e.st, call).Ok? {
        SpentCall(e, call, s);
      }
    case FlushOut(_) =>
      SpentWrite(e, s);
    case TakeIn(wellFormed) =>
      SpentTake(e, wellFormed, s);
    case Breaks =>
  }

  lemma SpentCall(e: Side, call: Call, s: nat)
    requires Q.WellFormed(e.st.queue) && Called(e.st, call).Ok? && NoMoreData(e.st.flow, s) && s !in e.st.queue.streams
    ensures var e' := Moved(e, Local(call));
            e'.outbox == e.outbox && s !in e'.st.queue.streams && !(call.CallData? && call.stream == s)
  {
    CalledDid(e, call);
    var e' := Moved(e, Local(call));
    hide Moved, Called;
    CallSpends(e.st.flow, call, e'.st.flow, s);
  }

  lemma SpentWrite(e: Side, s: nat)
    requires QueueOk(e.st.role, e.st.queue) && s !in e.st.queue.streams
    ensures !Q.Front(e.st.queue).Nothing? ==>
              && s !in Q.Rest(e.st.queue).streams
              && InChannel(e.outbox + [Frame(e.st.nextSend, Q.Front(e.st.queue).item.body)], s) == InChannel(e.outbox, s)
  {
    if !Q.Front(e.st.queue).Nothing? {
      RestMoves(e.st, s);
      ChannelGrows(e.outbox, Frame(e.st.nextSend, Q.Front(e.st.queue).item.body), s);
    }
  }

  lemma SpentTake(e: Side, wellFormed: bool, s: nat)
    requires Q.WellFormed(e.st.queue) && s !in e.st.queue.streams
    ensures var e' := Moved(e, TakeIn(wellFormed)); e'.outbox == e.outbox && s !in e'.st.queue.streams
  {
  }

  /** An endpoint that closes, or is closed, has sent a front part of what it was to send. */
  lemma SenderShuts(e: Side, mv: Move, s: nat)
    requires QueueOk(e.st.role, e.st.queue) && !Live(Moved(e, mv).st)
    ensures var e' := Moved(e, mv);
            && InChannel(e.outbox, s) <= InChannel(e'.outbox, s) <= Outgoing(e, s) && Offer(e, mv, s) == []
            && (!Live(e.st) ==> e'.outbox == e.outbox)
  {
    if mv == FlushOut(Unflushed) && Live(e.st) {
      UnflushedMoves(e);
      var e1 := Moved(e, FlushOut(Written));
      MoveCases(e, FlushOut(Written));
      if Wrote(e, e1) {
        WriteMoves(e, e1, s);
      }
    } else if mv.Local? && Called(e.st, mv.call).Ok? {
      CalledDid(e, mv.call);
    }
  }

  // ---------------------------------------------------------------- whole runs

  /** The bytes of a stream in the frame that the peer takes off the channel in a step. */
  function Take(channel: seq<Frame>, channel': seq<Frame>, s: nat): Payload {
    if channel != [] && |channel'| < |channel| then PayloadOf(channel[0].body, s) else []
  }

  /** All bytes accepted for a stream, call after call. */
  ghost function Accepted(states: seq<Net>, steps: seq<Step>, k: nat, role: Role, s: nat): Payload
    requires Run(states, steps) && k < |states|
  {
    if k == 0 then []
    else
      RunShape(states, steps, k - 1);
      Accepted(states, steps, k - 1, role, s) +
      if steps[k - 1] == By(role, steps[k - 1].mv) then Offer(SideOf(states[k - 1], role), steps[k - 1].mv, s) else []
  }

  /** All bytes of a stream that the peer has taken off the channel, frame after frame. */
  ghost function Delivered(states: seq<Net>, steps: seq<Step>, k: nat, role: Role, s: nat): Payload
    requires Run(states, steps) && k < |states|
  {
    if k == 0 then []
    else
      Delivered(states, steps, k - 1, role, s)
      + Take(SideOf(states[k - 1], role).outbox, SideOf(states[k], role).outbox, s)
  }

  /** The step is not one by which the endpoint drops the stream. */
  ghost predicate Holds(n: Net, step: Step, role: Role, s: nat)
    requires Q.WellFormed(SideOf(n, role).st.queue)
  {
    step == By(role, step.mv) ==> !Drops(SideOf(n, role), step.mv, s)
  }

  /** Up to the k-th state the endpoint has not dropped the stream. */
  ghost predicate Undropped(states: seq<Net>, steps: seq<Step>, k: nat, role: Role, s: nat)
    requires Run(states, steps) && k < |states|
  {
    forall i :: 0 <= i < k ==> Q.WellFormed(SideOf(states[i], role).st.queue) && Holds(states[i], steps[i], role, s)
  }

  /** Either everything accepted is delivered, in the channel or queued; or the stream is over for its sender. */
  ghost predicate Account(e: Side, s: nat, accepted: Payload, delivered: Payload, whole: bool) {
    && delivered + InChannel(e.outbox, s) <= accepted
    && (whole && Live(e.st) ==> accepted == delivered + Outgoing(e, s))
    && (!whole && Live(e.st) ==> NoMoreData(e.st.flow, s) && s !in e.st.queue.streams)
  }

  lemma Extend(d: Payload, c: Payload, q: Payload, c': Payload)
    requires c' <= c + q
    ensures d + c' <= d + (c + q)
  {
  }

  lemma SenderAccount(e: Side, mv: Move, s: nat, accepted: Payload, delivered: Payload, whole: bool)
    requires QueueOk(e.st.role, e.st.queue) && Account(e, s, accepted, delivered, whole)
    requires s in e.st.flow.streams ==> s <= e.st.flow.maxSeen
    ensures Account(Moved(e, mv), s, accepted + Offer(e, mv, s), delivered, whole && !Drops(e, mv, s))
  {
    var e', offer := Moved(e, mv), Offer(e, mv, s);
    if !Live(e'.st) {
      SenderShuts(e, mv, s);
      if whole && Live(e.st) {
        Extend(delivered, InChannel(e.outbox, s), Queued(e.st.queue, s), InChannel(e'.outbox, s));
      } else if Live(e.st) {
        SenderSpent(e, mv, s);
      }
    } else if Drops(e, mv, s) {
      SenderDrops(e, mv, s);
    } else if whole {
      LiveBefore(e, mv);
      SenderExact(e, mv, s);
      WholeAccount(delivered, Outgoing(e, s), offer, InChannel(e'.outbox, s), Queued(e'.st.queue, s));
    } else {
      LiveBefore(e, mv);
      SenderSpent(e, mv, s);
    }
  }

  lemma LiveBefore(e: Side, mv: Move)
    requires Q.WellFormed(e.st.queue) && Live(Moved(e, mv).st)
    ensures Live(e.st)
  {
  }

  lemma WholeAccount(d: Payload, o: Payload, offer: Payload, c': Payload, q': Payload)
    requires c' + q' == o + offer
    ensures (d + o) + offer == d + (c' + q') && d + c' <= (d + o) + offer
  {
    assert (d + o) + offer == d + (o + offer);
    assert d + (c' + q') == (d + c') + q';
  }

  /** The peer moves: what it takes off the channel it has been delivered. */
  lemma ReceiverAccount(e: Side, channel': seq<Frame>, s: nat, accepted: Payload, delivered: Payload, whole: bool)
    requires Account(e, s, accepted, delivered, whole)
    requires channel' == e.outbox || (e.outbox != [] && channel' == e.outbox[1..])
    ensures Account(e.(outbox := channel'), s, accepted, delivered + Take(e.outbox, channel', s), whole)
  {
    if channel' == e.outbox {
      assert delivered + [] == delivered;
    } else {
      assert FrameBodies(e.outbox)[1..] == FrameBodies(channel');
      var t, c, q := Take(e.outbox, channel', s), InChannel(channel', s), Queued(e.st.queue, s);
      hide Take, Queued, NoMoreData;
      Regroup(delivered, t, c);
      Regroup(delivered, t, c + q);
      Regroup(t, c, q);
    }
  }

  lemma ChannelShrinks(e: Side, mv: Move)
    requires Q.WellFormed(e.st.queue)
    ensures var e' := Moved(e, mv); e'.inbox == e.inbox || (e.inbox != [] && e'.inbox == e.inbox[1..])
  {
  }

  lemma SenderChannel(e: Side, mv: Move)
    requires Q.WellFormed(e.st.queue)
    ensures |Moved(e, mv).outbox| >= |e.outbox|
  {
  }

  lemma {:induction false} RunAccount(states: seq<Net>, steps: seq<Step>, k: nat, role: Role, s: nat)
    requires Run(states, steps) && k < |states|
    ensures Account(SideOf(states[k], role), s, Accepted(states, steps, k, role, s),
                    Delivered(states, steps, k, role, s), Undropped(states, steps, k, role, s))
  {
    hide Run, Account, Accepted, Delivered, Undropped, SideOf;
    if k == 0 {
      InitialAccount(states, steps, role, s);
    } else {
      RunAccount(states, steps, k - 1, role, s);
      StepAccount(states, steps, k, role, s);
    }
  }

  lemma InitialAccount(states: seq<Net>, steps: seq<Step>, role: Role, s: nat)
    requires Run(states, steps)
    ensures Account(SideOf(states[0], role), s, Accepted(states, steps, 0, role, s),
                    Delivered(states, steps, 0, role, s), Undropped(states, steps, 0, role, s))
  {
    assert Initial(states[0]);
    hide Run;
  }

  /** The sums of a run after one more step. */
  lemma Counted(states: seq<Net>, steps: seq<Step>, k: nat, role: Role, s: nat)
    requires Run(states, steps) && 0 < k < |states|
    ensures Shape(states[k - 1]) && Q.WellFormed(SideOf(states[k - 1], role).st.queue)
    ensures var e := SideOf(states[k - 1], role); var mv := steps[k - 1].mv; var own := steps[k - 1] == By(role, mv);
            && Accepted(states, steps, k, role, s)
               == Accepted(states, steps, k - 1, role, s) + (if own then Offer(e, mv, s) else [])
            && (Undropped(states, steps, k, role, s)
                <==> Undropped(states, steps, k - 1, role, s) && !(own && Drops(e, mv, s)))
  {
    RunShape(states, steps, k - 1);
    assert Q.WellFormed(SideOf(states[k - 1], role).st.queue);
    hide Run, Offer, Drops, Shape, Q.WellFormed, SideOf, By, Accepted;
    assert Holds(states[k - 1], steps[k - 1], role, s) <==>
        !(steps[k - 1] == By(role, steps[k - 1].mv) && Drops(SideOf(states[k - 1], role), steps[k - 1].mv, s));
    hide Holds;
    AcceptedMore(states, steps, k, role, s);
  }

  lemma AcceptedMore(states: seq<Net>, steps: seq<Step>, k: nat, role: Role, s: nat)
    requires Run(states, steps) && 0 < k < |states| && Q.WellFormed(SideOf(states[k - 1], role).st.queue)
    ensures Accepted(states, steps, k, role, s)
         == Accepted(states, steps, k - 1, role, s)
          + (if steps[k - 1] == By(role, steps[k - 1].mv) then Offer(SideOf(states[k - 1], role), steps[k - 1].mv, s)
             else [])
  {
    hide Run, Offer, Q.WellFormed, SideOf, By;
  }

  lemma DeliveredMore(states: seq<Net>, steps: seq<Step>, k: nat, role: Role, s: nat)
    requires Run(states, steps) && 0 < k < |states|
    ensures k <= |steps|
    ensures Delivered(states, steps, k, role, s)
         == Delivered(states, steps, k - 1, role, s)
          + Take(SideOf(states[k - 1], role).outbox, SideOf(states[k], role).outbox, s)
  {
    assert k <= |steps|;
    hide Run, Take, SideOf;
  }

  /** What a step does to an endpoint and its channel. */
  ghost predicate StepsTo(e: Side, e': Side, own: bool, mv: Move)
    requires Q.WellFormed(e.st.queue)
  {
    if own then e' == Moved(e, mv)
    else e'.st == e.st && (e'.outbox == e.outbox || (e.outbox != [] && e'.outbox == e.outbox[1..]))
  }

  predicate Seen(e: Side, s: nat) {
    s in e.st.flow.streams ==> s <= e.st.flow.maxSeen
  }

  lemma Stepped(n: Net, step: Step, role: Role)
    requires Shape(n)
    ensures Q.WellFormed(SideOf(n, role).st.queue)
    ensures StepsTo(SideOf(n, role), SideOf(Next(n, step), role), step == By(role, step.mv), step.mv)
  {
    ChannelShrinks(SideOf(n, Peer(role)), step.mv);
    hide Moved;
  }

  lemma RunStepped(states: seq<Net>, steps: seq<Step>, k: nat, role: Role, s: nat)
    requires Run(states, steps) && 0 < k < |states|
    ensures var e := SideOf(states[k - 1], role); var step := steps[k - 1];
            && QueueOk(e.st.role, e.st.queue) && Seen(e, s)
            && StepsTo(e, SideOf(states[k], role), step == By(role, step.mv), step.mv)
  {
    hide Next, Initial, StepsTo, SideOf, By, Shape, FinalBoth, Seen, QueueOk, Q.WellFormed;
    assert states[k - 1 + 1] == Next(states[k - 1], steps[k - 1]);
    RunFinal(states, steps, k - 1, s);
    Stepped(states[k - 1], steps[k - 1], role);
    SeenBefore(states[k - 1], role, s);
  }

  lemma SeenBefore(n: Net, role: Role, s: nat)
    requires Shape(n) && FinalBoth(n, s)
    ensures var e := SideOf(n, role); QueueOk(e.st.role, e.st.queue) && Seen(e, s)
  {
  }

  lemma OneStep(e: Side, e': Side, own: bool, mv: Move, s: nat, accepted: Payload, delivered: Payload, whole: bool)
    requires QueueOk(e.st.role, e.st.queue) && Seen(e, s) && Account(e, s, accepted, delivered, whole)
    requires StepsTo(e, e', own, mv)
    ensures Account(e', s, accepted + (if own then Offer(e, mv, s) else []), delivered + Take(e.outbox, e'.outbox, s),
                    whole && !(own && Drops(e, mv, s)))
  {
    assert Q.WellFormed(e.st.queue);
    hide Moved, Account, Drops, Offer, Take, QueueOk, Q.WellFormed;
    if own {
      SenderAccount(e, mv, s, accepted, delivered, whole);
      SenderChannel(e, mv);
      NothingTaken(e.outbox, e'.outbox, s, delivered);
    } else {
      ReceiverAccount(e, e'.outbox, s, accepted, delivered, whole);
      assert accepted + [] == accepted;
      AccountFrame(e, e', e'.outbox, s, accepted, delivered + Take(e.outbox, e'.outbox, s), whole);
    }
  }

  lemma StepAccount(states: seq<Net>, steps: seq<Step>, k: nat, role: Role, s: nat)
    requires Run(states, steps) && 0 < k < |states|
    requires Account(SideOf(states[k - 1], role), s, Accepted(states, steps, k - 1, role, s),
                     Delivered(states, steps, k - 1, role, s), Undropped(states, steps, k - 1, role, s))
    ensures Account(SideOf(states[k], role), s, Accepted(states, steps, k, role, s),
                    Delivered(states, steps, k, role, s), Undropped(states, steps, k, role, s))
  {
    hide Run, Account, Drops, Offer, Take, Accepted, Delivered, Undropped, SideOf, Shape, By, QueueOk, Seen, StepsTo;
    Counted(states, steps, k, role, s);
    DeliveredMore(states, steps, k, role, s);
    RunStepped(states, steps, k, role, s);
    var step := steps[k - 1];
    OneStep(SideOf(states[k - 1], role), SideOf(states[k], role), step == By(role, step.mv), step.mv, s,
            Accepted(states, steps, k - 1, role, s), Delivered(states, steps, k - 1, role, s),
            Undropped(states, steps, k - 1, role, s));
  }

  lemma NothingTaken(channel: seq<Frame>, channel': seq<Frame>, s: nat, delivered: Payload)
    requires |channel'| >= |channel|
    ensures delivered + Take(channel, channel', s) == delivered
  {
  }

  lemma AccountFrame(e: Side, e': Side, channel': seq<Frame>, s: nat, accepted: Payload, delivered: Payload, whole: bool)
    requires e'.st == e.st && e'.outbox == channel' && Account(e.(outbox := channel'), s, accepted, delivered, whole)
    ensures Account(e', s, accepted, delivered, whole)
  {
  }

  /** In every run the peer is delivered a front part of the bytes accepted for the stream, in their order; and
      what is in the channel continues it. */
  lemma DeliveredPrefix(states: seq<Net>, steps: seq<Step>, k: nat, role: Role, s: nat)
    requires Run(states, steps) && k < |states|
    ensures Delivered(states, steps, k, role, s) + InChannel(SideOf(states[k], role).outbox, s)
         <= Accepted(states, steps, k, role, s)
  {
    RunAccount(states, steps, k, role, s);
  }

  /** While the sender lives and has not dropped the stream, the bytes delivered, in the channel and queued are
      exactly the bytes accepted, in their order. */
  lemma BytesExact(states: seq<Net>, steps: seq<Step>, k: nat, role: Role, s: nat)
    requires Run(states, steps) && k < |states| && Live(SideOf(states[k], role).st)
    requires Undropped(states, steps, k, role, s)
    ensures Accepted(states, steps, k, role, s)
         == Delivered(states, steps, k, role, s)
          + (InChannel(SideOf(states[k], role).outbox, s) + Queued(SideOf(states[k], role).st.queue, s))
  {
    RunAccount(states, steps, k, role, s);
  }
}
