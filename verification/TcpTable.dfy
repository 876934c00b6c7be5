/**
 What a segment of the application makes the proxy do, in one table: whether the flow ends, what is sent back, what is
 asked of its stream and what is reported. The proxy works in stages; this is what they amount to.
 */
module TcpTable {
  import opened Bytes
  import opened Options
  import opened Packet
  import opened TcpFlow
  import opened TcpFlowTheorems
  import opened DnsStream

  // ---------------------------------------------------------------- what is said about a flow

  /** The flow that an action is for. Queries of DNS flows are accounted for elsewhere. */
  function Subject(a: Action): Option<nat> {
    match a
    case OpenStream(flow, _) => Some(flow)
    case ForwardPayload(flow, _) => Some(flow)
    case CloseWrite(flow) => Some(flow)
    case CloseBoth(flow) => Some(flow)
    case SendTcp(origin, _) => origin
    case BlockFlow(about, _) => about
    case Diagnostic(_, about) => about
    case ResolveDns(_, _, _) => None
    case SendUdp(_) => None
  }

  predicate IsAbout(a: Action, id: nat) {
    Subject(a) == Some(id)
  }

  function About(actions: seq<Action>, id: nat): seq<Action> {
    if actions == [] then [] else (if IsAbout(actions[0], id) then [actions[0]] else []) + About(actions[1..], id)
  }

  lemma {:induction false} AboutConcat(a: seq<Action>, b: seq<Action>, id: nat)
    ensures About(a + b, id) == About(a, id) + About(b, id)
  {
    if a == [] {
      assert a + b == b;
    } else {
      AboutConcat(a[1..], b, id);
      assert (a + b)[0] == a[0] && (a + b)[1..] == a[1..] + b;
      hide IsAbout;
      Regroup(if IsAbout(a[0], id) then [a[0]] else [], About(a[1..], id), About(b, id));
    }
  }

  lemma Regroup(a: seq<Action>, b: seq<Action>, c: seq<Action>)
    ensures a + (b + c) == (a + b) + c
  {
  }

  lemma {:induction false} AboutAll(actions: seq<Action>, id: nat)
    requires forall a :: a in actions ==> IsAbout(a, id)
    ensures About(actions, id) == actions
  {
    if actions != [] {
      AboutAll(actions[1..], id);
      assert actions == [actions[0]] + actions[1..];
    }
  }

  lemma {:induction false} AboutNone(actions: seq<Action>, id: nat)
    requires forall a :: a in actions ==> !IsAbout(a, id)
    ensures About(actions, id) == []
  {
    if actions != [] {
      AboutNone(actions[1..], id);
    }
  }

  // ---------------------------------------------------------------- packets towards the application

  /** A packet from the protected end of the flow to its application. */
  function Back(f: Flow, sequence: nat, acknowledgement: nat, flags: Flags, window: nat, payload: seq<byte>): Action {
    SendTcp(Some(f.id), Segment(f.key.destination.address, f.key.source.address, f.key.destination.port, f.key.source.port,
                                sequence, acknowledgement, window, flags, payload))
  }

  function AckFor(c: Config, f: Flow, next: nat): Action {
    Back(f, f.serverNext, next % WRAP, Flags(false, false, false, false, true), c.receiveWindow, [])
  }

  function SynAckFor(c: Config, f: Flow): Action {
    Back(f, (f.serverNext + WRAP - 1) % WRAP, f.clientNext, Flags(false, true, false, false, true), c.receiveWindow, [])
  }

  function ResetFor(f: Flow, next: nat): Action {
    Back(f, f.serverNext, next % WRAP, Flags(false, false, true, false, true), 0, [])
  }

  /** How a flow that has failed is ended. */
  function Failing(f: Flow, reason: Reason): seq<Action> {
    [ResetFor(f, f.clientNext), BlockFlow(Some(f.id), reason), CloseBoth(f.id)]
  }

  // ---------------------------------------------------------------- the conditions

  /** How far one 32-bit number is ahead of another. */
  function Ahead(a: nat, b: nat): nat {
    (a % WRAP + WRAP - b % WRAP) % WRAP
  }

  /** Ahead by at most half a turn. */
  predicate IsAhead(a: nat, b: nat) {
    0 < Ahead(a, b) <= 0x8000_0000
  }

  /** The segment acknowledges the SYN-ACK and continues the SYN. */
  predicate Completing(f: Flow, s: Segment) {
    s.flags.ack && s.acknowledgement == f.serverNext && s.sequence == f.clientNext
  }

  /** The segment acknowledges what was never sent. */
  predicate Overclaims(f: Flow, s: Segment) {
    s.flags.ack && IsAhead(s.acknowledgement, f.serverNext)
  }

  predicate ApplicationDone(f: Flow) {
    f.state.HalfClosedLocal? || f.state.Closing?
  }

  predicate TooMuch(c: Config, f: Flow, s: Segment) {
    (if f.dns then |f.buffer| else f.queuedToGateway) + |s.payload| > c.toGatewayBytes
  }

  /** What is wrong with the messages of a DNS flow: one of the first is empty, or there are more than can be asked. */
  function Wrong(messages: seq<seq<byte>>, room: nat): Option<Reason> {
    if [] in messages[..if |messages| <= room then |messages| else room + 1] then Some(MalformedPacket)
    else if |messages| > room then Some(Backpressure)
    else None
  }

  datatype Told = Told(gone: bool, says: seq<Action>)

  /** The payload is next in sequence. */
  predicate InTurn(f: Flow, s: Segment) {
    s.payload != [] && s.sequence == f.clientNext
  }

  function PayloadTold(c: Config, f: Flow, s: Segment): seq<Action> {
    if s.payload == [] then []
    else if InTurn(f, s) then
      [if f.dns then AckFor(c, f, f.clientNext + |s.payload|) else ForwardPayload(f.id, s.payload)]
    else [Diagnostic(if IsAhead(f.clientNext, s.sequence) then Retransmission else OutOfOrder, Some(f.id)),
          AckFor(c, f, f.clientNext)]
  }

  function FinTold(c: Config, f: Flow, s: Segment, next: nat): Told {
    if !s.flags.fin then Told(false, [])
    else if (s.sequence + |s.payload|) % WRAP == next % WRAP then
      if f.state.HalfClosedRemote? then
        Told(s.payload == [], [CloseBoth(f.id)] + if s.payload == [] then [AckFor(c, f, next + 1)] else [])
      else
        Told(false, (if f.dns then [] else [CloseWrite(f.id)])
                    + if f.dns || s.payload == [] then [AckFor(c, f, next + 1)] else [])
    else if (s.sequence + |s.payload| + 1) % WRAP == next % WRAP then
      Told(false, [Diagnostic(Retransmission, Some(f.id)), AckFor(c, f, next)])
    else Told(false, [])
  }

  function Refusing(f: Flow, reason: Reason, code: Code): Told {
    Told(true, [BlockFlow(Some(f.id), reason), Diagnostic(code, Some(f.id)), ResetFor(f, f.clientNext), CloseBoth(f.id)])
  }

  /** The table. */
  function SegmentTold(c: Config, f: Flow, s: Segment, room: nat): Told {
    var taken := if InTurn(f, s) then s.payload else [];
    var next := f.clientNext + |taken|;
    if s.flags.syn then
      Told(false, [Diagnostic(Retransmission, Some(f.id))] + if f.state.SynAckSent? then [SynAckFor(c, f)] else [])
    else if f.state.Connecting? then Told(false, [])
    else if f.state.SynAckSent? && !Completing(f, s) then Told(false, [Diagnostic(OutOfOrder, Some(f.id)), SynAckFor(c, f)])
    else if (s.payload != [] || s.flags.fin) && !s.flags.ack then
      Told(false, [Diagnostic(OutOfOrder, Some(f.id)), AckFor(c, f, f.clientNext)])
    else if Overclaims(f, s) then Refusing(f, MalformedPacket, OutOfOrder)
    else if f.state.Closing? && s.flags.ack && s.acknowledgement == f.serverNext && s.payload == [] && !s.flags.fin then
      Told(true, [CloseBoth(f.id)])
    else if s.payload != [] && ApplicationDone(f) then Refusing(f, MalformedPacket, OutOfOrder)
    else if InTurn(f, s) && TooMuch(c, f, s) then Refusing(f, Backpressure, BufferLimit)
    else
      var first := PayloadTold(c, f, s);
      var wrong := if f.dns then Wrong(Split(f.buffer + taken).complete, room) else None;
      if wrong.Some? then
        Told(true, first + [BlockFlow(Some(f.id), wrong.value), ResetFor(f, next), CloseBoth(f.id)])
      else
        var last := FinTold(c, f, s, next);
        Told(last.gone, first + last.says)
  }

  // ---------------------------------------------------------------- the stages amount to the table

  lemma BeforeIsAhead(a: nat, b: nat)
    ensures SequenceBefore(a, b) <==> IsAhead(b, a)
  {
    var x, y := a % WRAP, b % WRAP;
    assert Minus(a, b) == (x + WRAP - y) % WRAP by {
      ModAdd(a, WRAP - y);
    }
    hide Minus;
  }

  lemma ModAdd(a: nat, d: nat)
    ensures (a + d) % WRAP == (a % WRAP + d) % WRAP
  {
    var q := a / WRAP;
    assert a + d == a % WRAP + d + q * WRAP;
    ModTurns(a % WRAP + d, q);
  }

  lemma ModTurns(x: nat, q: nat)
    ensures (x + q * WRAP) % WRAP == x % WRAP
  {
  }

  lemma WrongCons(first: seq<byte>, rest: seq<seq<byte>>, room: nat)
    ensures Wrong([first] + rest, room) ==
              if first == [] then Some(MalformedPacket) else if room == 0 then Some(Backpressure) else Wrong(rest, room - 1)
  {
    var all := [first] + rest;
    if room == 0 {
      assert all[..1] == [first];
    } else {
      assert all[..if |all| <= room then |all| else room + 1] == [first] + rest[..if |rest| <= room - 1 then |rest| else room];
    }
  }

  lemma {:induction false} DrainWrong(buffer: seq<byte>, room: nat)
    ensures Wrong(Split(buffer).complete, room) ==
              match Drain(buffer, room).stop
              case Waiting => None
              case Malformed => Some(MalformedPacket)
              case Full => Some(Backpressure)
    decreases |buffer|
  {
    if |buffer| >= 2 && |buffer| >= Be16(buffer[0], buffer[1]) + 2 {
      var end := Be16(buffer[0], buffer[1]) + 2;
      WrongCons(buffer[2..end], Split(buffer[end..]).complete, room);
      if room > 0 && end > 2 {
        DrainWrong(buffer[end..], room - 1);
      }
      hide Wrong;
    }
  }

  lemma RepliesAgree(c: Config, f: Flow, next: nat)
    requires f.clientNext < WRAP
    ensures AckReply(c, f) == AckFor(c, f, f.clientNext)
    ensures SynAckReply(c, f) == SynAckFor(c, f)
    ensures ResetReply(f) == ResetFor(f, f.clientNext)
    ensures AckFor(c, f, next % WRAP) == AckFor(c, f, next) && ResetFor(f, next % WRAP) == ResetFor(f, next)
  {
  }

  /** Replies do not depend on the parts of a record that a segment changes, except for how far it has come. */
  lemma RepliesSame(c: Config, f: Flow, g: Flow, next: nat)
    requires g.id == f.id && g.key == f.key && g.serverNext == f.serverNext
    ensures AckFor(c, g, next) == AckFor(c, f, next) && ResetFor(g, next) == ResetFor(f, next)
  {
  }

  /** The segment is not looked at beyond its flags and numbers. */
  predicate PutOff(f: Flow, s: Segment) {
    || s.flags.syn || f.state.Connecting? || (f.state.SynAckSent? && !Completing(f, s))
    || ((s.payload != [] || s.flags.fin) && !s.flags.ack)
  }

  lemma PutOffTold(c: Config, f: Flow, s: Segment, now: nat, room: nat, firstId: nat)
    requires Sane(c, f) && PutOff(f, s)
    ensures var o := Existing(c, f, s, now, room, firstId); Told(o.removed, o.actions) == SegmentTold(c, f, s, room)
    ensures forall a :: a in SegmentTold(c, f, s, room).says ==> IsAbout(a, f.id)
  {
    RepliesAgree(c, f.(lastActivityMs := now), 0);
    hide Synchronized, AckReply, SynAckReply, AckFor, SynAckFor, Split, Wrong, PayloadTold, FinTold, Overclaims;
    ReplyAbout(c, f);
    RepliesTimeless(c, f, now);
  }

  lemma ReplyAbout(c: Config, f: Flow)
    ensures IsAbout(SynAckFor(c, f), f.id)
    ensures forall next: nat :: IsAbout(AckFor(c, f, next), f.id) && IsAbout(ResetFor(f, next), f.id)
  {
  }

  lemma RepliesTimeless(c: Config, f: Flow, now: nat)
    ensures var g := f.(lastActivityMs := now);
            SynAckFor(c, g) == SynAckFor(c, f) && AckFor(c, g, f.clientNext) == AckFor(c, f, f.clientNext)
  {
  }

  lemma SettledRecord(f: Flow, s: Segment, now: nat)
    ensures var g := Settled(f, s, now);
            && g.id == f.id && g.key == f.key && g.dns == f.dns && g.serverNext == f.serverNext && g.clientNext == f.clientNext
            && g.buffer == f.buffer && g.queuedToGateway == f.queuedToGateway
            && g.state == (if f.state.SynAckSent? then Established else f.state)
  {
  }

  /** A segment that is looked at: the stages one after the other. */
  lemma LookedAt(c: Config, f: Flow, s: Segment, now: nat, room: nat, firstId: nat)
    requires Sane(c, f) && !PutOff(f, s)
    ensures var g := Settled(f, s, now); var o := Existing(c, f, s, now, room, firstId);
            if Overclaims(f, s) then
              Told(o.removed, o.actions) == Refusing(f, MalformedPacket, OutOfOrder)
            else if f.state.Closing? && s.flags.ack && s.acknowledgement == f.serverNext && s.payload == [] && !s.flags.fin then
              Told(o.removed, o.actions) == Told(true, [CloseBoth(f.id)])
            else o == TakeFin(c, TakeQueries(TakePayload(c, g, s), room, firstId), s)
  {
    BeforeIsAhead(f.serverNext, s.acknowledgement);
    var h := Promoted(f.(lastActivityMs := now));
    RepliesAgree(c, h, 0);
    RepliesSame(c, f, h, f.clientNext);
    hide TakePayload, TakeQueries, TakeFin, SequenceBefore, IsAhead, ResetReply, ResetFor;
  }

  /** The records differ at most in what a reply does not show. */
  predicate Alike(f: Flow, g: Flow) {
    && g.id == f.id && g.key == f.key && g.dns == f.dns && g.serverNext == f.serverNext && g.clientNext == f.clientNext
    && g.buffer == f.buffer && g.queuedToGateway == f.queuedToGateway
    && g.state == (if f.state.SynAckSent? then Established else f.state)
  }

  lemma AckAfter(c: Config, f: Flow, g: Flow, h: Flow, n: nat)
    requires Alike(f, g) && h == g.(buffer := h.buffer, queuedToGateway := h.queuedToGateway, clientNext := Plus(g.clientNext, n))
    ensures AckReply(c, h) == AckFor(c, f, f.clientNext + n)
  {
    RepliesAgree(c, h, f.clientNext + n);
    RepliesSame(c, f, h, f.clientNext + n);
    hide AckReply, AckFor;
  }

  lemma AckNow(c: Config, f: Flow, g: Flow)
    requires Alike(f, g) && f.clientNext < WRAP
    ensures AckReply(c, g) == AckFor(c, f, f.clientNext)
  {
    RepliesAgree(c, g, 0);
    RepliesSame(c, f, g, f.clientNext);
  }

  lemma OutOfTurnTells(c: Config, f: Flow, g: Flow, s: Segment)
    requires Alike(f, g) && f.clientNext < WRAP && !InTurn(f, s) && !(s.payload != [] && ApplicationDone(f))
    ensures TakePayload(c, g, s) == Work(g, PayloadTold(c, f, s), false, [])
  {
    BeforeIsAhead(s.sequence, f.clientNext);
    AckNow(c, f, g);
    hide SequenceBefore, IsAhead, AckFor, AckReply;
  }

  lemma InTurnTells(c: Config, f: Flow, g: Flow, s: Segment)
    requires Alike(f, g) && InTurn(f, s) && !ApplicationDone(f) && !TooMuch(c, f, s)
    ensures var w := TakePayload(c, g, s);
            && !w.reset && w.queries == [] && w.actions == PayloadTold(c, f, s)
            && w.flow == g.(clientNext := Plus(f.clientNext, |s.payload|), buffer := w.flow.buffer,
                            queuedToGateway := w.flow.queuedToGateway)
            && w.flow.buffer == f.buffer + (if f.dns then s.payload else [])
  {
    assert f.buffer + [] == f.buffer;
    var h := g.(buffer := g.buffer + s.payload, clientNext := Plus(g.clientNext, |s.payload|));
    AckAfter(c, f, g, h, |s.payload|);
    hide AckFor, AckReply, Plus;
  }

  lemma RefusedTells(c: Config, f: Flow, g: Flow, s: Segment)
    requires Alike(f, g)
    ensures s.payload != [] && ApplicationDone(f) ==>
              TakePayload(c, g, s)
              == Work(g, [BlockFlow(Some(f.id), MalformedPacket), Diagnostic(OutOfOrder, Some(f.id))], true, [])
    ensures InTurn(f, s) && !ApplicationDone(f) && TooMuch(c, f, s) ==>
              TakePayload(c, g, s)
              == Work(g, [BlockFlow(Some(f.id), Backpressure), Diagnostic(BufferLimit, Some(f.id))], true, [])
  {
  }

  // ---------------------------------------------------------------- the FIN

  /** The work goes on with a record like that of the flow, at the given place. */
  predicate WorksOn(f: Flow, w: Work, next: nat) {
    && !w.reset && w.flow.id == f.id && w.flow.key == f.key && w.flow.dns == f.dns && w.flow.serverNext == f.serverNext
    && w.flow.clientNext == next % WRAP && w.flow.state == (if f.state.SynAckSent? then Established else f.state)
  }

  lemma FinNumbers(f: Flow, w: Work, s: Segment, next: nat)
    requires WorksOn(f, w, next)
    ensures FinIsNext(w.flow, s) <==> s.flags.fin && (s.sequence + |s.payload|) % WRAP == next % WRAP
    ensures Plus(Plus(s.sequence, |s.payload|), 1) == w.flow.clientNext <==> (s.sequence + |s.payload| + 1) % WRAP == next % WRAP
    ensures Plus(w.flow.clientNext, 1) == (next + 1) % WRAP
  {
    ModAdd(next, 1);
    ModAdd(s.sequence + |s.payload|, 1);
  }

  lemma WorkReplies(c: Config, f: Flow, w: Work, next: nat)
    requires WorksOn(f, w, next)
    ensures AckReply(c, w.flow) == AckFor(c, f, next)
    ensures AckReply(c, w.flow.(clientNext := (next + 1) % WRAP, state := Closing)) == AckFor(c, f, next + 1)
    ensures AckReply(c, w.flow.(clientNext := (next + 1) % WRAP, state := HalfClosedLocal)) == AckFor(c, f, next + 1)
    ensures ResetReply(w.flow) == ResetFor(f, next)
  {
  }

  lemma Apart(a: seq<Action>, b: seq<Action>, c: seq<Action>)
    ensures a + b + c == a + (b + c) && a + [] == a
  {
  }

  lemma FinTells(c: Config, f: Flow, w: Work, s: Segment, next: nat)
    requires WorksOn(f, w, next)
    ensures var o := TakeFin(c, w, s); var told := FinTold(c, f, s, next);
            o.removed == told.gone && o.actions == w.actions + told.says
  {
    FinNumbers(f, w, s, next);
    WorkReplies(c, f, w, next);
    hide AckFor, AckReply, Plus, FinIsNext;
    var ack := [AckFor(c, f, next + 1)];
    Apart(w.actions, [CloseBoth(f.id)], ack);
    Apart(w.actions, [CloseBoth(f.id)], []);
    Apart(w.actions, if f.dns then [] else [CloseWrite(f.id)], ack);
    Apart(w.actions, if f.dns then [] else [CloseWrite(f.id)], []);
  }

  // ---------------------------------------------------------------- the theorem

  lemma PayloadAbout(c: Config, f: Flow, s: Segment)
    ensures About(PayloadTold(c, f, s), f.id) == PayloadTold(c, f, s)
  {
    ReplyAbout(c, f);
    hide AckFor;
    AboutAll(PayloadTold(c, f, s), f.id);
  }

  lemma FinAbout(c: Config, f: Flow, s: Segment, next: nat)
    ensures About(FinTold(c, f, s, next).says, f.id) == FinTold(c, f, s, next).says
  {
    ReplyAbout(c, f);
    hide AckFor;
    AboutAll(FinTold(c, f, s, next).says, f.id);
  }

  lemma ResetTells(c: Config, f: Flow, w: Work, s: Segment, next: nat)
    requires w.reset && w.flow.id == f.id && w.flow.key == f.key && w.flow.serverNext == f.serverNext
    requires w.flow.clientNext == next % WRAP
    ensures TakeFin(c, w, s).removed && TakeFin(c, w, s).actions == w.actions + [ResetFor(f, next), CloseBoth(f.id)]
  {
  }

  lemma EndingAbout(f: Flow, reason: Reason, next: nat)
    ensures var a := [ResetFor(f, next), CloseBoth(f.id)]; About(a, f.id) == a
    ensures var a := [BlockFlow(Some(f.id), reason)]; About(a, f.id) == a
    ensures var a := [BlockFlow(Some(f.id), reason), ResetFor(f, next), CloseBoth(f.id)]; About(a, f.id) == a
  {
    hide ResetFor;
    assert IsAbout(ResetFor(f, next), f.id) by { ReplyAbout(Config(0, 0, 0, 0, 0, 0, 0, 0, 0), f); }
    AboutAll([ResetFor(f, next), CloseBoth(f.id)], f.id);
    AboutAll([BlockFlow(Some(f.id), reason)], f.id);
    AboutAll([BlockFlow(Some(f.id), reason), ResetFor(f, next), CloseBoth(f.id)], f.id);
  }

  lemma RefusingAbout(f: Flow, reason: Reason, code: Code)
    ensures About(Refusing(f, reason, code).says, f.id) == Refusing(f, reason, code).says
  {
    AboutAll(Refusing(f, reason, code).says, f.id);
  }

  /** What is asked of the resolver is not about the flow itself. */
  lemma ResolvesAbout(queries: seq<seq<byte>>, firstId: nat, id: nat)
    ensures About(Resolves(queries, firstId, id), id) == []
  {
    AboutNone(Resolves(queries, firstId, id), id);
  }

  /** The place in the client stream behind the payload of a segment. */
  function NextPlace(f: Flow, s: Segment): nat {
    f.clientNext + if InTurn(f, s) then |s.payload| else 0
  }

  /** The work after the payload of a segment that is not refused. */
  ghost predicate Paid(c: Config, f: Flow, s: Segment, w: Work) {
    && WorksOn(f, w, NextPlace(f, s)) && w.queries == [] && w.actions == PayloadTold(c, f, s)
    && w.flow.buffer == f.buffer + (if InTurn(f, s) && f.dns then s.payload else [])
  }

  lemma PayloadPaid(c: Config, f: Flow, s: Segment, now: nat)
    requires Sane(c, f) && !PutOff(f, s)
    requires !(s.payload != [] && ApplicationDone(f)) && !(InTurn(f, s) && TooMuch(c, f, s))
    ensures Paid(c, f, s, TakePayload(c, Settled(f, s, now), s))
  {
    SettledRecord(f, s, now);
    var g := Settled(f, s, now);
    hide Settled, TakePayload, PayloadTold;
    if InTurn(f, s) {
      InTurnTells(c, f, g, s);
    } else {
      OutOfTurnTells(c, f, g, s);
      assert f.buffer + [] == f.buffer;
    }
  }

  lemma PlainTells(c: Config, f: Flow, s: Segment, w: Work, room: nat, firstId: nat)
    requires Paid(c, f, s, w) && !f.dns
    ensures var o := TakeFin(c, TakeQueries(w, room, firstId), s); var told := FinTold(c, f, s, NextPlace(f, s));
            o.removed == told.gone && About(o.actions, f.id) == PayloadTold(c, f, s) + told.says
  {
    hide TakeFin, PayloadTold, FinTold;
    FinTells(c, f, w, s, NextPlace(f, s));
    PayloadAbout(c, f, s);
    FinAbout(c, f, s, NextPlace(f, s));
    AboutConcat(PayloadTold(c, f, s), FinTold(c, f, s, NextPlace(f, s)).says, f.id);
  }

  lemma DnsTells(c: Config, f: Flow, s: Segment, w: Work, room: nat, firstId: nat)
    requires Paid(c, f, s, w) && f.dns
    ensures var o := TakeFin(c, TakeQueries(w, room, firstId), s); var next := NextPlace(f, s);
            var told := FinTold(c, f, s, next); var wrong := Wrong(Split(w.flow.buffer).complete, room);
            if wrong.Some? then
              && o.removed
              && About(o.actions, f.id)
                 == PayloadTold(c, f, s) + [BlockFlow(Some(f.id), wrong.value), ResetFor(f, next), CloseBoth(f.id)]
            else o.removed == told.gone && About(o.actions, f.id) == PayloadTold(c, f, s) + told.says
  {
    hide TakeFin, PayloadTold, FinTold, Drain, Split, Wrong, ResetFor, About;
    var next, d := NextPlace(f, s), Drain(w.flow.buffer, room);
    DrainWrong(w.flow.buffer, room);
    var asks, v := Resolves(d.queries, firstId, f.id), TakeQueries(w, room, firstId);
    var first := PayloadTold(c, f, s);
    PayloadAbout(c, f, s);
    ResolvesAbout(d.queries, firstId, f.id);
    AboutConcat(first, asks, f.id);
    assert first + [] == first;
    if d.stop.Waiting? {
      assert v.actions == (first + asks) + [];
      FinTells(c, f, v, s, next);
      FinAbout(c, f, s, next);
      assert v.actions == first + asks;
      AboutConcat(first + asks, FinTold(c, f, s, next).says, f.id);
    } else {
      var reason := Wrong(Split(w.flow.buffer).complete, room).value;
      ResetTells(c, f, v, s, next);
      EndingAbout(f, reason, next);
      var block, end := [BlockFlow(Some(f.id), reason)], [ResetFor(f, next), CloseBoth(f.id)];
      assert v.actions == first + asks + block;
      AboutConcat(first + asks, block, f.id);
      AboutConcat(first + asks + block, end, f.id);
      assert first + block + end == first + (block + end);
      assert block + end == [BlockFlow(Some(f.id), reason), ResetFor(f, next), CloseBoth(f.id)];
    }
  }

  lemma RefusedEnds(c: Config, f: Flow, s: Segment, w: Work, room: nat, firstId: nat, reason: Reason, code: Code)
    requires w == Work(w.flow, [BlockFlow(Some(f.id), reason), Diagnostic(code, Some(f.id))], true, []) && f.clientNext < WRAP
    requires w.flow.id == f.id && w.flow.key == f.key && w.flow.serverNext == f.serverNext && w.flow.clientNext == f.clientNext
    ensures var o := TakeFin(c, TakeQueries(w, room, firstId), s);
            Told(o.removed, o.actions) == Refusing(f, reason, code)
  {
    ResetTells(c, f, w, s, f.clientNext);
    hide TakeFin;
  }

  /** For every sane flow and every segment, ending or not and everything said about the flow are as in the table. */
  lemma SegmentTells(c: Config, f: Flow, s: Segment, now: nat, room: nat, firstId: nat)
    requires Sane(c, f)
    ensures var o := Existing(c, f, s, now, room, firstId); var told := SegmentTold(c, f, s, room);
            o.removed == told.gone && About(o.actions, f.id) == told.says
  {
    hide Existing, TakePayload, TakeQueries, TakeFin, About, PayloadTold, FinTold, Split, Wrong, ResetFor, Settled;
    if PutOff(f, s) {
      PutOffTold(c, f, s, now, room, firstId);
      AboutAll(SegmentTold(c, f, s, room).says, f.id);
    } else {
      LookedAt(c, f, s, now, room, firstId);
      RefusingAbout(f, MalformedPacket, OutOfOrder);
      RefusingAbout(f, Backpressure, BufferLimit);
      AboutAll([CloseBoth(f.id)], f.id);
      hide Refusing, Overclaims, Completing;
      LateTells(c, f, s, now, room, firstId);
    }
  }

  /** The rows of the table for a segment that reaches its payload. */
  lemma LateTells(c: Config, f: Flow, s: Segment, now: nat, room: nat, firstId: nat)
    requires Sane(c, f) && !PutOff(f, s)
    ensures var o := TakeFin(c, TakeQueries(TakePayload(c, Settled(f, s, now), s), room, firstId), s);
            var next := NextPlace(f, s); var last := FinTold(c, f, s, next);
            var taken := if InTurn(f, s) then s.payload else [];
            var wrong := if f.dns then Wrong(Split(f.buffer + taken).complete, room) else None;
            if s.payload != [] && ApplicationDone(f) then
              Told(o.removed, o.actions) == Refusing(f, MalformedPacket, OutOfOrder)
            else if InTurn(f, s) && TooMuch(c, f, s) then Told(o.removed, o.actions) == Refusing(f, Backpressure, BufferLimit)
            else if wrong.Some? then
              && o.removed
              && About(o.actions, f.id)
                 == PayloadTold(c, f, s) + [BlockFlow(Some(f.id), wrong.value), ResetFor(f, next), CloseBoth(f.id)]
            else o.removed == last.gone && About(o.actions, f.id) == PayloadTold(c, f, s) + last.says
  {
    SettledRecord(f, s, now);
    var g := Settled(f, s, now);
    RefusedTells(c, f, g, s);
    hide TakePayload, TakeQueries, TakeFin, About, PayloadTold, FinTold, Split, Wrong, ResetFor, Settled, Refusing;
    var w := TakePayload(c, g, s);
    if s.payload != [] && ApplicationDone(f) {
      RefusedEnds(c, f, s, w, room, firstId, MalformedPacket, OutOfOrder);
    } else if InTurn(f, s) && TooMuch(c, f, s) {
      RefusedEnds(c, f, s, w, room, firstId, Backpressure, BufferLimit);
    } else {
      PayloadPaid(c, f, s, now);
      if f.dns {
        DnsTells(c, f, s, w, room, firstId);
      } else {
        PlainTells(c, f, s, w, room, firstId);
      }
    }
  }

  // ---------------------------------------------------------------- the record that is left

  /** The FIN of the segment is next in sequence. */
  predicate FinInTurn(f: Flow, s: Segment) {
    s.flags.fin && (s.sequence + |s.payload|) % WRAP == NextPlace(f, s) % WRAP
  }

  function StateLeft(f: Flow, s: Segment): FlowState {
    if PutOff(f, s) then f.state
    else if FinInTurn(f, s) then (if f.state.HalfClosedRemote? then Closing else HalfClosedLocal)
    else if f.state.SynAckSent? then Established
    else f.state
  }

  /** What a flow that survives a segment has become: its state, its place in the client stream, what it holds. */
  predicate Left(c: Config, f: Flow, s: Segment, g: Flow) {
    && g.id == f.id && g.key == f.key && g.dns == f.dns && g.serverNext == f.serverNext
    && g.state == StateLeft(f, s)
    && (if PutOff(f, s) then
          g.clientNext == f.clientNext && g.buffer == f.buffer && g.queuedToGateway == f.queuedToGateway
        else
          var taken := if InTurn(f, s) then s.payload else [];
          && g.clientNext == (NextPlace(f, s) + if FinInTurn(f, s) then 1 else 0) % WRAP
          && g.queuedToGateway == f.queuedToGateway + (if f.dns then 0 else |taken|)
          && g.buffer == if f.dns then Split(f.buffer + taken).remainder else f.buffer)
  }

  lemma PutOffLeaves(c: Config, f: Flow, s: Segment, now: nat, room: nat, firstId: nat)
    requires Sane(c, f) && PutOff(f, s)
    ensures Left(c, f, s, Existing(c, f, s, now, room, firstId).flow)
  {
    hide Synchronized, AckReply, SynAckReply, Split;
  }

  lemma FinLeaves(c: Config, f: Flow, w: Work, s: Segment)
    requires WorksOn(f, w, NextPlace(f, s)) && !f.state.Connecting? && !PutOff(f, s)
    ensures var g := TakeFin(c, w, s).flow;
            && g == w.flow.(state := g.state, clientNext := g.clientNext)
            && g.state == StateLeft(f, s) && g.clientNext == (NextPlace(f, s) + if FinInTurn(f, s) then 1 else 0) % WRAP
  {
    FinNumbers(f, w, s, NextPlace(f, s));
    hide AckReply, Plus, FinIsNext, PutOff;
  }

  lemma QueriesLeave(f: Flow, w: Work, room: nat, firstId: nat)
    requires !w.reset && !TakeQueries(w, room, firstId).reset
    ensures var v := TakeQueries(w, room, firstId);
            v.flow == w.flow.(buffer := if w.flow.dns then Split(w.flow.buffer).remainder else w.flow.buffer)
  {
    hide Drain, Split;
    if w.flow.dns {
      DrainSplits(w.flow.buffer, room);
    }
  }

  lemma QueuedLeft(c: Config, f: Flow, g: Flow, s: Segment)
    requires Alike(f, g) && !(s.payload != [] && ApplicationDone(f)) && !(InTurn(f, s) && TooMuch(c, f, s))
    ensures TakePayload(c, g, s).flow.queuedToGateway
         == f.queuedToGateway + (if InTurn(f, s) && !f.dns then |s.payload| else 0)
  {
    hide AckReply, Plus;
  }

  lemma LateLeaves(c: Config, f: Flow, s: Segment, now: nat, room: nat, firstId: nat)
    requires Sane(c, f) && !PutOff(f, s)
    requires !(s.payload != [] && ApplicationDone(f)) && !(InTurn(f, s) && TooMuch(c, f, s))
    requires !TakeQueries(TakePayload(c, Settled(f, s, now), s), room, firstId).reset
    ensures Left(c, f, s, TakeFin(c, TakeQueries(TakePayload(c, Settled(f, s, now), s), room, firstId), s).flow)
  {
    hide TakePayload, TakeQueries, TakeFin, Split, PayloadTold, Settled;
    SettledRecord(f, s, now);
    var w := TakePayload(c, Settled(f, s, now), s);
    PayloadPaid(c, f, s, now);
    QueuedLeft(c, f, Settled(f, s, now), s);
    QueriesLeave(f, w, room, firstId);
    FinLeaves(c, f, TakeQueries(w, room, firstId), s);
    assert f.buffer + [] == f.buffer;
  }

  /** A flow that survives a segment is left as described, and its unread bytes are the incomplete rest of its DNS
      messages. */
  lemma SegmentLeaves(c: Config, f: Flow, s: Segment, now: nat, room: nat, firstId: nat)
    requires Sane(c, f) && !Existing(c, f, s, now, room, firstId).removed
    ensures Left(c, f, s, Existing(c, f, s, now, room, firstId).flow)
  {
    hide Existing, TakePayload, TakeQueries, TakeFin, Left, Settled, Refusing;
    if PutOff(f, s) {
      PutOffLeaves(c, f, s, now, room, firstId);
    } else {
      LookedAt(c, f, s, now, room, firstId);
      RefusingGone(f);
      LateStays(c, f, s, now, room, firstId);
      LateLeaves(c, f, s, now, room, firstId);
    }
  }

  lemma RefusingGone(f: Flow)
    ensures Refusing(f, MalformedPacket, OutOfOrder).gone && Refusing(f, Backpressure, BufferLimit).gone
  {
  }

  lemma LateStays(c: Config, f: Flow, s: Segment, now: nat, room: nat, firstId: nat)
    requires Sane(c, f) && !PutOff(f, s)
    requires !TakeFin(c, TakeQueries(TakePayload(c, Settled(f, s, now), s), room, firstId), s).removed
    ensures !(s.payload != [] && ApplicationDone(f)) && !(InTurn(f, s) && TooMuch(c, f, s))
    ensures !TakeQueries(TakePayload(c, Settled(f, s, now), s), room, firstId).reset
  {
    SettledRecord(f, s, now);
    RefusedTells(c, f, Settled(f, s, now), s);
    var w := TakePayload(c, Settled(f, s, now), s);
    hide TakePayload, Settled, Drain;
    var v := TakeQueries(w, room, firstId);
    hide TakeQueries;
    assert v.reset ==> TakeFin(c, v, s).removed;
    QueriesReset(w, room, firstId);
  }

  lemma QueriesReset(w: Work, room: nat, firstId: nat)
    ensures w.reset ==> TakeQueries(w, room, firstId).reset
  {
  }

  // ---------------------------------------------------------------- nothing is said about another flow

  predicate Own(actions: seq<Action>, id: nat) {
    forall a :: a in actions ==> Subject(a) == None || Subject(a) == Some(id)
  }

  lemma OwnElsewhere(actions: seq<Action>, id: nat, other: nat)
    requires Own(actions, id) && other != id
    ensures About(actions, other) == []
  {
    AboutNone(actions, other);
  }

  lemma PayloadOwn(c: Config, f: Flow, s: Segment)
    ensures Own(TakePayload(c, f, s).actions, f.id) && TakePayload(c, f, s).flow.id == f.id
  {
    hide Plus, SequenceBefore;
  }

  lemma QueriesOwn(w: Work, room: nat, firstId: nat)
    requires Own(w.actions, w.flow.id)
    ensures var v := TakeQueries(w, room, firstId); Own(v.actions, w.flow.id) && v.flow.id == w.flow.id
  {
    hide Drain;
    var d := Drain(w.flow.buffer, room);
    var asks, stop := Resolves(d.queries, firstId, w.flow.id), StopActions(w.flow, d.stop);
    assert Own(asks, w.flow.id) && Own(stop, w.flow.id);
    assert Own(w.actions + asks + stop, w.flow.id);
  }

  lemma FinOwn(c: Config, w: Work, s: Segment)
    requires Own(w.actions, w.flow.id)
    ensures Own(TakeFin(c, w, s).actions, w.flow.id)
  {
    hide Plus, FinIsNext;
  }

  lemma SegmentOwn(c: Config, f: Flow, s: Segment, now: nat, room: nat, firstId: nat)
    ensures Own(Existing(c, f, s, now, room, firstId).actions, f.id)
  {
    hide Existing, TakePayload, TakeQueries, TakeFin, Settled, Reaches;
    if Reaches(f, s) {
      var g := Settled(f, s, now);
      SettledRecord(f, s, now);
      ExistingStages(c, f, s, now, room, firstId);
      PayloadOwn(c, g, s);
      QueriesOwn(TakePayload(c, g, s), room, firstId);
      FinOwn(c, TakeQueries(TakePayload(c, g, s), room, firstId), s);
    } else {
      ExistingStops(c, f, s, now, room, firstId);
    }
  }
}
