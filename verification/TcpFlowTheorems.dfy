/**
 What every event keeps true of one flow. A trace records what the flow has consumed from the
 application and what it has been given for it, in unbounded numbers; the record's 32-bit sequence
 numbers follow the trace through every wrap-around.
 */
module TcpFlowTheorems {
  import opened Bytes
  import opened Options
  import opened Packet
  import opened TcpFlow

  // ---------------------------------------------------------------- the invariant of a record

  /** A buffer that holds no complete message and no zero length. */
  predicate Incomplete(buffer: seq<byte>) {
    |buffer| >= 2 ==> 0 < Be16(buffer[0], buffer[1]) && |buffer| < Be16(buffer[0], buffer[1]) + 2
  }

  function FinLength(flags: Flags): nat {
    if flags.fin then 1 else 0
  }

  /** Stop and wait: one outstanding segment, ending exactly at the next sequence number. */
  predicate OutstandingOk(c: Config, f: Flow) {
    match f.outstanding
    case None => f.queuedToApplication == 0
    case Some(o) =>
      && o.sequence < WRAP && o.acknowledgement < WRAP
      && Plus(o.sequence, |o.payload| + FinLength(o.flags)) == f.serverNext
      && f.queuedToApplication == |o.payload| <= c.toApplicationBytes
      && (if o.payload == [] then o.flags == FIN_ACK else o.flags == PSH_ACK)
      && o.retransmissions <= c.maxRetransmissions
  }

  predicate Handshaking(f: Flow) {
    f.state.Connecting? || f.state.SynAckSent?
  }

  predicate QueuesOk(c: Config, f: Flow) {
    && f.queuedToGateway <= c.toGatewayBytes && |f.buffer| <= c.toGatewayBytes
    && (f.dns ==> f.queuedToGateway == 0 && !f.state.Connecting? && Incomplete(f.buffer))
    && (!f.dns ==> f.buffer == [])
    && (Handshaking(f) ==> f.outstanding.None? && f.buffer == [] && f.queuedToGateway == 0)
  }

  predicate Sane(c: Config, f: Flow) {
    f.clientNext < WRAP && f.serverNext < WRAP && OutstandingOk(c, f) && QueuesOk(c, f)
  }

  // ---------------------------------------------------------------- the trace of a flow

  /** Bytes and FINs taken from the application since its SYN, bytes and FINs sent to it since ours. */
  datatype Trace = Trace(dns: bool, isn: nat, taken: seq<byte>, fins: nat, iss: nat, given: seq<byte>, ends: nat)

  function At(initial: nat, n: nat): (r: nat)
    ensures r < WRAP
  {
    Plus(initial, 1 + n)
  }

  function Consumed(t: Trace): nat {
    |t.taken| + t.fins
  }

  /** The acknowledgement covers at most what has been consumed. */
  ghost predicate Covered(t: Trace, acknowledgement: nat) {
    exists m: nat :: m <= Consumed(t) && acknowledgement == At(t.isn, m)
  }

  predicate EndsWith(whole: seq<byte>, tail: seq<byte>) {
    |tail| <= |whole| && whole[|whole| - |tail|..] == tail
  }

  predicate Shut(f: Flow) {
    f.state.HalfClosedLocal? || f.state.Closing?
  }

  ghost predicate Follows(f: Flow, t: Trace) {
    && f.dns == t.dns
    && (Shut(f) <==> t.fins > 0)
    && f.clientNext == At(t.isn, Consumed(t))
    && f.serverNext == At(t.iss, |t.given| + t.ends)
    && (f.outstanding.Some? ==>
          && Covered(t, f.outstanding.value.acknowledgement)
          && EndsWith(t.given, f.outstanding.value.payload) && FinLength(f.outstanding.value.flags) <= t.ends)
  }

  // ---------------------------------------------------------------- what a segment contributes

  /** The segment gets as far as its payload. */
  predicate Reaches(f: Flow, s: Segment) {
    var g := Promoted(f);
    && !s.flags.syn && !f.state.Connecting?
    && (f.state.SynAckSent? ==> CompletesHandshake(f, s))
    && (s.payload != [] || s.flags.fin ==> s.flags.ack)
    && !(s.flags.ack && SequenceBefore(f.serverNext, s.acknowledgement))
    && !Finished(Released(g, s), s)
  }

  function Settled(f: Flow, s: Segment, now: nat): Flow {
    Released(Promoted(f.(lastActivityMs := now)), s)
  }

  predicate Fits(c: Config, f: Flow, s: Segment) {
    (if f.dns then |f.buffer| else f.queuedToGateway) + |s.payload| <= c.toGatewayBytes
  }

  predicate TakesPayload(c: Config, f: Flow, s: Segment) {
    Reaches(f, s) && s.payload != [] && s.sequence == f.clientNext && !Shut(f) && Fits(c, f, s)
  }

  function Taken(c: Config, f: Flow, s: Segment): seq<byte> {
    if TakesPayload(c, f, s) then s.payload else []
  }

  /** The payload resets the flow: it follows a FIN, does not fit, or breaks the DNS message stream. */
  predicate Resets(c: Config, f: Flow, s: Segment, room: nat) {
    || (s.payload != [] && (Shut(f) || (s.sequence == f.clientNext && !Fits(c, f, s))))
    || (f.dns && !Drain(f.buffer + Taken(c, f, s), room).stop.Waiting?)
  }

  predicate TakesFin(c: Config, f: Flow, s: Segment, room: nat) {
    && Reaches(f, s) && !Resets(c, f, s, room)
    && s.flags.fin && Plus(s.sequence, |s.payload|) == Plus(f.clientNext, |Taken(c, f, s)|)
  }

  function Took(c: Config, f: Flow, s: Segment, room: nat, t: Trace): Trace {
    t.(taken := t.taken + Taken(c, f, s), fins := t.fins + if TakesFin(c, f, s, room) then 1 else 0)
  }

  // ---------------------------------------------------------------- sequence numbers

  lemma AtPlus(initial: nat, n: nat, more: nat)
    ensures Plus(At(initial, n), more) == At(initial, n + more)
  {
  }

  /** Within one 32-bit turn a sequence number fixes the position. */
  lemma AtInjective(initial: nat, a: nat, b: nat)
    requires At(initial, a) == At(initial, b) && a < b + WRAP && b < a + WRAP
    ensures a == b
  {
    var x, y := initial + 1 + a, initial + 1 + b;
    assert x % WRAP == y % WRAP;
  }

  lemma CoveredGrows(t: Trace, t': Trace, acknowledgement: nat)
    requires Covered(t, acknowledgement) && t'.isn == t.isn && Consumed(t) <= Consumed(t')
    ensures Covered(t', acknowledgement)
  {
    var m: nat :| m <= Consumed(t) && acknowledgement == At(t.isn, m);
  }

  lemma CoveredNow(f: Flow, t: Trace)
    requires f.clientNext == At(t.isn, Consumed(t))
    ensures Covered(t, f.clientNext)
  {
  }

  // ---------------------------------------------------------------- the DNS loop

  lemma {:induction false} DrainOk(buffer: seq<byte>, room: nat)
    ensures |Drain(buffer, room).rest| <= |buffer|
    ensures Drain(buffer, room).stop.Waiting? ==> Incomplete(Drain(buffer, room).rest)
    decreases |buffer|
  {
    if |buffer| >= 2 {
      var length := Be16(buffer[0], buffer[1]);
      if length != 0 && |buffer| >= length + 2 && room > 0 {
        DrainOk(buffer[length + 2..], room - 1);
      }
    }
  }

  lemma DrainNothing(buffer: seq<byte>, room: nat)
    requires Incomplete(buffer)
    ensures Drain(buffer, room) == Drained([], buffer, Waiting)
  {
  }

  // ---------------------------------------------------------------- a segment keeps the record sane

  lemma TakePayloadSane(c: Config, f: Flow, s: Segment)
    requires Sane(c, f) && !Handshaking(f)
    ensures var w := TakePayload(c, f, s);
            && w.flow.clientNext < WRAP && w.flow.serverNext < WRAP && OutstandingOk(c, w.flow)
            && w.flow.state == f.state && w.flow.dns == f.dns && w.flow.id == f.id && w.flow.key == f.key
            && w.flow.queuedToGateway <= c.toGatewayBytes && |w.flow.buffer| <= c.toGatewayBytes
            && (f.dns ==> w.flow.queuedToGateway == 0)
            && (!f.dns ==> w.flow.buffer == [])
  {
  }

  lemma TakeQueriesSane(c: Config, f: Flow, s: Segment, room: nat, firstId: nat)
    requires Sane(c, f) && !Handshaking(f)
    ensures var w := TakeQueries(TakePayload(c, f, s), room, firstId);
            && w.flow.state == f.state && w.flow.dns == f.dns && w.flow.id == f.id && w.flow.key == f.key
            && (!w.reset ==> Sane(c, w.flow))
  {
    hide Drain;
    TakePayloadSane(c, f, s);
    DrainOk(TakePayload(c, f, s).flow.buffer, room);
  }

  lemma SettledSane(c: Config, f: Flow, s: Segment, now: nat)
    requires Sane(c, f) && !f.state.Connecting?
    ensures var g := Settled(f, s, now); Sane(c, g) && !Handshaking(g)
  {
  }

  /** A segment that reaches its payload is worked on in three stages. */
  lemma ExistingStages(c: Config, f: Flow, s: Segment, now: nat, room: nat, firstId: nat)
    requires Reaches(f, s)
    ensures Settled(f, s, now).clientNext == f.clientNext
    ensures Existing(c, f, s, now, room, firstId)
         == TakeFin(c, TakeQueries(TakePayload(c, Settled(f, s, now), s), room, firstId), s)
  {
    hide TakePayload, TakeQueries, TakeFin, Conclude;
  }

  /** What a segment does that does not reach its payload. */
  lemma ExistingStops(c: Config, f: Flow, s: Segment, now: nat, room: nat, firstId: nat)
    requires !Reaches(f, s)
    ensures var o := Existing(c, f, s, now, room, firstId); var g := f.(lastActivityMs := now);
            && o.queries == []
            && o.flow.state == (if CompletesHandshake(f, s) && !s.flags.syn then Promoted(f).state else f.state)
            && (o.flow == g || (o.flow == Promoted(g) && CompletesHandshake(f, s)) || o.flow == Released(Promoted(g), s))
            && (o.removed <==> o.actions != [] && o.actions[|o.actions| - 1] == CloseBoth(f.id))
            && (forall a :: a in o.actions ==>
                  || (a.Diagnostic? && a.about == Some(f.id)) || (a.BlockFlow? && a.about == Some(f.id))
                  || a == SynAckReply(c, g) || a == AckReply(c, g) || (a == ResetReply(g) && o.removed)
                  || (a == CloseBoth(f.id) && o.removed))
            && (!o.removed && !f.state.SynAckSent? ==> o.flow == g)
  {
    hide TakePayload, TakeQueries, TakeFin;
  }

  lemma TakeFinSane(c: Config, w: Work, s: Segment)
    requires w.reset || (Sane(c, w.flow) && !Handshaking(w.flow))
    ensures var o := TakeFin(c, w, s);
            && o.flow.id == w.flow.id && o.flow.key == w.flow.key && o.flow.dns == w.flow.dns
            && (!o.removed ==> Sane(c, o.flow))
  {
  }

  /** A flow that survives a segment stays sane and keeps its identity. */
  lemma ExistingSane(c: Config, f: Flow, s: Segment, now: nat, room: nat, firstId: nat)
    requires Sane(c, f)
    ensures var o := Existing(c, f, s, now, room, firstId);
            && o.flow.id == f.id && o.flow.key == f.key && o.flow.dns == f.dns
            && (!o.removed ==> Sane(c, o.flow))
  {
    hide TakePayload, TakeQueries, TakeFin, Existing;
    if Reaches(f, s) {
      ExistingStages(c, f, s, now, room, firstId);
      SettledSane(c, f, s, now);
      TakeQueriesSane(c, Settled(f, s, now), s, room, firstId);
      TakeFinSane(c, TakeQueries(TakePayload(c, Settled(f, s, now), s), room, firstId), s);
    } else {
      ExistingStops(c, f, s, now, room, firstId);
    }
  }

  // ---------------------------------------------------------------- what a segment does, stage by stage

  /** The record after its payload. */
  lemma PayloadShape(c: Config, f: Flow, s: Segment, now: nat)
    requires Sane(c, f) && Reaches(f, s)
    ensures Settled(f, s, now).clientNext == f.clientNext
    ensures var g := Settled(f, s, now); var w := TakePayload(c, g, s);
            && w.reset == (s.payload != [] && (Shut(f) || (s.sequence == f.clientNext && !Fits(c, f, s))))
            && (if w.reset then w.flow == g && Taken(c, f, s) == []
                else w.flow == g.(clientNext := Plus(f.clientNext, |Taken(c, f, s)|),
                                  buffer := f.buffer + (if f.dns then Taken(c, f, s) else []),
                                  queuedToGateway := f.queuedToGateway + (if f.dns then 0 else |Taken(c, f, s)|)))
  {
    assert f.buffer + [] == f.buffer;
  }

  /** The record before its FIN is looked at. */
  lemma WorkShape(c: Config, f: Flow, s: Segment, now: nat, room: nat, firstId: nat)
    requires Sane(c, f) && Reaches(f, s)
    ensures Settled(f, s, now).clientNext == f.clientNext
    ensures var g := Settled(f, s, now); var w := TakeQueries(TakePayload(c, g, s), room, firstId);
            && w.reset == Resets(c, f, s, room)
            && w.flow.clientNext == Plus(f.clientNext, |Taken(c, f, s)|)
            && w.flow.serverNext == f.serverNext && w.flow.outstanding == g.outstanding
            && w.flow.state == g.state && w.flow.dns == f.dns && w.flow.id == f.id && w.flow.key == f.key
            && w.flow.queuedToGateway == f.queuedToGateway + (if f.dns then 0 else |Taken(c, f, s)|)
  {
    hide Drain, TakePayload, Reaches, Fits;
    PayloadShape(c, f, s, now);
    assert f.dns && !TakePayload(c, Settled(f, s, now), s).reset ==>
        TakePayload(c, Settled(f, s, now), s).flow.buffer == f.buffer + Taken(c, f, s);
  }

  lemma PayloadActions(c: Config, f: Flow, s: Segment, now: nat)
    requires Sane(c, f) && Reaches(f, s)
    ensures Settled(f, s, now).clientNext == f.clientNext
    ensures var g := Settled(f, s, now); var w := TakePayload(c, g, s);
            w.actions == if s.payload == [] then []
                         else if w.reset then
                           [BlockFlow(Some(f.id), if Shut(f) then MalformedPacket else Backpressure),
                            Diagnostic(if Shut(f) then OutOfOrder else BufferLimit, Some(f.id))]
                         else if TakesPayload(c, f, s) then [if f.dns then AckReply(c, w.flow) else ForwardPayload(f.id, s.payload)]
                         else [Diagnostic(if SequenceBefore(s.sequence, f.clientNext) then Retransmission else OutOfOrder, Some(f.id)),
                               AckReply(c, g)]
  {
  }

  // ---------------------------------------------------------------- what a segment does to the record

  function NextState(c: Config, f: Flow, s: Segment, room: nat): FlowState {
    var state := if CompletesHandshake(f, s) && !s.flags.syn then Promoted(f).state else f.state;
    if !TakesFin(c, f, s, room) then state
    else if state.HalfClosedRemote? then Closing else HalfClosedLocal
  }

  lemma TakeFinShape(c: Config, w: Work, s: Segment)
    ensures TakeFin(c, w, s).flow ==
              if !w.reset && FinIsNext(w.flow, s) then
                w.flow.(clientNext := Plus(w.flow.clientNext, 1),
                        state := if w.flow.state.HalfClosedRemote? then Closing else HalfClosedLocal)
              else w.flow
  {
  }

  lemma PlusPlus(sequence: nat, a: nat, b: nat)
    ensures Plus(Plus(sequence, a), b) == Plus(sequence, a + b)
  {
  }

  ghost predicate Effect(c: Config, f: Flow, s: Segment, room: nat, g: Flow) {
    && g.clientNext == Plus(f.clientNext, |Taken(c, f, s)| + if TakesFin(c, f, s, room) then 1 else 0)
    && g.serverNext == f.serverNext
    && (g.outstanding == f.outstanding || g.outstanding.None?)
    && g.state == NextState(c, f, s, room)
    && g.queuedToGateway == f.queuedToGateway + (if f.dns then 0 else |Taken(c, f, s)|)
  }

  lemma ReachedEffect(c: Config, f: Flow, s: Segment, now: nat, room: nat, firstId: nat)
    requires Sane(c, f) && Reaches(f, s)
    ensures Effect(c, f, s, room, Existing(c, f, s, now, room, firstId).flow)
  {
    hide TakePayload, TakeQueries, Existing, Resets, TakesPayload, TakeFin;
    ExistingStages(c, f, s, now, room, firstId);
    WorkShape(c, f, s, now, room, firstId);
    TakeFinShape(c, TakeQueries(TakePayload(c, Settled(f, s, now), s), room, firstId), s);
    PlusPlus(f.clientNext, |Taken(c, f, s)|, 1);
  }

  lemma ExistingEffect(c: Config, f: Flow, s: Segment, now: nat, room: nat, firstId: nat)
    requires Sane(c, f)
    ensures Effect(c, f, s, room, Existing(c, f, s, now, room, firstId).flow)
  {
    hide Existing, Resets, Fits;
    if Reaches(f, s) {
      ReachedEffect(c, f, s, now, room, firstId);
    } else {
      ExistingStops(c, f, s, now, room, firstId);
    }
  }

  /** The sequence numbers follow what was really taken. */
  lemma ExistingFollows(c: Config, f: Flow, s: Segment, now: nat, room: nat, firstId: nat, t: Trace)
    requires Sane(c, f) && Follows(f, t)
    ensures Follows(Existing(c, f, s, now, room, firstId).flow, Took(c, f, s, room, t))
  {
    hide Existing, TakesFin, TakesPayload, At;
    var t' := Took(c, f, s, room, t);
    ExistingEffect(c, f, s, now, room, firstId);
    ExistingSane(c, f, s, now, room, firstId);
    AtPlus(t.isn, Consumed(t), Consumed(t') - Consumed(t));
    if f.outstanding.Some? {
      CoveredGrows(t, t', f.outstanding.value.acknowledgement);
    }
  }

  // ---------------------------------------------------------------- what a segment makes the engine say

  predicate Answers(f: Flow, a: Action) {
    && a.SendTcp? && a.origin == Some(f.id)
    && a.segment.source == f.key.destination.address && a.segment.sourcePort == f.key.destination.port
    && a.segment.destination == f.key.source.address && a.segment.destinationPort == f.key.source.port
  }

  /** A packet without data, FIN or RST. */
  predicate PlainAnswer(f: Flow, a: Action) {
    Answers(f, a) && a.segment.payload == [] && !a.segment.flags.fin && !a.segment.flags.rst
  }

  predicate Carries(s: Segment, o: Outstanding) {
    s.sequence == o.sequence && s.acknowledgement == o.acknowledgement && s.flags == o.flags && s.payload == o.payload
  }

  /** Every packet answers its flow, acknowledges nothing it has not taken unless it resets, and
      carries data or a FIN only as the flow's one outstanding segment. */
  ghost predicate Emission(f: Flow, t: Trace, a: Action) {
    a.SendTcp? ==>
      && Answers(f, a)
      && (a.segment.flags.rst || Covered(t, a.segment.acknowledgement))
      && (a.segment.payload != [] || a.segment.flags.fin ==> f.outstanding.Some? && Carries(a.segment, f.outstanding.value))
  }

  /** The actions a segment can ask for before its FIN is looked at. */
  predicate Says(c: Config, f: Flow, s: Segment, reset: bool, a: Action) {
    match a
    case SendTcp(_, _) => PlainAnswer(f, a) && a.segment.acknowledgement == Plus(f.clientNext, |Taken(c, f, s)|)
    case BlockFlow(about, _) => about == Some(f.id) && reset
    case Diagnostic(_, about) => about == Some(f.id)
    case ResolveDns(_, _, target) => f.dns && target == TcpTarget(f.id)
    case ForwardPayload(flow, payload) => flow == f.id && !f.dns && payload == s.payload && TakesPayload(c, f, s)
    case _ => false
  }

  lemma PayloadSays(c: Config, f: Flow, s: Segment, now: nat)
    requires Sane(c, f) && Reaches(f, s)
    ensures Settled(f, s, now).clientNext == f.clientNext
    ensures var w := TakePayload(c, Settled(f, s, now), s);
            && w.flow.id == f.id && w.flow.dns == f.dns
            && forall a :: a in w.actions ==> Says(c, f, s, w.reset, a)
  {
    hide TakePayload, Reaches, TakesPayload, Fits;
    PayloadActions(c, f, s, now);
    PayloadShape(c, f, s, now);
    assert Plus(f.clientNext, 0) == f.clientNext;
  }

  lemma QueriesSay(c: Config, f: Flow, s: Segment, w: Work, room: nat, firstId: nat)
    requires w.flow.id == f.id && w.flow.dns == f.dns
    requires forall a :: a in w.actions ==> Says(c, f, s, w.reset, a)
    ensures var v := TakeQueries(w, room, firstId); forall a :: a in v.actions ==> Says(c, f, s, v.reset, a)
  {
    hide Drain, TakesPayload, PlainAnswer;
    if f.dns && !w.reset {
      var d := Drain(w.flow.buffer, room);
      var v := TakeQueries(w, room, firstId);
      forall a | a in w.actions ensures Says(c, f, s, v.reset, a) {
        assert Says(c, f, s, w.reset, a);
      }
      forall a | a in Resolves(d.queries, firstId, f.id) ensures Says(c, f, s, v.reset, a) {
      }
    }
  }

  lemma WorkSays(c: Config, f: Flow, s: Segment, now: nat, room: nat, firstId: nat)
    requires Sane(c, f) && Reaches(f, s)
    ensures Settled(f, s, now).clientNext == f.clientNext
    ensures var w := TakeQueries(TakePayload(c, Settled(f, s, now), s), room, firstId);
            forall a :: a in w.actions ==> Says(c, f, s, w.reset, a)
  {
    hide TakePayload, TakeQueries, Says;
    PayloadSays(c, f, s, now);
    QueriesSay(c, f, s, TakePayload(c, Settled(f, s, now), s), room, firstId);
  }

  lemma TakeFinSends(c: Config, w: Work, s: Segment)
    ensures var o := TakeFin(c, w, s);
            && o.queries == w.queries
            && |w.actions| <= |o.actions| && o.actions[..|w.actions|] == w.actions
            && (o.removed ==> CloseBoth(w.flow.id) in o.actions)
            && forall a :: a in o.actions[|w.actions|..] ==>
                 || a == AckReply(c, o.flow) || a == Note(w.flow, Retransmission)
                 || (a == ResetReply(w.flow) && w.reset)
                 || (a == CloseBoth(w.flow.id) && (o.removed || o.flow.state.Closing?))
                 || (a == CloseWrite(w.flow.id) && !o.removed && !w.flow.dns && o.flow.state.HalfClosedLocal?)
  {
  }

  lemma CoveredAt(t: Trace, m: nat)
    requires m <= Consumed(t)
    ensures Covered(t, At(t.isn, m))
  {
  }

  lemma ReachedEmits(c: Config, f: Flow, s: Segment, now: nat, room: nat, firstId: nat, t: Trace)
    requires Sane(c, f) && Follows(f, t) && Reaches(f, s)
    ensures var o := Existing(c, f, s, now, room, firstId);
            forall a :: a in o.actions ==> Emission(o.flow, Took(c, f, s, room, t), a)
  {
    hide TakePayload, TakeQueries, TakeFin, Existing, TakesPayload, TakesFin, Reaches, At, Covered;
    var t' := Took(c, f, s, room, t);
    ExistingStages(c, f, s, now, room, firstId);
    WorkSays(c, f, s, now, room, firstId);
    WorkShape(c, f, s, now, room, firstId);
    var w := TakeQueries(TakePayload(c, Settled(f, s, now), s), room, firstId);
    TakeFinSends(c, w, s);
    TakeFinShape(c, w, s);
    var o := Existing(c, f, s, now, room, firstId);
    ExistingFollows(c, f, s, now, room, firstId, t);
    CoveredAt(t', Consumed(t'));
    AtPlus(t.isn, Consumed(t), |Taken(c, f, s)|);
    CoveredAt(t', Consumed(t) + |Taken(c, f, s)|);
    forall a | a in o.actions ensures Emission(o.flow, t', a) {
      if a in w.actions {
        assert Says(c, f, s, w.reset, a);
      } else {
        assert a in o.actions[|w.actions|..];
      }
    }
  }

  /** Whatever a segment makes the engine send is a proper answer of the flow. */
  lemma ExistingEmits(c: Config, f: Flow, s: Segment, now: nat, room: nat, firstId: nat, t: Trace)
    requires Sane(c, f) && Follows(f, t)
    ensures var o := Existing(c, f, s, now, room, firstId);
            forall a :: a in o.actions ==> Emission(o.flow, Took(c, f, s, room, t), a)
  {
    hide Existing, TakesPayload, TakesFin, At, Covered, Reaches;
    if Reaches(f, s) {
      ReachedEmits(c, f, s, now, room, firstId, t);
    } else {
      var t' := Took(c, f, s, room, t);
      ExistingStops(c, f, s, now, room, firstId);
      CoveredAt(t', Consumed(t));
      ExistingSane(c, f, s, now, room, firstId);
    }
  }

  /** An accepted payload of a forwarded flow is handed on before anything else is asked for, and
      nothing acknowledges it yet. */
  lemma ForwardedShape(c: Config, f: Flow, s: Segment, now: nat, room: nat, firstId: nat)
    requires Sane(c, f) && !f.dns && TakesPayload(c, f, s)
    ensures var o := Existing(c, f, s, now, room, firstId);
            && !o.removed && o.queries == []
            && o.actions == [ForwardPayload(f.id, s.payload)]
                            + if !TakesFin(c, f, s, room) then []
                              else if f.state.HalfClosedRemote? then [CloseBoth(f.id)] else [CloseWrite(f.id)]
  {
    hide TakePayload, Existing, Reaches, Fits;
    ExistingStages(c, f, s, now, room, firstId);
    PayloadShape(c, f, s, now);
    PayloadActions(c, f, s, now);
  }

  /** Otherwise nothing is forwarded, and a write close leaves the flow half closed. */
  predicate Quiet(f: Flow, o: Outcome, a: Action) {
    match a
    case SendTcp(origin, _) => origin == Some(f.id)
    case BlockFlow(about, _) => about == Some(f.id)
    case Diagnostic(_, about) => about == Some(f.id)
    case CloseBoth(flow) => flow == f.id
    case CloseWrite(flow) => flow == f.id && !f.dns && !o.removed && o.flow.state.HalfClosedLocal?
    case ResolveDns(_, _, target) => f.dns && target == TcpTarget(f.id)
    case _ => false
  }

  lemma QuietReached(c: Config, f: Flow, s: Segment, now: nat, room: nat, firstId: nat)
    requires Sane(c, f) && Reaches(f, s) && (f.dns || !TakesPayload(c, f, s))
    ensures var o := Existing(c, f, s, now, room, firstId);
            && (o.removed ==> CloseBoth(f.id) in o.actions)
            && (forall a :: a in o.actions ==> Quiet(f, o, a))
  {
    hide TakePayload, TakeQueries, TakeFin, Existing, TakesPayload, TakesFin, Reaches, Resets;
    var o := Existing(c, f, s, now, room, firstId);
    ExistingStages(c, f, s, now, room, firstId);
    WorkSays(c, f, s, now, room, firstId);
    WorkShape(c, f, s, now, room, firstId);
    var w := TakeQueries(TakePayload(c, Settled(f, s, now), s), room, firstId);
    TakeFinSends(c, w, s);
    TakeFinShape(c, w, s);
    forall a | a in o.actions ensures Quiet(f, o, a) {
      if a in w.actions {
        assert Says(c, f, s, w.reset, a);
      } else {
        assert a in o.actions[|w.actions|..];
      }
    }
  }

  lemma QuietShape(c: Config, f: Flow, s: Segment, now: nat, room: nat, firstId: nat)
    requires Sane(c, f) && (f.dns || !TakesPayload(c, f, s))
    ensures var o := Existing(c, f, s, now, room, firstId);
            && (o.removed ==> CloseBoth(f.id) in o.actions)
            && (forall a :: a in o.actions ==> Quiet(f, o, a))
  {
    hide Existing, TakesPayload, Reaches;
    if Reaches(f, s) {
      QuietReached(c, f, s, now, room, firstId);
    } else {
      ExistingStops(c, f, s, now, room, firstId);
    }
  }

  // ---------------------------------------------------------------- one client byte stream

  /** The segment was cut from the stream: its payload lies at the offset its sequence number names,
      and a FIN ends the stream. Pure acknowledgements may name any sequence number. */
  ghost predicate CutFrom(stream: seq<byte>, isn: nat, s: Segment) {
    s.payload != [] || s.flags.fin ==>
      exists offset: nat :: CutAt(stream, isn, s, offset)
  }

  predicate CutAt(stream: seq<byte>, isn: nat, s: Segment, offset: nat) {
    && offset + |s.payload| <= |stream| && s.sequence == At(isn, offset)
    && s.payload == stream[offset..offset + |s.payload|]
    && (s.flags.fin ==> offset + |s.payload| == |stream|)
  }

  /** What has been taken is a prefix of the stream, and the FIN only after all of it. */
  ghost predicate OnStream(t: Trace, stream: seq<byte>) {
    && |stream| < WRAP && t.taken <= stream && t.fins <= 1
    && (t.fins == 1 ==> t.taken == stream)
  }

  lemma PayloadOnStream(c: Config, f: Flow, s: Segment, t: Trace, stream: seq<byte>)
    requires Sane(c, f) && Follows(f, t) && OnStream(t, stream) && CutFrom(stream, t.isn, s)
    ensures t.taken + Taken(c, f, s) <= stream
  {
    hide Reaches, Fits;
    if TakesPayload(c, f, s) {
      var offset: nat :| CutAt(stream, t.isn, s, offset);
      AtInjective(t.isn, offset, |t.taken|);
    }
  }

  lemma FinOnStream(c: Config, f: Flow, s: Segment, room: nat, t: Trace, stream: seq<byte>)
    requires Sane(c, f) && Follows(f, t) && OnStream(t, stream) && CutFrom(stream, t.isn, s)
    requires TakesFin(c, f, s, room)
    ensures t.fins == 0 && t.taken + Taken(c, f, s) == stream
  {
    hide Reaches, Fits, Resets, At;
    PayloadOnStream(c, f, s, t, stream);
    var taken := Taken(c, f, s);
    var offset: nat :| CutAt(stream, t.isn, s, offset);
    AtPlus(t.isn, offset, |s.payload|);
    AtPlus(t.isn, Consumed(t), |taken|);
    AtInjective(t.isn, |stream|, Consumed(t) + |taken|);
  }

  /** However the stream is cut, reordered or repeated, the flow takes its bytes in order and each once. */
  lemma ExistingOnStream(c: Config, f: Flow, s: Segment, room: nat, t: Trace, stream: seq<byte>)
    requires Sane(c, f) && Follows(f, t) && OnStream(t, stream) && CutFrom(stream, t.isn, s)
    ensures OnStream(Took(c, f, s, room, t), stream)
  {
    hide TakesFin, TakesPayload, Follows, Sane, CutFrom;
    PayloadOnStream(c, f, s, t, stream);
    if TakesFin(c, f, s, room) {
      FinOnStream(c, f, s, room, t, stream);
    }
  }

  // ---------------------------------------------------------------- events of the protected stream and the clock

  function Gave(t: Trace, payload: seq<byte>, flags: Flags): Trace {
    t.(given := t.given + payload, ends := t.ends + FinLength(flags))
  }

  lemma OpenedKeeps(c: Config, f: Flow, now: nat, t: Trace)
    requires Sane(c, f) && Follows(f, t)
    ensures var o := StreamOpened(c, f, now);
            && Sane(c, o.flow) && Follows(o.flow, t) && !o.removed && o.queries == []
            && o.flow.id == f.id && o.flow.key == f.key && o.flow.dns == f.dns && o.flow.buffer == f.buffer
            && Shut(o.flow) == Shut(f) && o.flow.queuedToGateway == f.queuedToGateway
            && forall a :: a in o.actions ==> PlainAnswer(f, a) && Emission(o.flow, t, a)
  {
    CoveredNow(f, t);
  }

  lemma ForwardedKeeps(c: Config, f: Flow, bytes: nat, now: nat, t: Trace)
    requires Sane(c, f) && Follows(f, t)
    ensures var o := Forwarded(c, f, bytes, now);
            && Sane(c, o.flow) && Follows(o.flow, t) && o.queries == []
            && o.flow.id == f.id && o.flow.key == f.key && o.flow.dns == f.dns && o.flow.buffer == f.buffer
            && o.flow.state == f.state
            && forall a :: a in o.actions ==> PlainAnswer(f, a) && Emission(o.flow, t, a)
  {
    CoveredNow(f, t);
  }

  /** A new segment starts where the last one ended and becomes the outstanding one. */
  lemma EmitKeeps(c: Config, f: Flow, flags: Flags, payload: seq<byte>, now: nat, t: Trace)
    requires f.clientNext < WRAP && f.serverNext < WRAP && QueuesOk(c, f) && !Handshaking(f)
    requires f.queuedToApplication == |payload| <= c.toApplicationBytes
    requires if payload == [] then flags == FIN_ACK else flags == PSH_ACK
    requires f.dns == t.dns && (Shut(f) <==> t.fins > 0) && f.clientNext == At(t.isn, Consumed(t))
    requires f.serverNext == At(t.iss, |t.given| + t.ends)
    ensures var o := Emit(c, f, flags, payload, now); var t' := Gave(t, payload, flags);
            && Sane(c, o.flow) && Follows(o.flow, t')
            && forall a :: a in o.actions ==> Emission(o.flow, t', a)
  {
    hide At;
    var t' := Gave(t, payload, flags);
    CoveredNow(f, t');
    AtPlus(t.iss, |t.given| + t.ends, |payload| + FinLength(flags));
    assert EndsWith(t'.given, payload);
  }

  lemma PayloadKeeps(c: Config, f: Flow, payload: seq<byte>, now: nat, t: Trace)
    requires Sane(c, f) && Follows(f, t) && payload != [] && Accepts(c, f, payload)
    ensures var o := StreamPayload(c, f, payload, now); var t' := Gave(t, payload, PSH_ACK);
            && Sane(c, o.flow) && Follows(o.flow, t') && !o.removed && o.queries == []
            && o.flow.id == f.id && o.flow.key == f.key && o.flow.dns == f.dns && o.flow.buffer == f.buffer
            && o.flow.state == f.state && o.flow.queuedToGateway == f.queuedToGateway
            && forall a :: a in o.actions ==> a.SendTcp? && Emission(o.flow, t', a)
  {
    EmitKeeps(c, f.(queuedToApplication := |payload|), PSH_ACK, payload, now, t);
  }

  lemma ClosedKeeps(c: Config, f: Flow, now: nat, t: Trace)
    requires Sane(c, f) && Follows(f, t) && Receptive(f)
    ensures var o := StreamClosed(c, f, now); var t' := Gave(t, [], FIN_ACK);
            && Sane(c, o.flow) && Follows(o.flow, t') && !o.removed && o.queries == []
            && o.flow.id == f.id && o.flow.key == f.key && o.flow.dns == f.dns && o.flow.buffer == f.buffer
            && Shut(o.flow) == Shut(f) && o.flow.queuedToGateway == f.queuedToGateway
            && forall a :: a in o.actions ==> a.SendTcp? && Emission(o.flow, t', a)
  {
    EmitKeeps(c, f.(state := if f.state.HalfClosedLocal? then Closing else HalfClosedRemote), FIN_ACK, [], now, t);
  }

  predicate Repeats(o: Outstanding, p: Outstanding) {
    o == p.(sentMs := o.sentMs, retransmissions := o.retransmissions)
  }

  /** A retransmission repeats the outstanding segment byte for byte. */
  lemma TickKeeps(c: Config, f: Flow, now: nat, t: Trace)
    requires Sane(c, f) && Follows(f, t)
    ensures var g := Ticked(c, f, now);
            && Sane(c, g) && Follows(g, t)
            && g == f.(outstanding := g.outstanding)
            && (f.outstanding.Some? ==> g.outstanding.Some? && Repeats(g.outstanding.value, f.outstanding.value))
            && forall a :: a in TickActions(c, f, now) ==>
                 && (a.SendTcp? || a == Note(f, Retransmission)) && Emission(g, t, a)
  {
  }

  lemma SleptKeeps(c: Config, f: Flow, slept: nat, t: Trace)
    requires Sane(c, f) && Follows(f, t)
    ensures var g := Slept(f, slept);
            && Sane(c, g) && Follows(g, t)
            && g == f.(createdMs := g.createdMs, lastActivityMs := g.lastActivityMs, connectStartedMs := g.connectStartedMs)
  {
  }

  // ---------------------------------------------------------------- what the application can see

  /** A packet acknowledges only what has been taken, unless it resets; its data are the latest bytes
      given, at the sequence number where they belong. */
  ghost predicate Sound(t: Trace, s: Segment) {
    && (s.flags.rst || Covered(t, s.acknowledgement))
    && (s.payload != [] || s.flags.fin ==>
          && EndsWith(t.given, s.payload) && FinLength(s.flags) <= t.ends
          && s.sequence == At(t.iss, |t.given| + t.ends - |s.payload| - FinLength(s.flags)))
  }

  ghost predicate Speaks(id: nat, t: Trace, a: Action) {
    a.SendTcp? ==> a.origin == Some(id) && Sound(t, a.segment)
  }

  predicate OutstandingEnds(f: Flow) {
    f.outstanding.Some? ==>
      var o := f.outstanding.value;
      o.sequence < WRAP && Plus(o.sequence, |o.payload| + FinLength(o.flags)) == f.serverNext
  }

  lemma PlusCancel(sequence: nat, n: nat, initial: nat, m: nat)
    requires sequence < WRAP && n <= m && Plus(sequence, n) == At(initial, m)
    ensures sequence == At(initial, m - n)
  {
    var x, y := sequence + n, initial + 1 + m;
    assert x % WRAP == y % WRAP;
    assert (x - n) % WRAP == (y - n) % WRAP by {
      ModSub(x, y, n);
    }
  }

  lemma ModSub(x: nat, y: nat, n: nat)
    requires x % WRAP == y % WRAP && n <= x && n <= y
    ensures (x - n) % WRAP == (y - n) % WRAP
  {
    var k := x / WRAP - y / WRAP;
    assert x - n == (y - n) + k * WRAP;
    ModShift(y - n, k);
  }

  lemma ModShift(a: int, k: int)
    ensures (a + k * WRAP) % WRAP == a % WRAP
  {
    var q, r := a / WRAP, a % WRAP;
    assert a + k * WRAP == (q + k) * WRAP + r;
  }

  lemma EmissionSound(f: Flow, t: Trace, a: Action)
    requires OutstandingEnds(f) && Follows(f, t) && Emission(f, t, a)
    ensures Speaks(f.id, t, a)
  {
    hide At, Plus, Covered;
    if a.SendTcp? && f.outstanding.Some? {
      var o := f.outstanding.value;
      PlusCancel(o.sequence, |o.payload| + FinLength(o.flags), t.iss, |t.given| + t.ends);
    }
  }

  lemma ExistingSpeaks(c: Config, f: Flow, s: Segment, now: nat, room: nat, firstId: nat, t: Trace)
    requires Sane(c, f) && Follows(f, t)
    ensures var o := Existing(c, f, s, now, room, firstId);
            forall a :: a in o.actions ==> Speaks(f.id, Took(c, f, s, room, t), a)
  {
    hide Existing, TakesFin, TakesPayload, At, Plus, Covered, Sound, Emission;
    var o, t' := Existing(c, f, s, now, room, firstId), Took(c, f, s, room, t);
    ExistingEffect(c, f, s, now, room, firstId);
    ExistingSane(c, f, s, now, room, firstId);
    ExistingFollows(c, f, s, now, room, firstId, t);
    ExistingEmits(c, f, s, now, room, firstId, t);
    forall a | a in o.actions ensures Speaks(f.id, t', a) {
      EmissionSound(o.flow, t', a);
    }
  }

  /** The same for the events of the protected stream, whose records stay sane. */
  lemma AllSpeak(c: Config, f: Flow, t: Trace, actions: seq<Action>)
    requires Sane(c, f) && Follows(f, t) && forall a :: a in actions ==> Emission(f, t, a)
    ensures forall a :: a in actions ==> Speaks(f.id, t, a)
  {
    hide At, Plus, Covered, Sound, Emission;
    forall a | a in actions ensures Speaks(f.id, t, a) {
      EmissionSound(f, t, a);
    }
  }
}
