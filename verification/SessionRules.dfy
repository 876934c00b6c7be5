/**
 What a session accepts and what it refuses. Every call and every frame has a list of conditions; the first that does
 not hold is the error. What this keeps true in every run: queues and stream tables stay within their limits, a
 session that drains takes no new streams, and a capability that was not agreed on is never used.
 */
module SessionRules {
  import opened Options
  import Q = FairQueue
  import F = FlowControl
  import opened Session
  import opened SessionPipes
  import opened SessionNetwork
  import opened SessionSafety
  import opened SessionCloses

  // ---------------------------------------------------------------- conditions

  /** The frame has a size and its queue has room for one more control frame. */
  ghost function ControlRoom(st: State, size: Option<nat>, rest: Option<F.Error>): Option<F.Error>
    requires Q.WellFormed(st.queue)
  {
    if size.None? then Some(F.InvalidFrame)
    else if |st.queue.control| >= st.limits.maxControl then Some(F.Backpressure)
    else if Q.TotalBytes(st.queue) + size.value >= 0x1_0000_0000_0000_0000 then Some(F.IntegerOverflow)
    else if Q.TotalBytes(st.queue) + size.value > st.limits.maxBytes then Some(F.Backpressure)
    else rest
  }

  ghost function StreamRoom(st: State, s: nat, size: Option<nat>, rest: Option<F.Error>): Option<F.Error>
    requires Q.WellFormed(st.queue)
  {
    if size.None? then Some(F.InvalidFrame)
    else if Q.TotalBytes(st.queue) + size.value >= 0x1_0000_0000_0000_0000 then Some(F.IntegerOverflow)
    else if Q.TotalBytes(st.queue) + size.value > st.limits.maxBytes then Some(F.Backpressure)
    else if Q.SumSizes(Q.Pending(st.queue, s)) + size.value >= 0x1_0000_0000_0000_0000 then Some(F.IntegerOverflow)
    else if Q.SumSizes(Q.Pending(st.queue, s)) + size.value > st.limits.maxStreamBytes then Some(F.Backpressure)
    else rest
  }

  function StreamKnown(l: F.Ledger, s: nat, rest: Option<F.Error>): Option<F.Error> {
    if s % 2 == 1 && s in l.streams then rest else Some(F.InvalidStreamId)
  }

  predicate PhaseIs(l: F.Ledger, s: nat, phase: F.StreamPhase) {
    s in l.streams && l.streams[s].phase == phase
  }

  /** A new stream: odd, above every one seen, within the number agreed on, with a window that is permitted. */
  function StreamNew(l: F.Ledger, s: nat, window: nat): Option<F.Error> {
    if s % 2 == 0 || s <= l.maxSeen || s in l.streams then Some(F.InvalidStreamId)
    else if |l.streams| >= l.maxStreams then Some(F.StreamLimit)
    else if window > 4194304 then Some(F.InvalidField)
    else None
  }

  function StreamAnswered(l: F.Ledger, s: nat, window: nat, phase: F.StreamPhase): Option<F.Error> {
    if window == 0 || window > 4194304 then Some(F.InvalidField)
    else StreamKnown(l, s, if PhaseIs(l, s, phase) then None else Some(F.ProtocolViolation))
  }

  /** Credit that keeps a window within its cap. */
  function CreditFits(window: nat, credit: nat, cap: nat): Option<F.Error> {
    if window + credit >= 0x1_0000_0000_0000_0000 then Some(F.IntegerOverflow)
    else if window + credit > cap then Some(F.FlowControlViolation)
    else None
  }

  function SendWindow(l: F.Ledger, s: nat): nat {
    if s in l.streams then l.streams[s].send else 0
  }

  function RecvWindow(l: F.Ledger, s: nat): nat {
    if s in l.streams then l.streams[s].recv else 0
  }

  /** Bytes that both windows of a stream open for sending can take. */
  function Sendable(st: State, s: nat, n: nat): Option<F.Error> {
    if n > st.flow.connSend then Some(F.Backpressure)
    else if s % 2 == 0 || s !in st.flow.streams then Some(F.InvalidStreamId)
    else if !PhaseIs(st.flow, s, F.Open) || LocalClosed(st, s) then Some(F.Closed)
    else if n > SendWindow(st.flow, s) then Some(F.Backpressure)
    else None
  }

  /** Why a call is refused, if it is. */
  ghost function CallRefusal(st: State, call: Call): Option<F.Error>
    requires Q.WellFormed(st.queue)
  {
    var l := st.flow;
    match call
    case CallOpen(s, window, size) =>
      if !st.phase.Active? || !st.role.Client? then Some(F.Closed)
      else if !st.tcp then Some(F.ProtocolViolation)
      else ControlRoom(st, size, StreamNew(l, s, window))
    case CallAccept(s, window, size) =>
      if !st.phase.Active? || !st.role.Server? then Some(F.Closed)
      else if !st.tcp then Some(F.ProtocolViolation)
      else ControlRoom(st, size, StreamAnswered(l, s, window, F.OpeningRemote))
    case CallReject(s, size) =>
      if !st.phase.Active? || !st.role.Server? then Some(F.Closed)
      else if !st.tcp then Some(F.ProtocolViolation)
      else ControlRoom(st, size, StreamKnown(l, s, None))
    case CallData(s, payload, size) =>
      var n := if |payload| < 32768 then |payload| else 32768;
      if st.phase.Closed? then Some(F.Closed)
      else if !st.tcp then Some(F.ProtocolViolation)
      else if s % 2 == 0 then Some(F.InvalidStreamId)
      else if n == 0 then Some(F.InvalidField)
      else StreamRoom(st, s, size, Sendable(st, s, n))
    case CallGrant(s, credit, size) =>
      if st.phase.Closed? then Some(F.Closed)
      else if !st.credits then Some(F.ProtocolViolation)
      else
        ControlRoom(st, size,
          if credit == 0 then Some(F.InvalidField)
          else if s == 0 then CreditFits(l.connRecv, credit, 16777216)
          else StreamKnown(l, s, CreditFits(RecvWindow(l, s), credit, 4194304)))
    case CallHalfClose(s, size) =>
      if st.phase.Closed? then Some(F.Closed)
      else if !st.tcp then Some(F.ProtocolViolation)
      else
        ControlRoom(st, size,
          StreamKnown(l, s, if PhaseIs(l, s, F.Open) && !LocalClosed(st, s) then None else Some(F.Closed)))
    case CallClose(s, size) =>
      if st.phase.Closed? then Some(F.Closed)
      else if !st.tcp then Some(F.ProtocolViolation)
      else ControlRoom(st, size, StreamKnown(l, s, None))
    case CallNotice(_, size) => if st.phase.Closed? then Some(F.Closed) else ControlRoom(st, size, None)
    case CallGoAway(size) => if st.phase.Closed? then Some(F.Closed) else ControlRoom(st, size, None)
  }

  /** Why a frame is refused, if it is. */
  function FrameRefusal(st: State, frame: Frame, wellFormed: bool): Option<F.Error> {
    if st.phase.Closed? then Some(F.Closed)
    else if !wellFormed then Some(F.InvalidFrame)
    else if frame.sequence != st.nextRecv then Some(F.InvalidSequence)
    else BodyRefusal(st, frame.body)
  }

  function BodyRefusal(st: State, b: Body): Option<F.Error> {
    var l := st.flow;
    match b
    case OpenTcp(s, window) =>
      if !st.tcp || !st.role.Server? || st.phase.Draining? then Some(F.ProtocolViolation) else StreamNew(l, s, window)
    case Opened(s, window) =>
      if !st.tcp || !st.role.Client? then Some(F.ProtocolViolation) else StreamAnswered(l, s, window, F.OpeningLocal)
    case Rejected(s) =>
      if !st.tcp || !st.role.Client? then Some(F.ProtocolViolation) else StreamKnown(l, s, None)
    case Data(s, payload) =>
      if !st.tcp then Some(F.ProtocolViolation)
      else if payload == [] || |payload| > l.connRecv || !PhaseIs(l, s, F.Open) || RemoteClosed(st, s)
              || |payload| > RecvWindow(l, s) then Some(F.FlowControlViolation)
      else if s % 2 == 0 then Some(F.InvalidStreamId)
      else None
    case WindowUpdate(s, credit) =>
      if !st.credits then Some(F.ProtocolViolation)
      else if credit == 0 then Some(F.FlowControlViolation)
      else if s == 0 then CreditFits(l.connSend, credit, 16777216)
      else StreamKnown(l, s, CreditFits(SendWindow(l, s), credit, 4194304))
    case HalfClose(s) =>
      if !st.tcp then Some(F.ProtocolViolation)
      else StreamKnown(l, s, if PhaseIs(l, s, F.Open) && !RemoteClosed(st, s) then None else Some(F.ProtocolViolation))
    case CloseStream(s) => if !st.tcp then Some(F.ProtocolViolation) else StreamKnown(l, s, None)
    case GoAway => None
    case Notice(_) => None
  }

  // ---------------------------------------------------------------- the conditions decide

  ghost predicate Decided(r: F.Result<State>, refusal: Option<F.Error>) {
    match refusal
    case None => r.Ok?
    case Some(e) => r == F.Err(e)
  }

  lemma RoomDecides(st: State, size: Option<nat>, body: Body, flow: F.Result<F.Ledger>, base: Q.Queue<Body>,
                    rest: Option<F.Error>)
    requires Q.WellFormed(st.queue)
    requires match rest case None => flow.Ok? case Some(e) => flow == F.Err(e)
    ensures Decided(Commit(st, size, body, flow, base), ControlRoom(st, size, rest))
  {
    hide Q.TotalBytes;
  }

  lemma OpenDecided(l: F.Ledger, s: nat, window: nat)
    ensures match StreamNew(l, s, window)
            case None => F.OpenLocal(l, s, window).Ok? && F.ReceiveOpen(l, s, window).Ok?
            case Some(e) => F.OpenLocal(l, s, window) == F.ReceiveOpen(l, s, window) == F.Err(e)
  {
  }

  lemma AnswerDecided(l: F.Ledger, s: nat, window: nat)
    ensures match StreamAnswered(l, s, window, F.OpeningLocal)
            case None => F.ConfirmLocalOpen(l, s, window).Ok?
            case Some(e) => F.ConfirmLocalOpen(l, s, window) == F.Err(e)
    ensures match StreamAnswered(l, s, window, F.OpeningRemote)
            case None => F.AcceptRemoteOpen(l, s, window).Ok?
            case Some(e) => F.AcceptRemoteOpen(l, s, window) == F.Err(e)
  {
  }

  lemma DataDecided(st: State, s: nat, payload: Payload, size: Option<nat>)
    requires Q.WellFormed(st.queue)
    ensures Decided(TryQueueData(st, s, payload, size), CallRefusal(st, CallData(s, payload, size)))
  {
    hide Q.TotalBytes, Q.SumSizes;
  }

  /** A call succeeds if and only if all its conditions hold; otherwise the first that does not is its error. */
  lemma CallDecided(st: State, call: Call)
    requires Q.WellFormed(st.queue)
    ensures Decided(Called(st, call), CallRefusal(st, call))
  {
    hide ControlRoom, Commit, StreamNew, StreamAnswered, Q.TotalBytes;
    var l := st.flow;
    match call {
      case CallOpen(s, window, size) =>
        OpenDecided(l, s, window);
        RoomDecides(st, size, OpenTcp(s, window), F.OpenLocal(l, s, window), st.queue, StreamNew(l, s, window));
      case CallAccept(s, window, size) =>
        AnswerDecided(l, s, window);
        RoomDecides(st, size, Opened(s, window), F.AcceptRemoteOpen(l, s, window), st.queue,
                    StreamAnswered(l, s, window, F.OpeningRemote));
      case CallReject(s, size) =>
        RoomDecides(st, size, Rejected(s), F.RejectOrClose(l, s), st.queue, StreamKnown(l, s, None));
      case CallData(s, payload, size) => DataDecided(st, s, payload, size);
      case CallGrant(s, credit, size) =>
        var rest :=
          if credit == 0 then Some(F.InvalidField)
          else if s == 0 then CreditFits(l.connRecv, credit, 16777216)
          else StreamKnown(l, s, CreditFits(RecvWindow(l, s), credit, 4194304));
        RoomDecides(st, size, WindowUpdate(s, credit), F.GrantReceiveCredit(l, s, credit), st.queue, rest);
      case CallHalfClose(s, size) =>
        RoomDecides(st, size, HalfClose(s), F.LocalHalfClose(l, s), st.queue,
                    StreamKnown(l, s, if PhaseIs(l, s, F.Open) && !LocalClosed(st, s) then None else Some(F.Closed)));
      case CallClose(s, size) =>
        RoomDecides(st, size, CloseStream(s), F.RejectOrClose(l, s), Q.Cancel(st.queue, s), StreamKnown(l, s, None));
      case CallNotice(fatal, size) =>
        RoomDecides(st, size, Notice(fatal), F.Ok(l), st.queue, None);
      case CallGoAway(size) =>
        RoomDecides(st, size, GoAway, F.Ok(l), st.queue, None);
    }
  }

  lemma BodyDecided(st: State, b: Body)
    ensures var a := ApplyInbound(st, b);
            match BodyRefusal(st, b)
            case None => a.status.Ok?
            case Some(e) => a.status == F.Err(e)
  {
    match b {
      case OpenTcp(s, window) => OpenDecided(st.flow, s, window);
      case Opened(s, window) => AnswerDecided(st.flow, s, window);
      case _ =>
    }
  }

  /** A frame is taken if and only if all its conditions hold; otherwise the first that does not is the error, and the
      session is closed. Taking one that says so drains or closes the session, and nothing else changes the phase. */
  lemma FrameDecided(st: State, frame: Frame, wellFormed: bool)
    ensures var a := Receive(st, frame, wellFormed);
            match FrameRefusal(st, frame, wellFormed)
            case Some(e) => a.status == F.Err(e) && a.state.phase.Closed?
            case None =>
              && a.status.Ok? && a.state.nextRecv == st.nextRecv + 1
              && a.state.phase == (if frame.body == GoAway then Draining
                                   else if frame.body == Notice(true) then Closed else st.phase)
  {
    hide ApplyInbound, BodyRefusal;
    var next := st.(nextRecv := st.nextRecv + 1);
    BodyDecided(next, frame.body);
    NumberIrrelevant(st, frame.body, st.nextRecv + 1);
    BodyPhase(next, frame.body);
  }

  lemma NumberIrrelevant(st: State, b: Body, n: nat)
    ensures BodyRefusal(st.(nextRecv := n), b) == BodyRefusal(st, b)
  {
  }

  lemma BodyPhase(st: State, b: Body)
    ensures var a := ApplyInbound(st, b);
            && a.state.nextRecv == st.nextRecv
            && (a.status.Ok? ==>
                  a.state.phase == if b == GoAway then Draining else if b == Notice(true) then Closed else st.phase)
  {
  }

  // ---------------------------------------------------------------- the phase of a session

  /** The phase that a move leaves behind. */
  function PhaseAfter(e: Side, mv: Move, accepted: bool): Phase {
    match mv
    case Local(call) => if call.CallGoAway? && accepted then Draining else e.st.phase
    case FlushOut(writing) =>
      if writing == Written || (e.st.queue.control == [] && e.st.queue.streams == map[]) then e.st.phase else Closed
    case TakeIn(wellFormed) =>
      if e.inbox == [] then e.st.phase
      else if FrameRefusal(e.st, e.inbox[0], wellFormed).Some? || e.inbox[0].body == Notice(true) then Closed
      else if e.inbox[0].body == GoAway then Draining
      else e.st.phase
    case Breaks => Closed
  }

  /** A session drains when it says or is told to go away; it closes when a write fails, when it takes a frame that it
      must refuse or that says so, and when the transport breaks. It never comes back. */
  lemma PhaseExact(e: Side, mv: Move)
    requires Q.WellFormed(e.st.queue)
    ensures Moved(e, mv).st.phase
         == if e.st.phase.Closed? then Closed
            else PhaseAfter(e, mv, mv.Local? && CallRefusal(e.st, mv.call).None?)
  {
    hide CallRefusal, FrameRefusal;
    match mv {
      case Local(call) =>
        CallDecided(e.st, call);
        if Called(e.st, call).Ok? {
          CallPhase(e.st, call);
        }
        hide Called;
      case FlushOut(_) => EmptyIff(e.st.queue);
      case TakeIn(wellFormed) =>
        if e.inbox != [] {
          FrameDecided(e.st, e.inbox[0], wellFormed);
        }
        hide Receive;
      case Breaks =>
    }
  }

  lemma CallPhase(st: State, call: Call)
    requires Q.WellFormed(st.queue) && Called(st, call).Ok?
    ensures !st.phase.Closed?
    ensures Called(st, call).value.phase == if call.CallGoAway? then Draining else st.phase
  {
  }

  lemma EmptyIff(q: Q.Queue<Body>)
    requires Q.WellFormed(q)
    ensures Q.Front(q).Nothing? <==> q.control == [] && q.streams == map[]
  {
    if q.active == [] {
      assert forall s :: s !in q.streams;
    } else {
      assert q.active[0] in q.active;
    }
  }

  // ---------------------------------------------------------------- limits, in every run

  /** Queue and stream table are within the limits agreed on. */
  ghost predicate Bounded(st: State) {
    Q.WellFormed(st.queue) && Q.WithinLimits(st.queue, st.limits) && |st.flow.streams| <= st.flow.maxStreams
  }

  lemma ControlFits(q: Q.Queue<Body>, limits: Q.Limits, item: Q.Item<Body>)
    requires Q.WellFormed(q) && Q.WithinLimits(q, limits) && |q.control| < limits.maxControl
    requires Q.TotalBytes(q) + item.size <= limits.maxBytes
    ensures Q.WellFormed(Q.PushControl(q, item)) && Q.WithinLimits(Q.PushControl(q, item), limits)
  {
    Q.PushControlKeeps(q, item);
    hide Q.TotalBytes, Q.SumSizes;
  }

  lemma StreamFits(q: Q.Queue<Body>, limits: Q.Limits, s: nat, item: Q.Item<Body>)
    requires Q.WellFormed(q) && Q.WithinLimits(q, limits) && Q.TotalBytes(q) + item.size <= limits.maxBytes
    requires Q.SumSizes(Q.Pending(q, s)) + item.size <= limits.maxStreamBytes
    ensures Q.WellFormed(Q.PushStream(q, s, item)) && Q.WithinLimits(Q.PushStream(q, s, item), limits)
  {
    Q.PushStreamKeeps(q, s, item);
    Q.SumSizesPush(Q.Pending(q, s), item);
    hide Q.TotalBytes, Q.SumSizes;
  }

  lemma CancelFits(q: Q.Queue<Body>, limits: Q.Limits, s: nat)
    requires Q.WellFormed(q) && Q.WithinLimits(q, limits)
    ensures Q.WellFormed(Q.Cancel(q, s)) && Q.WithinLimits(Q.Cancel(q, s), limits)
    ensures Q.TotalBytes(Q.Cancel(q, s)) <= Q.TotalBytes(q) && Q.Cancel(q, s).control == q.control
  {
    Q.CancelKeeps(q, s);
    hide Q.TotalBytes, Q.SumSizes;
  }

  lemma RestFits(q: Q.Queue<Body>, limits: Q.Limits)
    requires Q.WellFormed(q) && Q.WithinLimits(q, limits)
    ensures Q.WellFormed(Q.Rest(q)) && Q.WithinLimits(Q.Rest(q), limits)
  {
    Q.RestKeeps(q);
    hide Q.TotalBytes;
    if !Q.ControlTurn(q) && q.active != [] {
      assert q.active[0] in q.active;
      var items := q.streams[q.active[0]];
      assert Q.SumSizes(items) == items[0].size + Q.SumSizes(items[1..]);
      hide Q.SumSizes;
    }
  }

  lemma SizeIs(st: State, call: Call)
    requires Q.WellFormed(st.queue) && CallRefusal(st, call).None?
    ensures call.size.Some? && Q.TotalBytes(st.queue) + call.size.value <= st.limits.maxBytes
    ensures if call.CallData? then Q.SumSizes(Q.Pending(st.queue, call.stream)) + call.size.value <= st.limits.maxStreamBytes
            else |st.queue.control| < st.limits.maxControl
  {
    hide Q.TotalBytes, Q.SumSizes;
  }

  lemma CallFits(e: Side, call: Call)
    requires Bounded(e.st) && Called(e.st, call).Ok?
    ensures var q := Moved(e, Local(call)).st.queue; Q.WellFormed(q) && Q.WithinLimits(q, e.st.limits)
  {
    CallDecided(e.st, call);
    SizeIs(e.st, call);
    CalledDid(e, call);
    hide Called, Moved, CallRefusal, Q.WithinLimits, Q.WellFormed, Q.PushControl, Q.PushStream, Q.Cancel, Q.TotalBytes, Q.SumSizes;
    var q, item := e.st.queue, Q.Item(BodyOf(call), call.size.value);
    if call.CallData? {
      StreamFits(q, e.st.limits, call.stream, item);
    } else if call.CallClose? {
      CancelFits(q, e.st.limits, call.stream);
      ControlFits(Q.Cancel(q, call.stream), e.st.limits, item);
    } else {
      ControlFits(q, e.st.limits, item);
    }
  }

  lemma PutSize(m: map<nat, F.Stream>, s: nat, x: F.Stream)
    ensures |m[s := x]| == |m| + (if s in m then 0 else 1) && m[s := x].Keys == m.Keys + {s}
    ensures |m - {s}| <= |m| && (m - {s}).Keys <= m.Keys
  {
    assert |m[s := x]| == |m[s := x].Keys| && |m| == |m.Keys| && |m - {s}| == |(m - {s}).Keys|;
    if s in m {
      assert m.Keys + {s} == m.Keys && (m - {s}).Keys == m.Keys - {s};
    } else {
      assert m - {s} == m;
    }
  }

  ghost predicate Counts(l: F.Ledger, l': F.Ledger, opens: bool) {
    && l'.maxStreams == l.maxStreams && (|l.streams| <= l.maxStreams ==> |l'.streams| <= l'.maxStreams)
    && (!opens ==> l'.streams.Keys <= l.streams.Keys)
  }

  /** One stream is changed or removed, or a new one is put in where there is room. */
  predicate OneChanges(l: F.Ledger, s: nat, l': F.Ledger, opens: bool) {
    && l'.maxStreams == l.maxStreams
    && (|| l'.streams == l.streams || l'.streams == l.streams - {s}
        || (s in l'.streams && l'.streams == l.streams[s := l'.streams[s]]
            && (s in l.streams || (opens && |l.streams| < l.maxStreams))))
  }

  lemma OneCounts(l: F.Ledger, s: nat, l': F.Ledger, opens: bool)
    requires OneChanges(l, s, l', opens)
    ensures Counts(l, l', opens)
  {
    if s in l'.streams {
      PutSize(l.streams, s, l'.streams[s]);
    } else {
      PutSize(l.streams, s, F.Stream(F.Open, 0, 0, false, false));
    }
  }

  lemma CallLedgerCounts(l: F.Ledger, call: Call, l': F.Ledger)
    requires LedgerAfter(l, call) == F.Ok(l')
    ensures Counts(l, l', call.CallOpen?)
  {
    hide Counts;
    var s := if call.CallNotice? || call.CallGoAway? then 0 else call.stream;
    assert OneChanges(l, s, l', call.CallOpen?);
    OneCounts(l, s, l', call.CallOpen?);
  }

  lemma TakeLedgerCounts(l: F.Ledger, b: Body, l': F.Ledger)
    requires LedgerTaking(l, b) == F.Ok(l')
    ensures Counts(l, l', b.OpenTcp?)
  {
    hide Counts;
    var s := if b.GoAway? || b.Notice? then 0 else b.stream;
    assert OneChanges(l, s, l', b.OpenTcp?);
    OneCounts(l, s, l', b.OpenTcp?);
  }

  lemma CallCounts(st: State, call: Call)
    requires Q.WellFormed(st.queue) && Called(st, call).Ok? && |st.flow.streams| <= st.flow.maxStreams
    ensures var st' := Called(st, call).value;
            && |st'.flow.streams| <= st'.flow.maxStreams && st'.limits == st.limits
            && (st.phase.Active? || NoneNew(st, st'))
  {
    CalledDid(Side(st, [], [], 0), call);
    CallLimits(st, call);
    var st' := Called(st, call).value;
    hide Called, LedgerAfter;
    CallLedgerCounts(st.flow, call, st'.flow);
  }

  lemma CallLimits(st: State, call: Call)
    requires Q.WellFormed(st.queue) && Called(st, call).Ok?
    ensures Called(st, call).value.limits == st.limits && (call.CallOpen? ==> st.phase.Active?)
  {
  }

  lemma BodyCounts(st: State, b: Body)
    requires Live(st) && |st.flow.streams| <= st.flow.maxStreams
    ensures var st' := ApplyInbound(st, b).state;
            && |st'.flow.streams| <= st'.flow.maxStreams && st'.limits == st.limits
            && (st.phase.Active? || NoneNew(st, st'))
  {
    InboundDid(st, b);
    BodyLimits(st, b);
    var a := ApplyInbound(st, b);
    hide ApplyInbound, LedgerTaking;
    if a.status.Ok? {
      TakeLedgerCounts(st.flow, b, a.state.flow);
    }
  }

  lemma BodyLimits(st: State, b: Body)
    ensures ApplyInbound(st, b).state.limits == st.limits
    ensures b.OpenTcp? && ApplyInbound(st, b).status.Ok? ==> !st.phase.Draining?
  {
  }

  /** The ledger and the limits after a move. */
  ghost predicate NoneNew(st: State, st': State) {
    st'.flow.streams.Keys <= st.flow.streams.Keys
  }

  lemma MoveBounded(e: Side, mv: Move)
    requires Bounded(e.st)
    ensures Bounded(Moved(e, mv).st) && Moved(e, mv).st.limits == e.st.limits
    ensures e.st.phase.Active? || NoneNew(e.st, Moved(e, mv).st)
  {
    hide Q.WithinLimits, Q.WellFormed, Q.PushControl, Q.PushStream, Q.Cancel, Q.Rest, Q.Front;
    match mv {
      case Local(call) =>
        if Called(e.st, call).Ok? {
          CallFits(e, call);
          CallCounts(e.st, call);
        }
        hide Called;
      case FlushOut(_) => RestFits(e.st.queue, e.st.limits);
      case TakeIn(wellFormed) =>
        if e.inbox != [] {
          TakeBounded(e.st, e.inbox[0], wellFormed);
        }
        hide Receive;
      case Breaks =>
    }
  }

  lemma TakeBounded(st: State, frame: Frame, wellFormed: bool)
    requires Bounded(st)
    ensures var a := Receive(st, frame, wellFormed);
            Bounded(a.state) && a.state.limits == st.limits && (st.phase.Active? || NoneNew(st, a.state))
  {
    var next := st.(nextRecv := st.nextRecv + 1);
    var a := ApplyInbound(next, frame.body);
    ReceiveIs(st, frame, wellFormed);
    hide Receive, Q.WithinLimits, Q.WellFormed, Q.Cancel;
    if Live(st) {
      BodyCounts(next, frame.body);
      BodyQueue(next, frame.body);
      hide ApplyInbound;
      if frame.body.CloseStream? {
        CancelFits(st.queue, st.limits, frame.body.stream);
      }
    }
  }

  /** Ledger and queue are as they were, or as the message leaves them. */
  lemma ReceiveIs(st: State, frame: Frame, wellFormed: bool)
    ensures var r, a := Receive(st, frame, wellFormed).state, ApplyInbound(st.(nextRecv := st.nextRecv + 1), frame.body).state;
            || (r.flow == st.flow && r.queue == st.queue && r.limits == st.limits)
            || (Live(st) && r.flow == a.flow && r.queue == a.queue && r.limits == a.limits)
  {
    hide ApplyInbound;
  }

  lemma BodyQueue(st: State, b: Body)
    ensures ApplyInbound(st, b).state.queue == if b.CloseStream? && st.tcp then Q.Cancel(st.queue, b.stream) else st.queue
  {
  }

  lemma {:induction false} RunBounded(states: seq<Net>, steps: seq<Step>, k: nat, role: Role)
    requires Run(states, steps) && k < |states|
    ensures Bounded(SideOf(states[k], role).st)
  {
    hide Moved, Bounded;
    if k == 0 {
      InitialBounded(states[0], role);
    } else {
      RunBounded(states, steps, k - 1, role);
      assert states[k - 1 + 1] == Next(states[k - 1], steps[k - 1]);
      BoundedWellFormed(SideOf(states[k - 1], role).st);
      if steps[k - 1] == By(role, steps[k - 1].mv) {
        MoveBounded(SideOf(states[k - 1], role), steps[k - 1].mv);
      }
    }
  }

  lemma BoundedWellFormed(st: State)
    requires Bounded(st)
    ensures Q.WellFormed(st.queue)
  {
  }

  lemma InitialBounded(n: Net, role: Role)
    requires Initial(n)
    ensures Bounded(SideOf(n, role).st)
  {
  }

  /** In every run an endpoint queues at most as many bytes, bytes of one stream and control frames as its limits say,
      and never has more streams than were agreed on. */
  lemma LimitsHold(states: seq<Net>, steps: seq<Step>, k: nat, role: Role)
    requires Run(states, steps) && k < |states|
    ensures var st := SideOf(states[k], role).st;
            && Q.WellFormed(st.queue) && Q.TotalBytes(st.queue) <= st.limits.maxBytes
            && (forall s :: s in st.queue.streams ==> Q.SumSizes(st.queue.streams[s]) <= st.limits.maxStreamBytes)
            && |st.queue.control| <= st.limits.maxControl && |st.flow.streams| <= st.flow.maxStreams
  {
    RunBounded(states, steps, k, role);
  }

  // ---------------------------------------------------------------- draining, in every run

  lemma StepKeepsDraining(e: Side, mv: Move)
    requires Bounded(e.st) && !e.st.phase.Active?
    ensures !Moved(e, mv).st.phase.Active? && NoneNew(e.st, Moved(e, mv).st)
  {
    MoveBounded(e, mv);
    PhaseExact(e, mv);
    hide Moved, CallRefusal, FrameRefusal;
  }

  /** A session that drains or is closed never opens or takes a stream again, on whichever side. */
  lemma {:induction false} DrainingTakesNone(states: seq<Net>, steps: seq<Step>, i: nat, k: nat, role: Role)
    requires Run(states, steps) && i <= k < |states| && !SideOf(states[i], role).st.phase.Active?
    ensures var st, st' := SideOf(states[i], role).st, SideOf(states[k], role).st;
            !st'.phase.Active? && st'.flow.streams.Keys <= st.flow.streams.Keys
    decreases k
  {
    hide Moved, Bounded;
    if i < k {
      DrainingTakesNone(states, steps, i, k - 1, role);
      RunBounded(states, steps, k - 1, role);
      assert states[k - 1 + 1] == Next(states[k - 1], steps[k - 1]);
      BoundedWellFormed(SideOf(states[k - 1], role).st);
      if steps[k - 1] == By(role, steps[k - 1].mv) {
        StepKeepsDraining(SideOf(states[k - 1], role), steps[k - 1].mv);
      }
    }
  }

  // ---------------------------------------------------------------- capabilities, in every run

  predicate AboutStreams(b: Body) {
    b.OpenTcp? || b.Opened? || b.Rejected? || b.Data? || b.HalfClose? || b.CloseStream?
  }

  /** The endpoint has neither queued nor written what it may not say, and has no streams it may not have. */
  ghost predicate Permitted(e: Side) {
    && (!e.st.tcp ==> e.st.flow.streams == map[] && e.st.queue.streams == map[])
    && (forall b :: b in ItemBodies(e.st.queue.control) || b in FrameBodies(e.outbox) ==>
          (!e.st.tcp ==> !AboutStreams(b)) && (!e.st.credits ==> !b.WindowUpdate?))
  }

  lemma CallPermitted(e: Side, call: Call)
    requires Q.WellFormed(e.st.queue) && Permitted(e) && Called(e.st, call).Ok?
    ensures Permitted(Moved(e, Local(call)))
  {
    CallDecided(e.st, call);
    CallGates(e.st, call);
    CalledDid(e, call);
    var e' := Moved(e, Local(call));
    hide Called, Moved, CallRefusal, LedgerAfter;
    var item := Q.Item(BodyOf(call), call.size.value);
    assert ItemBodies(e.st.queue.control + [item]) == ItemBodies(e.st.queue.control) + [item.body];
  }

  lemma CallGates(st: State, call: Call)
    requires Q.WellFormed(st.queue) && Called(st, call).Ok? && CallRefusal(st, call).None?
    ensures AboutStreams(BodyOf(call)) ==> st.tcp
    ensures BodyOf(call).WindowUpdate? ==> st.credits
    ensures var st' := Called(st, call).value;
            && st'.tcp == st.tcp && st'.credits == st.credits
            && (!st.tcp && st.flow.streams == map[] ==> st'.flow.streams == map[])
  {
    hide Q.TotalBytes, Q.SumSizes;
  }

  lemma WritePermitted(e: Side, writing: Writing)
    requires QueueOk(e.st.role, e.st.queue) && Permitted(e)
    ensures Permitted(Moved(e, FlushOut(writing)))
  {
    var q := e.st.queue;
    EmptyIff(q);
    if !e.st.phase.Closed? && !Q.Front(q).Nothing? {
      FlushShape(e.st);
      var b := Q.Front(q).item.body;
      assert FrameBodies(e.outbox + [Frame(e.st.nextSend, b)]) == FrameBodies(e.outbox) + [b];
      RestControl(q);
      hide QueueOk, Q.Rest, Q.Front, Q.WellFormed;
    }
  }

  lemma RestControl(q: Q.Queue<Body>)
    requires Q.WellFormed(q) && !Q.Front(q).Nothing?
    ensures var b := Q.Front(q).item.body;
            && (Q.Front(q).FromControl? ==> b in ItemBodies(q.control))
            && (Q.Front(q).FromStream? ==> q.streams != map[])
            && (forall c :: c in ItemBodies(Q.Rest(q).control) ==> c in ItemBodies(q.control))
            && (q.streams == map[] ==> Q.Rest(q).streams == map[])
  {
    EmptyIff(q);
    if Q.ControlTurn(q) {
      assert ItemBodies(q.control)[1..] == ItemBodies(q.control[1..]);
    } else {
      assert q.active[0] in q.active;
    }
  }

  lemma TakePermitted(e: Side, wellFormed: bool)
    requires Q.WellFormed(e.st.queue) && Permitted(e)
    ensures Permitted(Moved(e, TakeIn(wellFormed)))
  {
    if Live(e.st) && e.inbox != [] {
      TakeGates(e.st, e.inbox[0], wellFormed);
      hide Receive;
    }
  }

  lemma TakeGates(st: State, frame: Frame, wellFormed: bool)
    ensures var st' := Receive(st, frame, wellFormed).state;
            && st'.tcp == st.tcp && st'.credits == st.credits && st'.queue.control == st.queue.control
            && (!st.tcp && st.flow.streams == map[] && st.queue.streams == map[] ==>
                  st'.flow.streams == map[] && st'.queue.streams == map[])
  {
  }

  lemma MovePermitted(e: Side, mv: Move)
    requires QueueOk(e.st.role, e.st.queue) && Permitted(e)
    ensures Permitted(Moved(e, mv))
  {
    hide Permitted;
    match mv {
      case Local(call) =>
        if Called(e.st, call).Ok? {
          CallPermitted(e, call);
        }
      case FlushOut(writing) => WritePermitted(e, writing);
      case TakeIn(wellFormed) => TakePermitted(e, wellFormed);
      case Breaks => BreakPermitted(e);
    }
  }

  lemma BreakPermitted(e: Side)
    requires Q.WellFormed(e.st.queue) && Permitted(e)
    ensures Permitted(Moved(e, Breaks))
  {
  }

  /** In every run an endpoint without the TCP capability has no streams and says nothing about any, and one without
      credits grants none: neither queued nor on the channel. */
  lemma {:induction false} CapabilitiesRespected(states: seq<Net>, steps: seq<Step>, k: nat, role: Role)
    requires Run(states, steps) && k < |states|
    ensures Permitted(SideOf(states[k], role))
  {
    hide Moved, Permitted;
    if k == 0 {
      InitialPermitted(states[0], role);
    } else {
      CapabilitiesRespected(states, steps, k - 1, role);
      RunShape(states, steps, k - 1);
      var n, step := states[k - 1], steps[k - 1];
      assert states[k - 1 + 1] == Next(n, step);
      if step == By(role, step.mv) {
        MovePermitted(SideOf(n, role), step.mv);
      } else {
        ChannelOnly(n, step, role);
      }
    }
  }

  lemma InitialPermitted(n: Net, role: Role)
    requires Initial(n)
    ensures Permitted(SideOf(n, role))
  {
  }

  /** A step of the peer can only take frames off the channel. */
  lemma ChannelOnly(n: Net, step: Step, role: Role)
    requires Shape(n) && step != By(role, step.mv) && Permitted(SideOf(n, role))
    ensures Permitted(SideOf(Next(n, step), role))
  {
    var e, e' := SideOf(n, role), SideOf(Next(n, step), role);
    var p := SideOf(n, Peer(role));
    PeerTakes(p, step.mv);
    hide Moved;
    assert e'.st == e.st && forall f :: f in e'.outbox ==> f in e.outbox;
    FewerBodies(e'.outbox, e.outbox);
  }

  lemma FewerBodies(few: seq<Frame>, all: seq<Frame>)
    requires forall f :: f in few ==> f in all
    ensures forall b :: b in FrameBodies(few) ==> b in FrameBodies(all)
  {
    forall b | b in FrameBodies(few) ensures b in FrameBodies(all) {
      var i :| 0 <= i < |few| && few[i].body == b;
      assert few[i] in all;
      var j :| 0 <= j < |all| && all[j] == few[i];
      assert FrameBodies(all)[j] == b;
    }
  }

  lemma PeerTakes(p: Side, mv: Move)
    requires Q.WellFormed(p.st.queue)
    ensures forall f :: f in Moved(p, mv).inbox ==> f in p.inbox
  {
  }
}
