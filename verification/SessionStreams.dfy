/**
 The per-stream invariant of the two-endpoint network: both credit lanes are balanced, and the
 single open/opened token of a stream is where the opening handshake says it is.
 */
module SessionStreams {
  import opened Options
  import Q = FairQueue
  import F = FlowControl
  import C = CreditLane
  import opened Session
  import opened SessionPipes
  import opened SessionNetwork
  import opened SessionLanes

  /** The server has been asked to open the stream and has not answered. */
  function Opening(v: F.Ledger, s: nat): nat {
    if s in v.streams && v.streams[s].phase.OpeningRemote? then 1 else 0
  }

  /** Opens and answers of stream s that are still under way: at most one in every reachable state. */
  function Tokens(v: F.Ledger, cv: C.Lane, vc: C.Lane, s: nat): nat {
    C.Sets(vc.ups) + C.Sets(cv.ups) + Opening(v, s)
  }

  /** `cv` is the lane from client to server and `vc` the lane back. */
  ghost predicate StreamInv(c: F.Ledger, v: F.Ledger, cv: C.Lane, vc: C.Lane, s: nat) {
    && C.LaneOk(cv) && C.LaneOk(vc)
    && cv.send == SendOf(c, s) && vc.send == SendOf(v, s)
    && cv.recv == RecvOf(v, s) && vc.recv == RecvOf(c, s)
    && Tokens(v, cv, vc, s) <= 1
    && (Tokens(v, cv, vc, s) == 1 ==> cv.data == 0 && (s in c.streams ==> c.streams[s].phase.OpeningLocal?))
    && (C.Sets(vc.ups) > 0 ==> s !in v.streams && cv.ups == [] && C.Start(cv) == 0)
    && (s > c.maxSeen ==> C.Fresh(cv) && C.Fresh(vc))
  }

  // ---------------------------------------------------------------- calls and messages about other streams

  function StreamOfCall(call: Call): nat {
    if call.CallNotice? || call.CallGoAway? then 0 else call.stream
  }

  function StreamOfBody(b: Body): nat {
    if b.Notice? || b.GoAway? then 0 else b.stream
  }

  lemma CallElsewhere(l: F.Ledger, call: Call, l': F.Ledger, s: nat)
    requires LedgerAfter(l, call) == F.Ok(l') && StreamOfCall(call) != s
    ensures s in l'.streams <==> s in l.streams
    ensures s in l.streams ==> l'.streams[s] == l.streams[s]
    ensures l'.maxSeen >= l.maxSeen
    ensures Announced(call, s) == []
  {
  }

  lemma TakeElsewhere(l: F.Ledger, b: Body, l': F.Ledger, s: nat)
    requires LedgerTaking(l, b) == F.Ok(l') && StreamOfBody(b) != s
    ensures s in l'.streams <==> s in l.streams
    ensures s in l.streams ==> l'.streams[s] == l.streams[s]
    ensures UpdateOf(b, s) == [] && DataOf(b, s) == 0
  {
  }

  lemma TakeKeepsMaximum(l: F.Ledger, b: Body, l': F.Ledger)
    requires LedgerTaking(l, b) == F.Ok(l')
    ensures !b.OpenTcp? ==> l'.maxSeen == l.maxSeen
  {
  }

  /** An endpoint that does not touch the stream keeps the stream's part of the invariant. */
  lemma Untouched(c: F.Ledger, v: F.Ledger, c': F.Ledger, v': F.Ledger, cv: C.Lane, vc: C.Lane, s: nat)
    requires StreamInv(c, v, cv, vc, s)
    requires s in c'.streams <==> s in c.streams
    requires s in c.streams ==> c'.streams[s] == c.streams[s]
    requires s in v'.streams <==> s in v.streams
    requires s in v.streams ==> v'.streams[s] == v.streams[s]
    requires c'.maxSeen >= c.maxSeen
    ensures StreamInv(c', v', cv, vc, s)
  {
  }

  // ---------------------------------------------------------------- what either endpoint can do to a stream

  lemma ClientOpens(c: F.Ledger, v: F.Ledger, c': F.Ledger, cv: C.Lane, vc: C.Lane, s: nat, w: nat)
    requires StreamInv(c, v, cv, vc, s) && vc.yLive && F.OpenLocal(c, s, w) == F.Ok(c')
    ensures StreamInv(c', v, cv.(send := Some(0)), vc.(ups := vc.ups + [C.Set(w)], recv := Some(w)), s)
  {
    C.Announce(vc, w);
    C.AppendUpdate(0, vc.ups, C.Set(w));
  }

  lemma ServerAccepts(c: F.Ledger, v: F.Ledger, v': F.Ledger, cv: C.Lane, vc: C.Lane, s: nat, w: nat)
    requires StreamInv(c, v, cv, vc, s) && cv.yLive && F.AcceptRemoteOpen(v, s, w) == F.Ok(v')
    ensures StreamInv(c, v', cv.(ups := cv.ups + [C.Set(w)], recv := Some(w)), vc, s)
  {
    C.Announce(cv, w);
    C.AppendUpdate(0, cv.ups, C.Set(w));
  }

  lemma ClientDebits(c: F.Ledger, v: F.Ledger, c': F.Ledger, cv: C.Lane, vc: C.Lane, s: nat, n: nat)
    requires StreamInv(c, v, cv, vc, s) && cv.xLive && F.DebitSend(c, s, n) == F.Ok(c')
    ensures StreamInv(c', v, cv.(send := SendOf(c', s), data := cv.data + n), vc, s)
  {
    C.Debit(cv, n);
  }

  lemma ServerDebits(c: F.Ledger, v: F.Ledger, v': F.Ledger, cv: C.Lane, vc: C.Lane, s: nat, n: nat)
    requires StreamInv(c, v, cv, vc, s) && vc.xLive && F.DebitSend(v, s, n) == F.Ok(v')
    ensures StreamInv(c, v', cv, vc.(send := SendOf(v', s), data := vc.data + n), s)
  {
    C.Debit(vc, n);
  }

  lemma ClientGrants(c: F.Ledger, v: F.Ledger, c': F.Ledger, cv: C.Lane, vc: C.Lane, s: nat, n: nat)
    requires StreamInv(c, v, cv, vc, s) && vc.yLive && s != 0 && F.GrantReceiveCredit(c, s, n) == F.Ok(c')
    ensures StreamInv(c', v, cv, vc.(ups := vc.ups + [C.Add(n)], recv := RecvOf(c', s)), s)
  {
    C.Grant(vc, n);
    C.AppendUpdate(0, vc.ups, C.Add(n));
  }

  lemma ServerGrants(c: F.Ledger, v: F.Ledger, v': F.Ledger, cv: C.Lane, vc: C.Lane, s: nat, n: nat)
    requires StreamInv(c, v, cv, vc, s) && cv.yLive && s != 0 && F.GrantReceiveCredit(v, s, n) == F.Ok(v')
    ensures StreamInv(c, v', cv.(ups := cv.ups + [C.Add(n)], recv := RecvOf(v', s)), vc, s)
  {
    C.Grant(cv, n);
    C.AppendUpdate(0, cv.ups, C.Add(n));
  }

  lemma ClientForgets(c: F.Ledger, v: F.Ledger, c': F.Ledger, cv: C.Lane, vc: C.Lane, s: nat, data: nat)
    requires StreamInv(c, v, cv, vc, s) && data <= cv.data && F.RejectOrClose(c, s) == F.Ok(c')
    ensures StreamInv(c', v, cv.(send := None, data := data), vc.(recv := None), s)
  {
    C.Forget(cv, data);
  }

  lemma LaneWindows(c: F.Ledger, v: F.Ledger, cv: C.Lane, vc: C.Lane, s: nat)
    requires StreamInv(c, v, cv, vc, s)
    ensures cv.send == SendOf(c, s) && vc.send == SendOf(v, s) && cv.recv == RecvOf(v, s) && vc.recv == RecvOf(c, s)
  {
  }

  lemma ClientEnds(c: F.Ledger, v: F.Ledger, c': F.Ledger, cv: C.Lane, vc: C.Lane, s: nat)
    requires StreamInv(c, v, cv, vc, s) && F.ReceiveHalfClose(c, s) == F.Ok(c')
    ensures StreamInv(c', v, cv, vc, s)
  {
  }

  lemma ServerEnds(c: F.Ledger, v: F.Ledger, v': F.Ledger, cv: C.Lane, vc: C.Lane, s: nat)
    requires StreamInv(c, v, cv, vc, s) && F.ReceiveHalfClose(v, s) == F.Ok(v')
    ensures StreamInv(c, v', cv, vc, s)
  {
  }

  lemma ServerForgets(c: F.Ledger, v: F.Ledger, v': F.Ledger, cv: C.Lane, vc: C.Lane, s: nat, data: nat)
    requires StreamInv(c, v, cv, vc, s) && data <= vc.data && F.RejectOrClose(v, s) == F.Ok(v')
    ensures StreamInv(c, v', cv.(recv := None), vc.(send := None, data := data), s)
  {
    C.Forget(vc, data);
  }

  lemma ClientConfirms(c: F.Ledger, v: F.Ledger, c': F.Ledger, cv: C.Lane, vc: C.Lane, s: nat, w: nat)
    requires StreamInv(c, v, cv, vc, s) && cv.xLive && F.ConfirmLocalOpen(c, s, w) == F.Ok(c')
    requires cv.ups != [] && cv.ups[0] == C.Set(w)
    ensures StreamInv(c', v, cv.(send := Some(w), ups := cv.ups[1..]), vc, s)
  {
    C.Arrive(cv, cv.ups[1..]);
  }

  lemma ServerLearns(c: F.Ledger, v: F.Ledger, v': F.Ledger, cv: C.Lane, vc: C.Lane, s: nat, w: nat)
    requires StreamInv(c, v, cv, vc, s) && vc.xLive && F.ReceiveOpen(v, s, w) == F.Ok(v')
    requires vc.ups != [] && vc.ups[0] == C.Set(w)
    ensures StreamInv(c, v', cv.(recv := Some(0)), vc.(send := Some(w), ups := vc.ups[1..]), s)
  {
    C.Arrive(vc, vc.ups[1..]);
  }

  lemma ClientCredited(c: F.Ledger, v: F.Ledger, c': F.Ledger, cv: C.Lane, vc: C.Lane, s: nat, n: nat)
    requires StreamInv(c, v, cv, vc, s) && cv.xLive && s != 0 && F.ReceiveWindowUpdate(c, s, n) == F.Ok(c')
    requires cv.ups != [] && cv.ups[0] == C.Add(n)
    ensures StreamInv(c', v, cv.(send := SendOf(c', s), ups := cv.ups[1..]), vc, s)
  {
    C.Arrive(cv, cv.ups[1..]);
  }

  lemma ServerCredited(c: F.Ledger, v: F.Ledger, v': F.Ledger, cv: C.Lane, vc: C.Lane, s: nat, n: nat)
    requires StreamInv(c, v, cv, vc, s) && vc.xLive && s != 0 && F.ReceiveWindowUpdate(v, s, n) == F.Ok(v')
    requires vc.ups != [] && vc.ups[0] == C.Add(n)
    ensures StreamInv(c, v', cv, vc.(send := SendOf(v', s), ups := vc.ups[1..]), s)
  {
    C.Arrive(vc, vc.ups[1..]);
  }

  lemma ClientReceives(c: F.Ledger, v: F.Ledger, c': F.Ledger, cv: C.Lane, vc: C.Lane, s: nat, n: nat)
    requires StreamInv(c, v, cv, vc, s) && vc.yLive && F.DebitReceive(c, s, n) == F.Ok(c') && n <= vc.data
    ensures StreamInv(c', v, cv, vc.(recv := RecvOf(c', s), data := vc.data - n), s)
  {
    C.Deliver(vc, n);
  }

  lemma ServerReceives(c: F.Ledger, v: F.Ledger, v': F.Ledger, cv: C.Lane, vc: C.Lane, s: nat, n: nat)
    requires StreamInv(c, v, cv, vc, s) && cv.yLive && F.DebitReceive(v, s, n) == F.Ok(v') && n <= cv.data
    ensures StreamInv(c, v', cv.(recv := RecvOf(v', s), data := cv.data - n), vc, s)
  {
    C.Deliver(cv, n);
  }

  // ---------------------------------------------------------------- client

  lemma ClientCalls(call: Call, c: F.Ledger, c': F.Ledger, v: F.Ledger, cv: C.Lane, vc: C.Lane, cv': C.Lane,
                    vc': C.Lane, s: nat)
    requires F.ValidId(s) && LedgerAfter(c, call) == F.Ok(c') && BodyOk(Client, BodyOf(call))
    requires StreamInv(c, v, cv, vc, s) && LanesCalled(call, c', cv, vc, cv', vc', s)
    ensures StreamInv(c', v, cv', vc', s)
  {
    if StreamOfCall(call) != s {
      CallElsewhere(c, call, c', s);
      assert vc.ups + [] == vc.ups;
      assert cv' == cv && vc' == vc;
      Untouched(c, v, c', v, cv, vc, s);
    } else {
      ClientCallsHere(call, c, c', v, cv, vc, cv', vc', s);
    }
  }

  lemma ClientCallsHere(call: Call, c: F.Ledger, c': F.Ledger, v: F.Ledger, cv: C.Lane, vc: C.Lane, cv': C.Lane,
                        vc': C.Lane, s: nat)
    requires F.ValidId(s) && LedgerAfter(c, call) == F.Ok(c') && BodyOk(Client, BodyOf(call)) && StreamOfCall(call) == s
    requires StreamInv(c, v, cv, vc, s) && LanesCalled(call, c', cv, vc, cv', vc', s)
    ensures StreamInv(c', v, cv', vc', s)
  {
    assert vc.ups + [] == vc.ups;
    match call
    case CallOpen(_, w, _) => ClientOpens(c, v, c', cv, vc, s, w);
    case CallData(_, payload, _) =>
      assert vc' == vc;
      ClientDebits(c, v, c', cv, vc, s, |Chunk(payload)|);
    case CallGrant(_, n, _) =>
      assert cv' == cv;
      ClientGrants(c, v, c', cv, vc, s, n);
    case CallHalfClose(_, _) => assert cv' == cv && vc' == vc;
    case CallClose(_, _) =>
      assert vc' == vc.(recv := None);
      ClientForgets(c, v, c', cv, vc, s, cv'.data);
  }

  lemma ClientTakes(b: Body, c: F.Ledger, c': F.Ledger, v: F.Ledger, cv: C.Lane, vc: C.Lane, cv': C.Lane, vc': C.Lane,
                    s: nat)
    requires F.ValidId(s) && LedgerTaking(c, b) == F.Ok(c') && !b.OpenTcp?
    requires StreamInv(c, v, cv, vc, s) && LanesTook(b, c', cv, vc, cv', vc', s)
    ensures StreamInv(c', v, cv', vc', s)
  {
    TakeKeepsMaximum(c, b, c');
    NextUpdate(b, s, cv.ups, cv'.ups);
    if StreamOfBody(b) != s {
      TakeElsewhere(c, b, c', s);
      assert cv' == cv && vc' == vc;
      Untouched(c, v, c', v, cv, vc, s);
    } else {
      ClientTakesHere(b, c, c', v, cv, vc, cv', vc', s);
    }
  }

  lemma ClientTakesHere(b: Body, c: F.Ledger, c': F.Ledger, v: F.Ledger, cv: C.Lane, vc: C.Lane, cv': C.Lane,
                        vc': C.Lane, s: nat)
    requires F.ValidId(s) && LedgerTaking(c, b) == F.Ok(c') && !b.OpenTcp? && StreamOfBody(b) == s
    requires StreamInv(c, v, cv, vc, s) && LanesTook(b, c', cv, vc, cv', vc', s)
    ensures StreamInv(c', v, cv', vc', s)
  {
    hide StreamInv, C.LaneOk;
    LaneWindows(c, v, cv, vc, s);
    NextUpdate(b, s, cv.ups, cv'.ups);
    match b
    case Opened(_, w) =>
      assert vc' == vc;
      ClientConfirms(c, v, c', cv, vc, s, w);
    case WindowUpdate(_, n) =>
      assert vc' == vc;
      ClientCredited(c, v, c', cv, vc, s, n);
    case Rejected(_) => ClientForgets(c, v, c', cv, vc, s, cv.data);
    case Data(_, payload) =>
      assert cv' == cv;
      ClientReceives(c, v, c', cv, vc, s, |payload|);
    case HalfClose(_) =>
      assert cv' == cv && vc' == vc;
      ClientEnds(c, v, c', cv, vc, s);
    case CloseStream(_) => ClientForgets(c, v, c', cv, vc, s, cv'.data);
  }

  lemma NextUpdate(b: Body, s: nat, ups: seq<C.Update>, ups': seq<C.Update>)
    requires ups == UpdateOf(b, s) + ups'
    ensures UpdateOf(b, s) == [] ==> ups' == ups
    ensures UpdateOf(b, s) != [] ==> ups != [] && [ups[0]] == UpdateOf(b, s) && ups[1..] == ups'
  {
  }

  // ---------------------------------------------------------------- server

  lemma ServerCalls(call: Call, c: F.Ledger, v: F.Ledger, v': F.Ledger, cv: C.Lane, vc: C.Lane, cv': C.Lane,
                    vc': C.Lane, s: nat)
    requires F.ValidId(s) && LedgerAfter(v, call) == F.Ok(v') && BodyOk(Server, BodyOf(call))
    requires StreamInv(c, v, cv, vc, s) && LanesCalled(call, v', vc, cv, vc', cv', s)
    ensures StreamInv(c, v', cv', vc', s)
  {
    if StreamOfCall(call) != s {
      CallElsewhere(v, call, v', s);
      assert cv.ups + [] == cv.ups;
      assert cv' == cv && vc' == vc;
      Untouched(c, v, c, v', cv, vc, s);
    } else {
      ServerCallsHere(call, c, v, v', cv, vc, cv', vc', s);
    }
  }

  lemma ServerCallsHere(call: Call, c: F.Ledger, v: F.Ledger, v': F.Ledger, cv: C.Lane, vc: C.Lane, cv': C.Lane,
                        vc': C.Lane, s: nat)
    requires F.ValidId(s) && LedgerAfter(v, call) == F.Ok(v') && BodyOk(Server, BodyOf(call)) && StreamOfCall(call) == s
    requires StreamInv(c, v, cv, vc, s) && LanesCalled(call, v', vc, cv, vc', cv', s)
    ensures StreamInv(c, v', cv', vc', s)
  {
    assert cv.ups + [] == cv.ups;
    match call
    case CallAccept(_, w, _) =>
      assert vc' == vc;
      ServerAccepts(c, v, v', cv, vc, s, w);
    case CallReject(_, _) => ServerForgets(c, v, v', cv, vc, s, vc.data);
    case CallData(_, payload, _) =>
      assert cv' == cv;
      ServerDebits(c, v, v', cv, vc, s, |Chunk(payload)|);
    case CallGrant(_, n, _) =>
      assert vc' == vc;
      ServerGrants(c, v, v', cv, vc, s, n);
    case CallHalfClose(_, _) => assert cv' == cv && vc' == vc;
    case CallClose(_, _) => ServerForgets(c, v, v', cv, vc, s, vc'.data);
  }

  lemma ServerTakes(b: Body, c: F.Ledger, v: F.Ledger, v': F.Ledger, cv: C.Lane, vc: C.Lane, cv': C.Lane, vc': C.Lane,
                    s: nat)
    requires F.ValidId(s) && LedgerTaking(v, b) == F.Ok(v') && !b.Opened? && !b.Rejected?
    requires StreamInv(c, v, cv, vc, s) && LanesTook(b, v', vc, cv, vc', cv', s)
    ensures StreamInv(c, v', cv', vc', s)
  {
    NextUpdate(b, s, vc.ups, vc'.ups);
    if StreamOfBody(b) != s {
      TakeElsewhere(v, b, v', s);
      assert cv' == cv && vc' == vc;
      Untouched(c, v, c, v', cv, vc, s);
    } else {
      ServerTakesHere(b, c, v, v', cv, vc, cv', vc', s);
    }
  }

  lemma ServerTakesHere(b: Body, c: F.Ledger, v: F.Ledger, v': F.Ledger, cv: C.Lane, vc: C.Lane, cv': C.Lane,
                        vc': C.Lane, s: nat)
    requires F.ValidId(s) && LedgerTaking(v, b) == F.Ok(v') && !b.Opened? && !b.Rejected? && StreamOfBody(b) == s
    requires StreamInv(c, v, cv, vc, s) && LanesTook(b, v', vc, cv, vc', cv', s)
    ensures StreamInv(c, v', cv', vc', s)
  {
    hide StreamInv, C.LaneOk;
    LaneWindows(c, v, cv, vc, s);
    NextUpdate(b, s, vc.ups, vc'.ups);
    match b
    case OpenTcp(_, w) => ServerLearns(c, v, v', cv, vc, s, w);
    case WindowUpdate(_, n) =>
      assert cv' == cv;
      ServerCredited(c, v, v', cv, vc, s, n);
    case Data(_, payload) =>
      assert vc' == vc;
      ServerReceives(c, v, v', cv, vc, s, |payload|);
    case HalfClose(_) =>
      assert cv' == cv && vc' == vc;
      ServerEnds(c, v, v', cv, vc, s);
    case CloseStream(_) => ServerForgets(c, v, v', cv, vc, s, vc'.data);
  }

  // ---------------------------------------------------------------- writing and closing

  lemma ClientShuts(e: Side, e': Side, p: State, s: nat)
    requires ShutDown(e, e')
    requires StreamInv(e.st.flow, p.flow, OutLane(e, p, s), InLane(e, p, s), s)
    ensures StreamInv(e'.st.flow, p.flow, OutLane(e', p, s), InLane(e', p, s), s)
  {
    ShutLanes(e, e', p, s);
  }

  lemma ServerShuts(e: Side, e': Side, p: State, s: nat)
    requires ShutDown(e, e')
    requires StreamInv(p.flow, e.st.flow, InLane(e, p, s), OutLane(e, p, s), s)
    ensures StreamInv(p.flow, e'.st.flow, InLane(e', p, s), OutLane(e', p, s), s)
  {
    ShutLanes(e, e', p, s);
  }

  lemma ClientMoves(e: Side, mv: Move, p: State, s: nat)
    requires QueueOk(e.st.role, e.st.queue) && e.st.role.Client? && F.ValidId(s)
    requires StreamInv(e.st.flow, p.flow, OutLane(e, p, s), InLane(e, p, s), s)
    ensures var e' := Moved(e, mv); StreamInv(e'.st.flow, p.flow, OutLane(e', p, s), InLane(e', p, s), s)
    decreases mv == FlushOut(Unflushed)
  {
    hide Moved, StreamInv;
    if mv == FlushOut(Unflushed) {
      UnflushedMoves(e);
      WrittenShape(e);
      ClientMoves(e, FlushOut(Written), p, s);
      ClientMoves(Moved(e, FlushOut(Written)), Breaks, p, s);
      return;
    }
    var e' := Moved(e, mv);
    MoveCases(e, mv);
    if mv.Local? && Did(e, mv.call, e') {
      LocalLanes(e, mv.call, e', p, s);
      ClientCalls(mv.call, e.st.flow, e'.st.flow, p.flow, OutLane(e, p, s), InLane(e, p, s), OutLane(e', p, s),
                  InLane(e', p, s), s);
    } else if Wrote(e, e') {
      FlushLanes(e, e', p, s);
    } else if Took(e, e') {
      TakeLanes(e, e', p, s);
      ClientTakes(e.inbox[0].body, e.st.flow, e'.st.flow, p.flow, OutLane(e, p, s), InLane(e, p, s), OutLane(e', p, s),
                  InLane(e', p, s), s);
    } else if ShutDown(e, e') {
      ClientShuts(e, e', p, s);
    }
  }

  lemma ServerMoves(e: Side, mv: Move, p: State, s: nat)
    requires QueueOk(e.st.role, e.st.queue) && e.st.role.Server? && F.ValidId(s)
    requires StreamInv(p.flow, e.st.flow, InLane(e, p, s), OutLane(e, p, s), s)
    ensures var e' := Moved(e, mv); StreamInv(p.flow, e'.st.flow, InLane(e', p, s), OutLane(e', p, s), s)
    decreases mv == FlushOut(Unflushed)
  {
    hide Moved, StreamInv;
    if mv == FlushOut(Unflushed) {
      UnflushedMoves(e);
      WrittenShape(e);
      ServerMoves(e, FlushOut(Written), p, s);
      ServerMoves(Moved(e, FlushOut(Written)), Breaks, p, s);
      return;
    }
    var e' := Moved(e, mv);
    MoveCases(e, mv);
    if mv.Local? && Did(e, mv.call, e') {
      LocalLanes(e, mv.call, e', p, s);
      ServerCalls(mv.call, p.flow, e.st.flow, e'.st.flow, InLane(e, p, s), OutLane(e, p, s), InLane(e', p, s),
                  OutLane(e', p, s), s);
    } else if Wrote(e, e') {
      FlushLanes(e, e', p, s);
    } else if Took(e, e') {
      TakeLanes(e, e', p, s);
      ServerTakes(e.inbox[0].body, p.flow, e.st.flow, e'.st.flow, InLane(e, p, s), OutLane(e, p, s), InLane(e', p, s),
                  OutLane(e', p, s), s);
    } else if ShutDown(e, e') {
      ServerShuts(e, e', p, s);
    }
  }
}
