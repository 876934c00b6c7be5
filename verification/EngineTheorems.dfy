/** What holds in every run of the packet engine. */
module EngineTheorems {
  import opened Bytes
  import opened Options
  import opened Packet
  import opened TcpFlow
  import opened TcpFlowTheorems
  import opened DnsStream
  import opened Engine
  import opened EngineInvariant
  import opened EngineWorld
  import opened EngineRuns

  ghost predicate Run(c: Config, worlds: seq<World>, events: seq<Event>) {
    && |worlds| == |events| + 1 && worlds[0] == World(Fresh(c), map[], [])
    && forall i :: 0 <= i < |events| ==> Possible(worlds[i].engine, events[i]) && worlds[i + 1] == Next(worlds[i], events[i])
  }

  /** The tables, the sequence numbers and the history agree in every reachable state. */
  lemma {:induction false} RunInv(c: Config, worlds: seq<World>, events: seq<Event>, k: nat)
    requires ValidConfig(c) && Run(c, worlds, events) && k < |worlds|
    ensures WorldInv(worlds[k])
  {
    hide WorldInv, Next;
    if k == 0 {
      FreshWorld(c);
    } else {
      RunInv(c, worlds, events, k - 1);
      NextGood(worlds[k - 1], events[k - 1]);
    }
  }

  // ---------------------------------------------------------------- traces only grow

  predicate Extends(later: Trace, earlier: Trace) {
    && later.dns == earlier.dns && later.isn == earlier.isn && later.iss == earlier.iss
    && earlier.taken <= later.taken && earlier.fins <= later.fins
    && earlier.given <= later.given && earlier.ends <= later.ends
  }

  lemma NextExtends(w: World, ev: Event, id: nat)
    requires WorldInv(w) && Possible(w.engine, ev) && id in w.traces
    ensures id in Next(w, ev).traces && Extends(Next(w, ev).traces[id], w.traces[id])
  {
    hide EngineInv, Historic, AllLive, AllHandedOn, Step, Classify, TakesPayload, TakesFin, Accepts, InitialSequence;
    assert id < w.engine.nextFlowId;
  }

  lemma {:induction false} RunExtends(c: Config, worlds: seq<World>, events: seq<Event>, i: nat, k: nat, id: nat)
    requires ValidConfig(c) && Run(c, worlds, events) && i <= k < |worlds| && id in worlds[i].traces
    ensures id in worlds[k].traces && Extends(worlds[k].traces[id], worlds[i].traces[id])
    decreases k - i
  {
    hide WorldInv, Next;
    if i < k {
      RunExtends(c, worlds, events, i, k - 1, id);
      RunInv(c, worlds, events, k - 1);
      NextExtends(worlds[k - 1], events[k - 1], id);
    }
  }

  // ---------------------------------------------------------------- upstream: one client byte stream

  /** Every segment that reaches the flow is cut from one stream. */
  ghost predicate Conforms(w: World, ev: Event, id: nat, stream: seq<byte>) {
    ev.Arrives? && id in w.traces ==>
      match Classify(ev.input.packet)
      case Ok(Tcp(s)) =>
        Delivered(w.engine, s, ev.input) && w.engine.flows[KeyOf(s)].id == id ==> CutFrom(stream, w.traces[id].isn, s)
      case _ => true
  }

  ghost predicate ConformingRun(worlds: seq<World>, events: seq<Event>, id: nat, stream: seq<byte>) {
    && |stream| < WRAP && |worlds| == |events| + 1
    && forall i :: 0 <= i < |events| ==> Conforms(worlds[i], events[i], id, stream)
  }

  lemma NextOnStream(w: World, ev: Event, id: nat, stream: seq<byte>)
    requires WorldInv(w) && Possible(w.engine, ev) && Conforms(w, ev, id, stream) && |stream| < WRAP
    requires id in w.traces ==> OnStream(w.traces[id], stream)
    ensures id in Next(w, ev).traces ==> OnStream(Next(w, ev).traces[id], stream)
  {
    hide EngineInv, AllLive, AllHandedOn, Historic, Step, Classify, Took, Accepts, InitialSequence, CutFrom, Sane,
      Follows, Admits;
    match ev {
      case Arrives(input) =>
        match Classify(input.packet) {
          case Ok(Tcp(s)) =>
            if !Admits(w.engine, s, input) && Delivered(w.engine, s, input) && KeyOf(s) in w.engine.flows
               && w.engine.flows[KeyOf(s)].id == id && id in w.traces {
              TickedListed(w, KeyOf(s));
              LiveFollows(w, id);
              ExistingOnStream(w.engine.config, w.engine.flows[KeyOf(s)], s, Room(w.engine), w.traces[id], stream);
            }
          case _ =>
        }
      case _ =>
    }
  }

  lemma {:induction false} RunOnStream(c: Config, worlds: seq<World>, events: seq<Event>, k: nat, id: nat,
                                       stream: seq<byte>)
    requires ValidConfig(c) && Run(c, worlds, events) && ConformingRun(worlds, events, id, stream) && k < |worlds|
    ensures id in worlds[k].traces ==> OnStream(worlds[k].traces[id], stream)
  {
    hide WorldInv, Next, Conforms, OnStream;
    if k > 0 {
      RunOnStream(c, worlds, events, k - 1, id, stream);
      RunInv(c, worlds, events, k - 1);
      NextOnStream(worlds[k - 1], events[k - 1], id, stream);
    }
  }

  /** Under any reordering, repetition or cutting of one client stream, the bytes handed to the protected
      stream are a prefix of it, in order and each once, also after the flow is gone. */
  lemma ForwardedPrefix(c: Config, worlds: seq<World>, events: seq<Event>, k: nat, id: nat, stream: seq<byte>)
    requires ValidConfig(c) && Run(c, worlds, events) && ConformingRun(worlds, events, id, stream) && k < |worlds|
    requires id in worlds[k].traces
    ensures ForwardsIn(id, worlds[k].history) <= stream
  {
    hide EngineInv, AllLive, Historic, Run, ConformingRun;
    RunInv(c, worlds, events, k);
    RunOnStream(c, worlds, events, k, id, stream);
    assert HandedOn(worlds[k].traces[id], id, worlds[k].history);
  }

  /** While the flow lives, the next sequence number expected from the client is the initial one plus
      one, plus the bytes forwarded, plus one once its FIN was consumed, modulo 2^32. */
  lemma ClientNextExact(c: Config, worlds: seq<World>, events: seq<Event>, k: nat, id: nat, stream: seq<byte>)
    requires ValidConfig(c) && Run(c, worlds, events) && ConformingRun(worlds, events, id, stream) && k < |worlds|
    requires Knows(worlds[k].engine, id) && !FlowOf(worlds[k].engine, id).dns
    ensures id in worlds[k].traces
    ensures var f := FlowOf(worlds[k].engine, id); var forwarded := ForwardsIn(id, worlds[k].history);
            && f.clientNext == (worlds[k].traces[id].isn + 1 + |forwarded| + if Shut(f) then 1 else 0) % WRAP
            && (Shut(f) ==> forwarded == stream)
  {
    hide EngineInv, AllLive, Historic, Run, ConformingRun, Sane, AskedAll;
    RunInv(c, worlds, events, k);
    LiveFollows(worlds[k], id);
    RunOnStream(c, worlds, events, k, id, stream);
    assert HandedOn(worlds[k].traces[id], id, worlds[k].history);
  }

  // ---------------------------------------------------------------- downstream: stop and wait

  /** Every data or FIN packet ever sent without RST names the place of its bytes in the one stream
      given to the application, whenever it was sent; a later packet never contradicts an earlier one. */
  lemma SentBytesAgree(c: Config, worlds: seq<World>, events: seq<Event>, i: nat, k: nat, a: Action)
    requires ValidConfig(c) && Run(c, worlds, events) && i < |events| && i < k < |worlds|
    requires a in Step(worlds[i].engine, events[i]).actions && a.SendTcp? && !a.segment.flags.rst
    ensures a.origin.Some? && a.origin.value in worlds[k].traces
    ensures var t := worlds[k].traces[a.origin.value]; var s := a.segment;
            && Covered(t, s.acknowledgement)
            && (s.payload != [] || s.flags.fin ==>
                  exists at: nat, ends: nat :: PlacedAt(t, s, at, ends))
  {
    hide WorldInv, Next, Step, Covered, At;
    RunInv(c, worlds, events, i);
    NextGood(worlds[i], events[i]);
    assert Truthful(worlds[i + 1].traces, a);
    var id, s := a.origin.value, a.segment;
    RunExtends(c, worlds, events, i + 1, k, id);
    var t, later := worlds[i + 1].traces[id], worlds[k].traces[id];
    CoveredGrows(t, later, s.acknowledgement);
    if s.payload != [] || s.flags.fin {
      assert PlacedAt(later, s, |t.given| - |s.payload|, t.ends - FinLength(s.flags));
    }
  }

  predicate PlacedAt(t: Trace, s: Segment, at: nat, ends: nat) {
    && at + |s.payload| <= |t.given| && t.given[at..at + |s.payload|] == s.payload
    && ends + FinLength(s.flags) <= t.ends && s.sequence == At(t.iss, at + ends)
  }

  /** In every reachable state a flow has at most one outstanding segment; it ends exactly at the next
      sequence number and the application queue holds its payload and nothing else. */
  lemma StopAndWait(c: Config, worlds: seq<World>, events: seq<Event>, k: nat, id: nat)
    requires ValidConfig(c) && Run(c, worlds, events) && k < |worlds| && Knows(worlds[k].engine, id)
    ensures worlds[k].engine.config == c
    ensures var f := FlowOf(worlds[k].engine, id);
            match f.outstanding
            case None => f.queuedToApplication == 0
            case Some(o) =>
              && (o.sequence + |o.payload| + if o.flags.fin then 1 else 0) % WRAP == f.serverNext
              && f.queuedToApplication == |o.payload| <= c.toApplicationBytes
              && o.retransmissions <= c.maxRetransmissions
  {
    hide WorldInv, Follows, AskedAll, QueuesOk;
    RunInv(c, worlds, events, k);
    ConfigStays(c, worlds, events, k);
    LiveFollows(worlds[k], id);
  }

  lemma {:induction false} ConfigStays(c: Config, worlds: seq<World>, events: seq<Event>, k: nat)
    requires ValidConfig(c) && Run(c, worlds, events) && k < |worlds|
    ensures worlds[k].engine.config == c
  {
    hide Next;
    if k > 0 {
      ConfigStays(c, worlds, events, k - 1);
      StepConfig(worlds[k - 1], events[k - 1]);
    }
  }

  lemma StepConfig(w: World, ev: Event)
    requires Possible(w.engine, ev)
    ensures Next(w, ev).engine.config == w.engine.config
  {
    hide TracesAfter, Process, ExistingTcp, Install, FailFlow, FailMany, Retransmissions, Expired, Framed, Accepts,
      Receptive, StreamPayload, StreamClosed;
    match ev {
      case Arrives(input) => ProcessConfig(w.engine, input);
      case StreamFails(id, reason) => FailFlowConfig(w.engine, id, reason);
      case StreamSays(id, _, _) => FailFlowConfig(w.engine, id, Backpressure);
      case StreamEnds(id, _) => FailFlowConfig(w.engine, id, DownstreamFailure);
      case DnsAnswers(query, _, _) =>
        if query in w.engine.pending && w.engine.pending[query].TcpTarget? {
          var e := w.engine.(pending := w.engine.pending - {query});
          FailFlowConfig(e, w.engine.pending[query].flow, Backpressure);
          FailFlowConfig(e, w.engine.pending[query].flow, DownstreamFailure);
        }
      case Clock(now, order) => FailManyConfig(AllTicked(w.engine, now), Expired(w.engine.config, w.engine.flows, order, now));
      case Wakes(_, _, order) => FailManyConfig(w.engine.(suspendedAt := None), Doom(order, ProtectedPathUnavailable));
      case PathLost(reason, order) => FailManyConfig(w.engine.(pending := map[]), Doom(order, reason));
      case Stops(order) => FailManyConfig(w.engine.(accepting := false, pending := map[]), Doom(order, Shutdown));
      case _ =>
    }
    forall key: Key, o: Outcome, e: Engine | e.config == w.engine.config ensures Install(e, key, o).config == w.engine.config {
      InstallConfig(e, key, o);
    }
  }

  lemma ProcessConfig(e: Engine, input: Input)
    ensures Process(e, input).engine.config == e.config
  {
    hide Classify, Existing, Install, FailFlow, InitialSequence;
    forall id: nat, reason: Reason { FailFlowConfig(e, id, reason); }
    forall key: Key, o: Outcome { InstallConfig(e, key, o); }
  }

  lemma FailFlowConfig(e: Engine, id: nat, reason: Reason)
    ensures FailFlow(e, id, reason).engine.config == e.config
  {
  }

  lemma InstallConfig(e: Engine, key: Key, o: Outcome)
    ensures Install(e, key, o).config == e.config
  {
  }

  lemma {:induction false} FailManyConfig(e: Engine, doomed: seq<(nat, Reason)>)
    ensures FailMany(e, doomed).engine.config == e.config
    decreases |doomed|
  {
    if doomed != [] {
      FailManyConfig(FailFlow(e, doomed[0].0, doomed[0].1).engine, doomed[1..]);
    }
  }

  // ---------------------------------------------------------------- DNS over TCP

  /** While a DNS flow lives, the queries asked so far are exactly the complete messages of the client
      stream up to the point the flow has acknowledged, and the buffer is the incomplete rest. */
  lemma DnsQueriesExact(c: Config, worlds: seq<World>, events: seq<Event>, k: nat, id: nat, stream: seq<byte>)
    requires ValidConfig(c) && Run(c, worlds, events) && ConformingRun(worlds, events, id, stream) && k < |worlds|
    requires Knows(worlds[k].engine, id) && FlowOf(worlds[k].engine, id).dns
    ensures id in worlds[k].traces
    ensures var f := FlowOf(worlds[k].engine, id); var t := worlds[k].traces[id]; var n := |t.taken|;
            && n <= |stream| && f.clientNext == (t.isn + 1 + n + if Shut(f) then 1 else 0) % WRAP
            && Split(stream[..n]) == Messages(QueriesIn(id, worlds[k].history), f.buffer)
  {
    hide EngineInv, AllLive, Historic, Run, ConformingRun, Sane, Split;
    RunInv(c, worlds, events, k);
    LiveFollows(worlds[k], id);
    RunOnStream(c, worlds, events, k, id, stream);
    assert stream[..|worlds[k].traces[id].taken|] == worlds[k].traces[id].taken;
  }

  /** So how the stream was cut into segments makes no difference: two runs that have come equally far
      have asked the same queries and hold the same rest. */
  lemma SegmentationIrrelevant(c: Config, worlds: seq<World>, events: seq<Event>, k: nat, id: nat,
                               worlds': seq<World>, events': seq<Event>, k': nat, id': nat, stream: seq<byte>)
    requires ValidConfig(c)
    requires Run(c, worlds, events) && ConformingRun(worlds, events, id, stream) && k < |worlds|
    requires Run(c, worlds', events') && ConformingRun(worlds', events', id', stream) && k' < |worlds'|
    requires Knows(worlds[k].engine, id) && FlowOf(worlds[k].engine, id).dns
    requires Knows(worlds'[k'].engine, id') && FlowOf(worlds'[k'].engine, id').dns
    requires id in worlds[k].traces && id' in worlds'[k'].traces
    requires |worlds[k].traces[id].taken| == |worlds'[k'].traces[id'].taken|
    ensures QueriesIn(id, worlds[k].history) == QueriesIn(id', worlds'[k'].history)
    ensures FlowOf(worlds[k].engine, id).buffer == FlowOf(worlds'[k'].engine, id').buffer
  {
    hide Run, ConformingRun, Split, QueriesIn;
    DnsQueriesExact(c, worlds, events, k, id, stream);
    DnsQueriesExact(c, worlds', events', k', id', stream);
  }
}
