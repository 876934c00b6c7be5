/**
 DNS over TCP in the client core. Queries are answered inside the call whose segment completed them, before
 the application can acknowledge anything, and a flow sends one segment at a time: a segment that completes
 two messages always ends its flow.
 */
module ClientCoreDns {
  import opened Bytes
  import opened Options
  import opened Packet
  import opened TcpFlow
  import opened TcpFlowTheorems
  import opened DnsStream
  import opened Engine
  import opened EngineCloses
  import opened EngineInvariant
  import opened EngineWorld
  import opened EngineRuns
  import opened EngineTheorems
  import opened EnginePackets
  import opened Dispatcher
  import opened ClientCore
  import opened ClientCoreInvariant
  import opened ClientCoreTheorems

  // ---------------------------------------------------------------- one answer

  /** The answer can be sent to the application at once. */
  predicate GoodAnswer(c: Config, f: Flow, answer: seq<byte>) {
    answer != [] && |answer| <= MAX_DNS_MESSAGE_BYTES && Accepts(c, f, Framed(answer))
  }

  lemma FailedAnswer(e: Engine, query: nat, id: nat, reason: Reason)
    requires EngineInv(e) && query in e.pending && Knows(e, id)
    ensures var r := FailFlow(e.(pending := e.pending - {query}), id, reason).engine; !Knows(r, id) && r.config == e.config
  {
    hide EngineInv, Mild;
    PendingLess(e, query);
    FailMild(e.(pending := e.pending - {query}), id, reason);
  }

  lemma SentAnswer(e: Engine, id: nat, payload: seq<byte>, now: nat)
    requires EngineInv(e) && Knows(e, id) && Accepts(e.config, FlowOf(e, id), payload)
    ensures var r := Applied(e, e.ids[id], StreamPayload(e.config, FlowOf(e, id), payload, now)).engine;
            Knows(r, id) && FlowOf(r, id).outstanding.Some? && r.pending == e.pending && r.config == e.config
  {
    hide EngineInv;
    assert Asked(e.pending, e.nextDnsId, 0, id) == e.pending;
    KnownFlow(e, id);
  }

  /** A flow survives an answer to one of its queries if and only if the answer can be sent at once; then
      its segment is outstanding. */
  lemma AnswerOutcome(e: Engine, query: nat, id: nat, wire: seq<byte>, now: nat)
    requires EngineInv(e) && query in e.pending && e.pending[query] == TcpTarget(id) && Knows(e, id)
    ensures var r := CompleteDns(e, query, wire, now).engine;
            && r.config == e.config
            && (Knows(r, id) <==> GoodAnswer(e.config, FlowOf(e, id), wire))
            && (Knows(r, id) ==> FlowOf(r, id).outstanding.Some? && r.pending == e.pending - {query})
  {
    hide EngineInv, FailFlow, Applied, Framed, Accepts;
    FailedAnswer(e, query, id, DownstreamFailure);
    FailedAnswer(e, query, id, Backpressure);
    PendingLess(e, query);
    var e' := e.(pending := e.pending - {query});
    if Accepts(e'.config, FlowOf(e', id), Framed(wire)) {
      SentAnswer(e', id, Framed(wire), now);
    }
  }

  // ---------------------------------------------------------------- the queue after a segment of a DNS flow

  function Asks(queue: seq<Action>): nat {
    if queue == [] then 0 else (if queue[0].ResolveDns? then 1 else 0) + Asks(queue[1..])
  }

  lemma {:induction false} AsksConcat(a: seq<Action>, b: seq<Action>)
    ensures Asks(a + b) == Asks(a) + Asks(b)
  {
    if a == [] {
      assert a + b == b;
    } else {
      AsksConcat(a[1..], b);
      assert (a + b)[1..] == a[1..] + b && (a + b)[0] == a[0];
    }
  }

  lemma {:induction false} NoAsks(queue: seq<Action>)
    requires forall a :: a in queue ==> !a.ResolveDns?
    ensures Asks(queue) == 0
  {
    if queue != [] {
      assert queue[0] in queue;
      NoAsks(queue[1..]);
    }
  }

  lemma {:induction false} AllAsks(queue: seq<Action>)
    requires forall a :: a in queue ==> a.ResolveDns?
    ensures Asks(queue) == |queue|
  {
    if queue != [] {
      assert queue[0] in queue;
      AllAsks(queue[1..]);
    }
  }

  /** The queue holds nothing that can fail and asks only queries of the flow, each once, which the engine
      waits for while the flow lives. */
  ghost predicate Answering(e: Engine, queue: seq<Action>, id: nat) {
    && (forall i :: 0 <= i < |queue| ==> !Risky(queue[i]) && (queue[i].ResolveDns? ==> queue[i].target == TcpTarget(id)))
    && (forall i, j :: 0 <= i < j < |queue| && queue[i].ResolveDns? && queue[j].ResolveDns? ==>
          queue[i].query != queue[j].query)
    && (Knows(e, id) ==>
          forall i :: 0 <= i < |queue| && queue[i].ResolveDns? ==>
            queue[i].query in e.pending && e.pending[queue[i].query] == TcpTarget(id))
  }

  lemma AnsweringTail(e: Engine, queue: seq<Action>, more: seq<Action>, id: nat)
    requires Answering(e, queue, id) && queue != [] && AllLight(more)
    ensures Answering(e, queue[1..] + more, id) && Asks(queue[1..] + more) == Asks(queue[1..])
  {
    var tail := queue[1..] + more;
    forall i | 0 <= i < |tail| && (i >= |queue| - 1) ensures Light(tail[i]) {
      assert tail[i] in more;
    }
    AsksConcat(queue[1..], more);
    NoAsks(more);
    hide Asks, Light, Risky;
    assert forall i :: 0 <= i < |queue| - 1 ==> tail[i] == queue[i + 1];
    LightMeans();
  }

  lemma LightMeans()
    ensures forall a: Action :: Light(a) <==> !Risky(a) && !a.ResolveDns?
  {
  }

  lemma AnsweringElsewhere(e: Engine, e': Engine, queue: seq<Action>, id: nat, query: nat)
    requires Answering(e, queue, id) && e'.pending == e.pending - {query} && Knows(e, id)
    requires forall i :: 0 <= i < |queue| && queue[i].ResolveDns? ==> queue[i].query != query
    ensures Answering(e', queue, id)
  {
  }

  lemma AnsweringGone(e: Engine, e': Engine, queue: seq<Action>, id: nat)
    requires Answering(e, queue, id) && !Knows(e', id)
    ensures Answering(e', queue, id)
  {
  }

  // ---------------------------------------------------------------- performing one action of it

  lemma PassStep(core: Core, fate: Fate, id: nat)
    requires core.queue != [] && Answering(core.world.engine, core.queue, id) && !core.queue[0].ResolveDns?
    ensures var core' := Perform(core, fate);
            && core'.world == core.world && core'.queue == core.queue[1..]
            && Answering(core'.world.engine, core'.queue, id) && Asks(core'.queue) == Asks(core.queue)
  {
    AnsweringTail(core.world.engine, core.queue, [], id);
    assert core.queue[1..] + [] == core.queue[1..];
  }

  lemma ResolveStep(core: Core, fate: Fate, id: nat)
    requires WorldInv(core.world)
    requires core.queue != [] && Answering(core.world.engine, core.queue, id) && core.queue[0].ResolveDns?
    ensures var e, e' := core.world.engine, Perform(core, fate).world.engine;
            && Answering(e', Perform(core, fate).queue, id) && Asks(Perform(core, fate).queue) == Asks(core.queue) - 1
            && (!Knows(e, id) ==> !Knows(e', id))
            && (Knows(e, id) ==> (Knows(e', id) <==> GoodAnswer(e.config, FlowOf(e, id), fate.answer)))
            && (Knows(e', id) ==> !Receptive(FlowOf(e', id)))
  {
    hide WorldInv, EngineInv, CompleteDns, Answering, Asks, TracesAfter, GoodAnswer, Mild;
    var w, query := core.world, core.queue[0].query;
    var r := CompleteDns(w.engine, query, fate.answer, fate.now);
    WorldEngine(w);
    AnswersMild(w.engine, query, fate.answer, fate.now);
    AnsweringTail(w.engine, core.queue, r.actions, id);
    FirstAsked(core.queue);
    if Knows(w.engine, id) {
      HeadAsked(w.engine, core.queue, id);
      AnswerOutcome(w.engine, query, id, fate.answer, fate.now);
      if Knows(r.engine, id) {
        TailApart(w.engine, core.queue, r.actions, id);
        AnsweringElsewhere(w.engine, r.engine, core.queue[1..] + r.actions, id, query);
      } else {
        AnsweringGone(w.engine, r.engine, core.queue[1..] + r.actions, id);
      }
    } else {
      MildKnows(w.engine, r, id);
      AnsweringGone(w.engine, r.engine, core.queue[1..] + r.actions, id);
    }
  }

  lemma FirstAsked(queue: seq<Action>)
    requires queue != [] && queue[0].ResolveDns?
    ensures Asks(queue) == 1 + Asks(queue[1..])
  {
  }

  lemma HeadAsked(e: Engine, queue: seq<Action>, id: nat)
    requires Answering(e, queue, id) && queue != [] && queue[0].ResolveDns? && Knows(e, id)
    ensures queue[0].query in e.pending && e.pending[queue[0].query] == TcpTarget(id)
  {
  }

  lemma TailApart(e: Engine, queue: seq<Action>, more: seq<Action>, id: nat)
    requires Answering(e, queue, id) && queue != [] && queue[0].ResolveDns? && AllLight(more)
    ensures var tail := queue[1..] + more;
            forall i :: 0 <= i < |tail| && tail[i].ResolveDns? ==> tail[i].query != queue[0].query
  {
    var tail := queue[1..] + more;
    forall i | |queue| - 1 <= i < |tail| ensures !tail[i].ResolveDns? {
      assert tail[i] in more;
    }
    assert forall i :: 0 <= i < |queue| - 1 ==> tail[i] == queue[i + 1];
  }

  lemma MildKnows(e: Engine, r: Done, id: nat)
    requires Mild(e, r) && !Knows(e, id)
    ensures !Knows(r.engine, id)
  {
  }

  // ---------------------------------------------------------------- performing all of it

  ghost predicate AnsweredAt(cores: seq<Core>, steps: seq<CoreStep>, i: nat) {
    i < |steps| && i < |cores| && steps[i].Performs? && cores[i].queue != [] && cores[i].queue[0].ResolveDns?
  }

  /** One of the answers given from j on, before m, is good. */
  ghost predicate AnsweredWell(cores: seq<Core>, steps: seq<CoreStep>, j: nat, m: nat, c: Config, f: Flow) {
    exists i: nat :: j <= i < m && AnsweredAt(cores, steps, i) && GoodAnswer(c, f, steps[i].fate.answer)
  }

  /** How the flow fares from state j to state m, where nothing is left to do. */
  ghost predicate Verdict(cores: seq<Core>, steps: seq<CoreStep>, j: nat, m: nat, id: nat)
    requires j <= m < |cores|
  {
    var e, e', n := cores[j].world.engine, cores[m].world.engine, Asks(cores[j].queue);
    && (n == 0 ==> forall i :: j <= i < m ==> !AnsweredAt(cores, steps, i))
    && (if !Knows(e, id) then !Knows(e', id)
        else if n == 0 then Knows(e', id)
        else if n == 1 then Knows(e', id) <==> AnsweredWell(cores, steps, j, m, e.config, FlowOf(e, id))
        else !Knows(e', id))
    && (Knows(e, id) && n > 0 && !Receptive(FlowOf(e, id)) ==> !Knows(e', id))
  }

  lemma VerdictPass(cores: seq<Core>, steps: seq<CoreStep>, j: nat, m: nat, id: nat)
    requires j < m < |cores| == |steps| + 1 && steps[j].Performs? && cores[j].queue != []
    requires !cores[j].queue[0].ResolveDns?
    requires cores[j + 1].world == cores[j].world && Asks(cores[j + 1].queue) == Asks(cores[j].queue)
    requires Verdict(cores, steps, j + 1, m, id)
    ensures Verdict(cores, steps, j, m, id)
  {
    hide GoodAnswer, Asks, Knows, Receptive;
    assert !AnsweredAt(cores, steps, j);
    var e := cores[j].world.engine;
    if Knows(e, id) {
      var f := FlowOf(e, id);
      assert AnsweredWell(cores, steps, j, m, e.config, f) <==> AnsweredWell(cores, steps, j + 1, m, e.config, f);
    }
  }

  lemma VerdictResolve(cores: seq<Core>, steps: seq<CoreStep>, j: nat, m: nat, id: nat)
    requires j < m < |cores| == |steps| + 1 && steps[j].Performs? && AnsweredAt(cores, steps, j)
    requires Asks(cores[j].queue) == Asks(cores[j + 1].queue) + 1
    requires var e, e' := cores[j].world.engine, cores[j + 1].world.engine;
             && (!Knows(e, id) ==> !Knows(e', id))
             && (Knows(e, id) ==> (Knows(e', id) <==> GoodAnswer(e.config, FlowOf(e, id), steps[j].fate.answer)))
             && (Knows(e', id) ==> !Receptive(FlowOf(e', id)))
    requires Verdict(cores, steps, j + 1, m, id)
    ensures Verdict(cores, steps, j, m, id)
  {
    hide Asks, Knows, AnsweredAt, Framed;
    var e := cores[j].world.engine;
    if Knows(e, id) && Asks(cores[j].queue) == 1 {
      var f := FlowOf(e, id);
      assert AnsweredWell(cores, steps, j, m, e.config, f) <==> GoodAnswer(e.config, f, steps[j].fate.answer);
    }
  }

  /** Nothing is left to do at m, and something at every state before it from j on. */
  ghost predicate Until(cores: seq<Core>, j: nat, m: nat) {
    j <= m < |cores| && cores[m].queue == [] && forall i :: j <= i < m ==> cores[i].queue != []
  }

  lemma {:induction false} Settles(c: Config, cores: seq<Core>, steps: seq<CoreStep>, j: nat, m: nat, id: nat)
    requires ValidConfig(c) && CoreRun(c, cores, steps) && Until(cores, j, m)
    requires Answering(cores[j].world.engine, cores[j].queue, id)
    ensures Verdict(cores, steps, j, m, id)
    decreases m - j
  {
    hide Perform, Answering, GoodAnswer, Knows, Receptive, Verdict;
    if j == m {
      NothingToDo(cores, steps, j, id);
    } else {
      assert Allowed(cores[j], steps[j]) && cores[j + 1] == CoreNext(cores[j], steps[j]);
      var fate := steps[j].fate;
      if cores[j].queue[0].ResolveDns? {
        RunWorld(c, cores, steps, j);
        ResolveStep(cores[j], fate, id);
        Settles(c, cores, steps, j + 1, m, id);
        VerdictResolve(cores, steps, j, m, id);
      } else {
        PassStep(cores[j], fate, id);
        Settles(c, cores, steps, j + 1, m, id);
        VerdictPass(cores, steps, j, m, id);
      }
    }
  }

  lemma NothingToDo(cores: seq<Core>, steps: seq<CoreStep>, m: nat, id: nat)
    requires m < |cores| && cores[m].queue == []
    ensures Verdict(cores, steps, m, m, id)
  {
  }

  lemma RunWorld(c: Config, cores: seq<Core>, steps: seq<CoreStep>, k: nat)
    requires ValidConfig(c) && CoreRun(c, cores, steps) && k < |cores|
    ensures WorldInv(cores[k].world)
  {
    CoreRunInv(c, cores, steps, k);
    hide CoreRun, WorldInv, QueueOk, StreamsOk, WrittenOk, GatewayOk, AllCover;
  }

  // ---------------------------------------------------------------- a segment of a DNS flow

  /** The queries of a segment stand together between actions that neither ask nor fail. */
  ghost predicate AsksBetween(actions: seq<Action>, front: nat, queries: seq<seq<byte>>, firstId: nat, id: nat) {
    && front + |queries| <= |actions|
    && (forall i :: 0 <= i < |actions| && !(front <= i < front + |queries|) ==> Light(actions[i]))
    && (forall i :: front <= i < front + |queries| ==>
          actions[i] == ResolveDns(firstId + (i - front), queries[i - front], TcpTarget(id)))
  }

  lemma QueriesBetween(w: Work, room: nat, firstId: nat, back: seq<Action>)
    requires w.flow.dns && !w.reset && AllLight(w.actions) && AllLight(back) && Drain(w.flow.buffer, room).stop.Waiting?
    ensures var v := TakeQueries(w, room, firstId);
            AsksBetween(v.actions + back, |w.actions|, v.queries, firstId, w.flow.id)
  {
    hide Drain, Light;
    var v := TakeQueries(w, room, firstId);
    var asks := Resolves(v.queries, firstId, w.flow.id);
    assert v.actions == w.actions + asks;
    var all := v.actions + back;
    forall i | 0 <= i < |all| && !(|w.actions| <= i < |w.actions| + |v.queries|) ensures Light(all[i]) {
      if i < |w.actions| {
        assert all[i] == w.actions[i];
      } else {
        assert all[i] == back[i - |v.actions|];
      }
    }
  }

  lemma FinKeeps(c: Config, w: Work, s: Segment)
    requires w.flow.dns && !TakeFin(c, w, s).removed
    ensures !w.reset && AllLight(TakeFin(c, w, s).actions[|w.actions|..])
  {
    hide TakeFin;
    TakeFinSends(c, w, s);
    FinResets(c, w, s);
  }

  lemma FinResets(c: Config, w: Work, s: Segment)
    ensures w.reset ==> TakeFin(c, w, s).removed
  {
  }

  lemma PayloadLight(c: Config, f: Flow, s: Segment, now: nat)
    requires Sane(c, f) && Reaches(f, s) && f.dns
    ensures AllLight(TakePayload(c, Settled(f, s, now), s).actions) && TakePayload(c, Settled(f, s, now), s).flow.dns
    ensures TakePayload(c, Settled(f, s, now), s).flow.id == f.id
  {
    hide TakePayload, Reaches, TakesPayload, Fits;
    PayloadActions(c, f, s, now);
    PayloadSays(c, f, s, now);
  }

  lemma DnsActions(c: Config, f: Flow, s: Segment, now: nat, room: nat, firstId: nat) returns (front: nat)
    requires Sane(c, f) && f.dns && !Existing(c, f, s, now, room, firstId).removed
    ensures var o := Existing(c, f, s, now, room, firstId); AsksBetween(o.actions, front, o.queries, firstId, f.id)
  {
    hide Existing, TakePayload, TakeQueries, TakeFin, Drain, Reaches;
    var o := Existing(c, f, s, now, room, firstId);
    if Reaches(f, s) {
      ExistingStages(c, f, s, now, room, firstId);
      PayloadLight(c, f, s, now);
      var p := TakePayload(c, Settled(f, s, now), s);
      var w := TakeQueries(p, room, firstId);
      front := |p.actions|;
      QueriesWaiting(p, room, firstId);
      FinKeeps(c, w, s);
      TakeFinSends(c, w, s);
      QueriesBetween(p, room, firstId, o.actions[|w.actions|..]);
      assert o.actions == w.actions + o.actions[|w.actions|..];
    } else {
      ExistingStops(c, f, s, now, room, firstId);
      front := 0;
      forall i | 0 <= i < |o.actions| ensures Light(o.actions[i]) {
        assert o.actions[i] in o.actions;
      }
    }
  }

  lemma QueriesWaiting(w: Work, room: nat, firstId: nat)
    requires w.flow.dns
    ensures TakeQueries(w, room, firstId).flow.dns
    ensures !TakeQueries(w, room, firstId).reset ==> !w.reset && Drain(w.flow.buffer, room).stop.Waiting?
  {
    hide Drain;
  }

  lemma {:induction false} BetweenAsks(actions: seq<Action>, front: nat, queries: seq<seq<byte>>, firstId: nat, id: nat)
    requires AsksBetween(actions, front, queries, firstId, id)
    ensures Asks(actions) == |queries|
  {
    var n := |queries|;
    var a, b, d := actions[..front], actions[front..front + n], actions[front + n..];
    assert actions == a + (b + d);
    AsksConcat(a, b + d);
    AsksConcat(b, d);
    NoAsks(a);
    forall x | x in b ensures x.ResolveDns? {
      var i :| 0 <= i < n && b[i] == x;
      assert b[i] == actions[front + i];
    }
    AllAsks(b);
    NoAsks(d);
  }

  lemma BetweenAnswering(e: Engine, actions: seq<Action>, front: nat, queries: seq<seq<byte>>, firstId: nat, id: nat)
    requires AsksBetween(actions, front, queries, firstId, id)
    requires forall q :: firstId <= q < firstId + |queries| ==> q in e.pending && e.pending[q] == TcpTarget(id)
    ensures Answering(e, actions, id)
  {
    forall i | 0 <= i < |actions|
      ensures !Risky(actions[i])
      ensures actions[i].ResolveDns? ==>
                && front <= i < front + |queries|
                && actions[i].query == firstId + (i - front) && actions[i].target == TcpTarget(id)
    {
    }
  }

  lemma InstalledPending(e: Engine, key: Key, o: Outcome)
    requires !o.removed
    ensures var e' := Install(e, key, o);
            forall q :: e.nextDnsId <= q < e.nextDnsId + |o.queries| ==> q in e'.pending && e'.pending[q] == TcpTarget(o.flow.id)
  {
  }

  /** What the segment of a call does to the flow it reaches. */
  function SegmentOutcome(e: Engine, s: Segment, now: nat): Outcome
    requires KeyOf(s) in e.flows
  {
    Existing(e.config, e.flows[KeyOf(s)], s, now, Room(e), e.nextDnsId)
  }

  lemma CallAnswers(core: Core, input: Input, s: Segment)
    requires CoreInv(core) && core.queue == [] && Classify(input.packet) == Ok(Tcp(s))
    requires Delivered(core.world.engine, s, input)
    requires core.world.engine.flows[KeyOf(s)].dns && !SegmentOutcome(core.world.engine, s, input.now).removed
    ensures var e, core' := core.world.engine, Call(core, Arrives(input)); var id := e.flows[KeyOf(s)].id;
            var o := SegmentOutcome(e, s, input.now);
            && Answering(core'.world.engine, core'.queue, id) && Asks(core'.queue) == |o.queries|
            && Knows(core'.world.engine, id) && FlowOf(core'.world.engine, id) == o.flow && core'.world.engine.config == e.config
  {
    hide WorldInv, QueueOk, StreamsOk, WrittenOk, GatewayOk, AllCover, Existing, Classify, TracesAfter, EngineInv,
      Asks, Answering,
      AsksBetween, Sane, Asked;
    var e := core.world.engine;
    WorldEngine(core.world);
    Listed(e, KeyOf(s));
    var f, o := e.flows[KeyOf(s)], SegmentOutcome(e, s, input.now);
    ExistingSane(e.config, f, s, input.now, Room(e), e.nextDnsId);
    var front := DnsActions(e.config, f, s, input.now, Room(e), e.nextDnsId);
    BetweenAsks(o.actions, front, o.queries, e.nextDnsId, f.id);
    InstalledPending(e, KeyOf(s), o);
    BetweenAnswering(Install(e, KeyOf(s), o), o.actions, front, o.queries, e.nextDnsId, f.id);
  }

  /** When the call for a segment of a DNS flow is over, the flow still lives if and only if the segment did not
      end it and completed no message, or exactly one whose answer could be sent at once: a segment that
      completes two messages always ends its flow. */
  lemma DnsSegmentOutcome(c: Config, cores: seq<Core>, steps: seq<CoreStep>, k: nat, m: nat, input: Input, s: Segment)
    requires ValidConfig(c) && CoreRun(c, cores, steps) && k < |steps| && steps[k] == Calls(Arrives(input))
    requires cores[k].queue == [] && Until(cores, k + 1, m)
    requires Classify(input.packet) == Ok(Tcp(s)) && Delivered(cores[k].world.engine, s, input)
    requires cores[k].world.engine.flows[KeyOf(s)].dns && !SegmentOutcome(cores[k].world.engine, s, input.now).removed
    ensures var e := cores[k].world.engine; var o := SegmentOutcome(e, s, input.now);
            Knows(cores[m].world.engine, e.flows[KeyOf(s)].id) <==>
              || o.queries == []
              || (|o.queries| == 1 && AnsweredWell(cores, steps, k + 1, m, e.config, o.flow))
  {
    hide CoreInv, Classify, SegmentOutcome, Answering, Asks, AnsweredWell, Call, Perform;
    CoreRunInv(c, cores, steps, k);
    CallAnswers(cores[k], input, s);
    var id := cores[k].world.engine.flows[KeyOf(s)].id;
    assert cores[k + 1] == CoreNext(cores[k], steps[k]);
    Settles(c, cores, steps, k + 1, m, id);
  }

  // ---------------------------------------------------------------- the stream of answers

  /** The answer that a step sends to the application of a DNS flow, if any. */
  function AnswerSent(core: Core, step: CoreStep, id: nat): seq<seq<byte>> {
    if step.Performs? && core.queue != [] && core.queue[0].ResolveDns?
       && Sendable(core.world.engine, core.queue[0].query, step.fate.answer)
       && core.world.engine.pending[core.queue[0].query].flow == id then [step.fate.answer]
    else []
  }

  predicate Sendable(e: Engine, query: nat, answer: seq<byte>) {
    && query in e.pending && e.pending[query].TcpTarget? && Knows(e, e.pending[query].flow)
    && GoodAnswer(e.config, FlowOf(e, e.pending[query].flow), answer)
  }

  function AnswersSent(cores: seq<Core>, steps: seq<CoreStep>, k: nat, id: nat): seq<seq<byte>>
    requires k <= |steps| <= |cores|
  {
    if k == 0 then [] else AnswersSent(cores, steps, k - 1, id) + AnswerSent(cores[k - 1], steps[k - 1], id)
  }

  /** The bytes of at most one answer. */
  function OnTheWire(sent: seq<seq<byte>>): seq<byte> {
    if sent == [] then [] else Framed(sent[0])
  }

  /** What one event of the engine gives to the application of a flow. */
  function Given(e: Engine, ev: Event, id: nat): seq<byte> {
    match ev
    case StreamSays(flow, payload, _) =>
      if flow == id && Knows(e, id) && payload != [] && Accepts(e.config, FlowOf(e, id), payload) then payload else []
    case DnsAnswers(query, wire, _) => if Sendable(e, query, wire) && e.pending[query].flow == id then Framed(wire) else []
    case _ => []
  }

  lemma EventGives(w: World, ev: Event, id: nat)
    requires WorldInv(w) && Possible(w.engine, ev)
    ensures id in w.traces ==>
              && id in Next(w, ev).traces && Next(w, ev).traces[id].dns == w.traces[id].dns
              && Next(w, ev).traces[id].given == w.traces[id].given + Given(w.engine, ev, id)
    ensures id !in w.traces && id in Next(w, ev).traces ==> Next(w, ev).traces[id].given == []
  {
    hide EngineInv, Historic, AllLive, AllHandedOn, Step, Classify, TakesPayload, TakesFin, Accepts, Framed,
      InitialSequence, Knows;
    assert id in w.traces ==> id < w.engine.nextFlowId;
  }

  /** What the application of a DNS flow is given by one step: the framed answer, or nothing. */
  lemma GivenStep(core: Core, step: CoreStep, id: nat)
    requires CoreInv(core) && Allowed(core, step)
    ensures id in core.world.traces ==> id in CoreNext(core, step).world.traces
    ensures id in core.world.traces ==> CoreNext(core, step).world.traces[id].dns == core.world.traces[id].dns
    ensures id in core.world.traces && core.world.traces[id].dns ==>
              CoreNext(core, step).world.traces[id].given
              == core.world.traces[id].given + OnTheWire(AnswerSent(core, step, id))
    ensures id !in core.world.traces && id in CoreNext(core, step).world.traces ==>
              CoreNext(core, step).world.traces[id].given == []
  {
    hide WorldInv, QueueOk, WrittenOk, GatewayOk, AllCover, Step, Next, Push, HasRoom, Framed, GoodAnswer, Accepts;
    var w := core.world;
    assert id in w.traces ==> w.traces[id].given + [] == w.traces[id].given;
    match step {
      case Calls(ev) =>
        EventGives(w, ev, id);
        assert ev.StreamSays? && ev.id == id ==> Serves(w, id);
      case Performs(fate) =>
        match core.queue[0] {
          case OpenStream(flow, _) =>
            EventGives(w, StreamOpens(flow, fate.now), id);
            EventGives(w, StreamFails(flow, DownstreamFailure), id);
          case ForwardPayload(flow, payload) =>
            EventGives(w, StreamTook(flow, |payload|, fate.now), id);
            EventGives(w, StreamFails(flow, DownstreamFailure), id);
          case ResolveDns(query, _, _) => EventGives(w, DnsAnswers(query, fate.answer, fate.now), id);
          case CloseWrite(flow) => EventGives(w, StreamFails(flow, DownstreamFailure), id);
          case _ =>
        }
      case _ =>
    }
  }

  lemma NobodyAnswers(core: Core, step: CoreStep, id: nat)
    requires CoreInv(core) && id !in core.world.traces
    ensures AnswerSent(core, step, id) == []
  {
    hide QueueOk, StreamsOk, WrittenOk, GatewayOk, AllCover, WorldInv, GoodAnswer;
    if Knows(core.world.engine, id) {
      LiveFollows(core.world, id);
    }
  }

  lemma AnswerFits(core: Core, step: CoreStep, id: nat)
    requires CoreInv(core) && AnswerSent(core, step, id) != []
    ensures |step.fate.answer| < WORD
  {
    hide QueueOk, StreamsOk, WrittenOk, GatewayOk, AllCover, WorldInv, EngineInv;
    WorldEngine(core.world);
    ConfigValid(core.world.engine);
    FramedLonger(step.fate.answer);
    hide Framed;
  }

  lemma SplitFramed(answer: seq<byte>)
    requires |answer| < WORD
    ensures Split(Framed(answer)) == Messages([answer], [])
  {
    hide Split;
    var framed := Framed(answer);
    assert framed == framed[..2] + answer + [];
    SplitFirst(framed, answer, []);
    SplitShort([]);
  }

  /** What the application of a DNS flow has been given is exactly the answers sent to it, each behind its
      length, in order. */
  lemma {:induction false} AnswersExact(c: Config, cores: seq<Core>, steps: seq<CoreStep>, k: nat, id: nat)
    requires ValidConfig(c) && CoreRun(c, cores, steps) && k < |cores|
    ensures id !in cores[k].world.traces ==> AnswersSent(cores, steps, k, id) == []
    ensures id in cores[k].world.traces && cores[k].world.traces[id].dns ==>
              Split(cores[k].world.traces[id].given) == Messages(AnswersSent(cores, steps, k, id), [])
  {
    hide CoreInv, CoreNext, Allowed, AnswerSent, Split, Framed;
    if k > 0 {
      AnswersExact(c, cores, steps, k - 1, id);
      CoreRunInv(c, cores, steps, k - 1);
      var core, step := cores[k - 1], steps[k - 1];
      assert Allowed(core, step) && cores[k - 1 + 1] == CoreNext(core, step);
      GivenStep(core, step, id);
      if id !in core.world.traces {
        NobodyAnswers(core, step, id);
        SplitShort([]);
      } else if core.world.traces[id].dns {
        AnswerAppended(core, step, id, core.world.traces[id].given, AnswersSent(cores, steps, k - 1, id));
      }
    }
  }

  lemma AnswerAppended(core: Core, step: CoreStep, id: nat, given: seq<byte>, answers: seq<seq<byte>>)
    requires CoreInv(core) && Split(given) == Messages(answers, [])
    ensures Split(given + OnTheWire(AnswerSent(core, step, id))) == Messages(answers + AnswerSent(core, step, id), [])
  {
    hide CoreInv, Split, Framed, Sendable;
    var sent := AnswerSent(core, step, id);
    if sent == [] {
      assert given + [] == given && answers + [] == answers;
    } else {
      AnswerFits(core, step, id);
      SplitFramed(sent[0]);
      SplitConcat(given, Framed(sent[0]));
      assert [] + Framed(sent[0]) == Framed(sent[0]);
    }
  }

  // ---------------------------------------------------------------- a run that shows it

  lemma CoreExtended(c: Config, cores: seq<Core>, steps: seq<CoreStep>, step: CoreStep)
    requires CoreRun(c, cores, steps) && Allowed(cores[|steps|], step)
    ensures CoreRun(c, cores + [CoreNext(cores[|steps|], step)], steps + [step])
  {
    hide CoreNext, Allowed;
    var cores', steps' := cores + [CoreNext(cores[|steps|], step)], steps + [step];
    forall i | 0 <= i < |steps'| ensures Allowed(cores'[i], steps'[i]) && cores'[i + 1] == CoreNext(cores'[i], steps'[i]) {
      if i < |steps| {
        assert cores'[i] == cores[i] && cores'[i + 1] == cores[i + 1] && steps'[i] == steps[i];
      }
    }
  }

  /** Every run can be carried on to the end of its call. */
  lemma {:induction false} Finishes(c: Config, cores: seq<Core>, steps: seq<CoreStep>, fate: Fate)
    returns (cores': seq<Core>, steps': seq<CoreStep>)
    requires ValidConfig(c) && CoreRun(c, cores, steps)
    ensures CoreRun(c, cores', steps') && cores <= cores' && steps <= steps' && Until(cores', |steps|, |steps'|)
    decreases TotalWeight(cores[|steps|].queue)
  {
    hide Perform, CoreInv, TotalWeight;
    var core := cores[|steps|];
    if core.queue == [] {
      cores', steps' := cores, steps;
    } else {
      CoreRunInv(c, cores, steps, |steps|);
      PerformShrinks(core, fate);
      CoreExtended(c, cores, steps, Performs(fate));
      cores', steps' := Finishes(c, cores + [Perform(core, fate)], steps + [Performs(fate)], fate);
      assert cores'[|steps|] == core;
    }
  }

  /** Two messages of one byte each. */
  const TWO: seq<byte> := [0, 1, 7, 0, 1, 7]

  lemma DrainTwo(room: nat)
    requires room >= 2
    ensures Drain(TWO, room) == Drained([[7], [7]], [], Waiting)
  {
    var rest := TWO[3..];
    assert rest == [0, 1, 7] && TWO[2..3] == [7] && rest[2..3] == [7] && rest[3..] == [];
    var more := Drain([], room - 2);
    assert Drain(rest, room - 1) == Drained([[7]] + more.queries, more.rest, more.stop);
  }

  lemma TwoTaken(c: Config, f: Flow, room: nat, firstId: nat)
    requires ValidConfig(c) && c.toGatewayBytes >= 6 && room >= 2
    requires Sane(c, f) && f.state.SynAckSent? && f.dns
    ensures var o := Existing(c, f, HandshakeAck(f, 53, TWO), 0, room, firstId); !o.removed && o.queries == [[7], [7]]
  {
    hide Drain, Plus;
    DrainTwo(room);
    var s := HandshakeAck(f, 53, TWO);
    MinusSelf(f.serverNext);
    assert [] + TWO == TWO;
  }

  predicate HasPayload(packet: seq<byte>, payload: seq<byte>) {
    match Classify(packet)
    case Ok(Tcp(s)) => s.payload == payload
    case _ => false
  }

  /** A flow was live, its next segment completed two messages, and after the call it is gone. */
  ghost predicate EndedByTwo(c: Config, cores: seq<Core>, steps: seq<CoreStep>, k: nat, id: nat) {
    && CoreRun(c, cores, steps) && k < |steps| && cores[k].queue == [] && Knows(cores[k].world.engine, id)
    && steps[k].Calls? && steps[k].event.Arrives? && HasPayload(steps[k].event.input.packet, TWO)
    && Until(cores, k + 1, |steps|) && !Knows(cores[|steps|].world.engine, id)
  }

  lemma FirstFlowSane(c: Config, port: nat)
    ensures var f := FirstFlow(c, port);
            && Sane(c, f) && f.id == 1 && f.key == KeyOf(Syn(port)) && f.clientNext == 1 && f.serverNext < WRAP
            && SegmentFields(HandshakeAck(f, port, TWO)) == (port < WORD)
            && (port == 53 ==> f.dns && f.state.SynAckSent?)
  {
    hide InitialSequence;
  }

  lemma FirstCall(c: Config, d: Dispatcher, fate: Fate) returns (cores: seq<Core>, steps: seq<CoreStep>)
    requires ValidConfig(c) && NewDispatcher(d)
    ensures CoreRun(c, cores, steps) && |steps| == 2
    ensures cores[2].queue == [] && cores[2].world.engine == Alone(c, FirstFlow(c, 53))
  {
    hide FirstFlow, Alone, Process, TracesAfter, TcpPacket;
    Admission(c, 53);
    var core0 := Core(World(Fresh(c), map[], []), d, [], []);
    var call := Calls(Arrival(Syn(53)));
    cores, steps := [core0], [];
    assert CoreRun(c, cores, steps) && Allowed(core0, call);
    var core1 := CoreNext(core0, call);
    CoreExtended(c, cores, steps, call);
    CoreExtended(c, [core0, core1], [call], Performs(fate));
    cores, steps := [core0, core1, CoreNext(core1, Performs(fate))], [call, Performs(fate)];
    assert [core0] + [core1] == [core0, core1] && [] + [call] == [call];
    assert [core0, core1] + [cores[2]] == cores && [call] + [Performs(fate)] == steps;
  }

  /** With room for two queries, two queries in the first data segment end the flow, whatever the answers. */
  lemma TwoQueriesEnd(c: Config, d: Dispatcher, fate: Fate)
    requires ValidConfig(c) && c.maxPendingDns >= 2 && c.toGatewayBytes >= 6 && NewDispatcher(d)
    ensures exists cores, steps :: EndedByTwo(c, cores, steps, 2, 1)
  {
    hide CoreRun, FirstFlow, Existing, Step, Next, TcpPacket, Classify, Perform;
    var cores, steps := FirstCall(c, d, fate);
    var f := FirstFlow(c, 53);
    FirstFlowSane(c, 53);
    var s := HandshakeAck(f, 53, TWO);
    var call := Calls(Arrival(s));
    RunShape(c, cores, steps);
    CoreExtended(c, cores, steps, call);
    var more, moves := cores + [CoreNext(cores[2], call)], steps + [call];
    RunShape(c, more, moves);
    more, moves := Finishes(c, more, moves, fate);
    assert more[2] == cores[2] && moves[2] == call;
    ArrivalClassified(s);
    TwoTaken(c, f, Room(more[2].world.engine), more[2].world.engine.nextDnsId);
    DnsSegmentOutcome(c, more, moves, 2, |moves|, call.event.input, s);
    assert EndedByTwo(c, more, moves, 2, 1);
  }

  lemma RunShape(c: Config, cores: seq<Core>, steps: seq<CoreStep>)
    requires CoreRun(c, cores, steps)
    ensures |cores| == |steps| + 1
  {
  }
}
