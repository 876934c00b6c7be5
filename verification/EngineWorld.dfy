/**
 The engine watched from outside: every call, the actions it returned so far, and for every flow ever
 opened the trace of what it took and gave.
 */
module EngineWorld {
  import opened Bytes
  import opened Options
  import opened Packet
  import opened TcpFlow
  import opened TcpFlowTheorems
  import opened DnsStream
  import opened Engine
  import opened EngineInvariant

  // ---------------------------------------------------------------- reading the action history

  /** All bytes handed to the protected stream of a flow. */
  function ForwardsIn(id: nat, actions: seq<Action>): seq<byte> {
    if actions == [] then []
    else (if actions[0].ForwardPayload? && actions[0].flow == id then actions[0].payload else []) + ForwardsIn(id, actions[1..])
  }

  predicate AsksFor(id: nat, a: Action) {
    a.ResolveDns? && a.target == TcpTarget(id)
  }

  /** All queries asked for a DNS flow. */
  function QueriesIn(id: nat, actions: seq<Action>): seq<seq<byte>> {
    if actions == [] then []
    else (if AsksFor(id, actions[0]) then [actions[0].wire] else []) + QueriesIn(id, actions[1..])
  }

  lemma {:induction false} ForwardsConcat(id: nat, a: seq<Action>, b: seq<Action>)
    ensures ForwardsIn(id, a + b) == ForwardsIn(id, a) + ForwardsIn(id, b)
  {
    if a == [] {
      assert a + b == b;
    } else {
      ForwardsConcat(id, a[1..], b);
      assert (a + b)[1..] == a[1..] + b && (a + b)[0] == a[0];
      var first := if a[0].ForwardPayload? && a[0].flow == id then a[0].payload else [];
      assert first + (ForwardsIn(id, a[1..]) + ForwardsIn(id, b)) == first + ForwardsIn(id, a[1..]) + ForwardsIn(id, b);
    }
  }

  lemma {:induction false} QueriesConcat(id: nat, a: seq<Action>, b: seq<Action>)
    ensures QueriesIn(id, a + b) == QueriesIn(id, a) + QueriesIn(id, b)
  {
    if a == [] {
      assert a + b == b;
    } else {
      QueriesConcat(id, a[1..], b);
      assert (a + b)[1..] == a[1..] + b && (a + b)[0] == a[0];
      hide AsksFor;
      var first := if AsksFor(id, a[0]) then [a[0].wire] else [];
      assert first + (QueriesIn(id, a[1..]) + QueriesIn(id, b)) == first + QueriesIn(id, a[1..]) + QueriesIn(id, b);
    }
  }

  lemma {:induction false} NoForwards(id: nat, actions: seq<Action>)
    requires forall a :: a in actions ==> !(a.ForwardPayload? && a.flow == id)
    ensures ForwardsIn(id, actions) == []
  {
    if actions != [] {
      NoForwards(id, actions[1..]);
    }
  }

  lemma {:induction false} NoQueries(id: nat, actions: seq<Action>)
    requires forall a :: a in actions ==> !AsksFor(id, a)
    ensures QueriesIn(id, actions) == []
  {
    if actions != [] {
      NoQueries(id, actions[1..]);
    }
  }

  lemma {:induction false} QueriesOfResolves(id: nat, queries: seq<seq<byte>>, firstId: nat)
    ensures QueriesIn(id, Resolves(queries, firstId, id)) == queries
  {
    if queries != [] {
      QueriesOfResolves(id, queries[1..], firstId + 1);
      assert Resolves(queries, firstId, id)[1..] == Resolves(queries[1..], firstId + 1, id);
    }
  }

  /** No action hands on bytes or asks a query. */
  predicate Idle(actions: seq<Action>) {
    forall a :: a in actions ==> !a.ForwardPayload? && !(a.ResolveDns? && a.target.TcpTarget?)
  }

  /** Bytes and queries are only for one flow. */
  predicate Only(id: nat, actions: seq<Action>) {
    forall a :: a in actions ==>
      (a.ForwardPayload? ==> a.flow == id) && (a.ResolveDns? && a.target.TcpTarget? ==> a.target.flow == id)
  }

  lemma OthersQuiet(id: nat, other: nat, actions: seq<Action>)
    requires Only(id, actions) && other != id
    ensures ForwardsIn(other, actions) == [] && QueriesIn(other, actions) == []
  {
    NoForwards(other, actions);
    NoQueries(other, actions);
  }

  lemma IdleQuiet(id: nat, actions: seq<Action>)
    requires Idle(actions)
    ensures ForwardsIn(id, actions) == [] && QueriesIn(id, actions) == []
  {
    NoForwards(id, actions);
    NoQueries(id, actions);
  }

  // ---------------------------------------------------------------- the watched engine

  datatype World = World(engine: Engine, traces: map<nat, Trace>, history: seq<Action>)

  /** A live flow is where its trace says. */
  ghost predicate Live(e: Engine, traces: map<nat, Trace>, history: seq<Action>, id: nat)
    requires Knows(e, id)
  {
    && id in traces && traces[id].iss == InitialSequence(id)
    && Follows(FlowOf(e, id), traces[id])
    && AskedAll(FlowOf(e, id), traces[id], QueriesIn(id, history))
  }

  /** Everything a forwarded flow took was handed on, in order; a DNS flow hands nothing on. */
  ghost predicate HandedOn(t: Trace, id: nat, history: seq<Action>) {
    ForwardsIn(id, history) == if t.dns then [] else t.taken
  }

  ghost predicate Historic(history: seq<Action>, bound: nat) {
    forall a :: a in history ==>
      (a.ForwardPayload? ==> a.flow < bound) && (a.ResolveDns? && a.target.TcpTarget? ==> a.target.flow < bound)
  }

  ghost predicate AllLive(e: Engine, traces: map<nat, Trace>, history: seq<Action>) {
    forall id :: id in e.ids ==> Knows(e, id) && Live(e, traces, history, id)
  }

  ghost predicate AllHandedOn(traces: map<nat, Trace>, history: seq<Action>) {
    forall id :: id in traces ==> HandedOn(traces[id], id, history)
  }

  ghost predicate WorldInv(w: World) {
    && EngineInv(w.engine)
    && Below(w.traces.Keys, w.engine.nextFlowId)
    && Historic(w.history, w.engine.nextFlowId)
    && AllLive(w.engine, w.traces, w.history)
    && AllHandedOn(w.traces, w.history)
  }

  lemma WorldEngine(w: World)
    requires WorldInv(w)
    ensures EngineInv(w.engine)
  {
  }

  lemma FreshWorld(c: Config)
    requires ValidConfig(c)
    ensures WorldInv(World(Fresh(c), map[], []))
  {
    FreshInv(c);
  }

  // ---------------------------------------------------------------- one flow changes

  /** The outcome of one flow together with the trace it leaves. */
  ghost predicate Tracked(e: Engine, key: Key, o: Outcome, t: Trace, t': Trace, asked: seq<seq<byte>>) {
    && Proper(e, key, o)
    && Only(o.flow.id, o.actions)
    && t'.iss == t.iss && t'.dns == t.dns
    && t.taken <= t'.taken
    && ForwardsIn(o.flow.id, o.actions) == (if t.dns then [] else t'.taken[|t.taken|..])
    && (!o.removed ==> Follows(o.flow, t') && AskedAll(o.flow, t', asked + QueriesIn(o.flow.id, o.actions)))
  }

  lemma OtherLive(e: Engine, e': Engine, traces: map<nat, Trace>, id: nat, t': Trace, history: seq<Action>,
                  actions: seq<Action>, other: nat)
    requires Knows(e, other) && Knows(e', other) && FlowOf(e', other) == FlowOf(e, other)
    requires other != id && Only(id, actions) && Live(e, traces, history, other)
    ensures Live(e', traces[id := t'], history + actions, other)
  {
    hide Follows, AskedAll;
    QueriesConcat(other, history, actions);
    OthersQuiet(id, other, actions);
    assert QueriesIn(other, history) + [] == QueriesIn(other, history);
  }

  lemma OtherHandedOn(t: Trace, id: nat, history: seq<Action>, actions: seq<Action>, other: nat)
    requires other != id && Only(id, actions) && HandedOn(t, other, history)
    ensures HandedOn(t, other, history + actions)
  {
    ForwardsConcat(other, history, actions);
    OthersQuiet(id, other, actions);
  }

  lemma OwnHandedOn(t: Trace, t': Trace, id: nat, history: seq<Action>, actions: seq<Action>)
    requires HandedOn(t, id, history) && t.dns == t'.dns && t.taken <= t'.taken
    requires ForwardsIn(id, actions) == (if t.dns then [] else t'.taken[|t.taken|..])
    ensures HandedOn(t', id, history + actions)
  {
    ForwardsConcat(id, history, actions);
  }

  lemma AppliedLive(w: World, key: Key, o: Outcome, t': Trace)
    requires WorldInv(w) && key in w.engine.flows
    requires o.flow.id in w.traces
    requires Tracked(w.engine, key, o, w.traces[o.flow.id], t', QueriesIn(o.flow.id, w.history))
    ensures AllLive(Install(w.engine, key, o), w.traces[o.flow.id := t'], w.history + o.actions)
  {
    hide EngineInv, Install, Follows, AskedAll, Sane, AllHandedOn;
    var e, id := w.engine, o.flow.id;
    InstallInv(e, key, o);
    Listed(e, key);
    var e', traces, history := Install(e, key, o), w.traces[id := t'], w.history + o.actions;
    forall other | other in e'.ids ensures Knows(e', other) && Live(e', traces, history, other) {
      assert other in e.ids && Knows(e, other) && Live(e, w.traces, w.history, other);
      if other == id {
        QueriesConcat(id, w.history, o.actions);
      } else {
        DistinctKeys(e, id, other);
        OtherLive(e, e', w.traces, id, t', w.history, o.actions, other);
      }
    }
  }

  lemma AppliedKeeps(w: World, key: Key, o: Outcome, t': Trace)
    requires WorldInv(w) && key in w.engine.flows
    requires o.flow.id in w.traces
    requires Tracked(w.engine, key, o, w.traces[o.flow.id], t', QueriesIn(o.flow.id, w.history))
    ensures WorldInv(World(Install(w.engine, key, o), w.traces[o.flow.id := t'], w.history + o.actions))
  {
    hide EngineInv, Install, Follows, AskedAll, Sane, AllLive;
    var id := o.flow.id;
    AppliedLive(w, key, o, t');
    InstallInv(w.engine, key, o);
    Listed(w.engine, key);
    var traces, history := w.traces[id := t'], w.history + o.actions;
    forall other | other in traces ensures HandedOn(traces[other], other, history) {
      if other == id {
        OwnHandedOn(w.traces[id], t', id, w.history, o.actions);
      } else {
        OtherHandedOn(traces[other], id, w.history, o.actions, other);
      }
    }
  }

  lemma DistinctKeys(e: Engine, id: nat, other: nat)
    requires EngineInv(e) && Knows(e, id) && Knows(e, other) && id != other
    ensures e.ids[id] != e.ids[other]
  {
    assert e.flows[e.ids[id]].id == id;
  }

  // ---------------------------------------------------------------- a segment on a known flow

  lemma ExistingQueries(c: Config, f: Flow, s: Segment, now: nat, room: nat, firstId: nat)
    requires Sane(c, f)
    ensures var o := Existing(c, f, s, now, room, firstId);
            && |o.queries| <= room && (o.queries != [] ==> f.dns)
            && QueriesIn(f.id, o.actions) == o.queries
  {
    hide Existing, TakePayload, TakesPayload, Reaches, Drain, TakeFin, AskedAll, QueriesIn;
    var o := Existing(c, f, s, now, room, firstId);
    if Reaches(f, s) {
      ExistingStages(c, f, s, now, room, firstId);
      PayloadSays(c, f, s, now);
      PayloadActions(c, f, s, now);
      var p := TakePayload(c, Settled(f, s, now), s);
      var w := TakeQueries(p, room, firstId);
      TakeFinSends(c, w, s);
      NoQueries(f.id, o.actions[|w.actions|..]);
      assert o.actions == w.actions + o.actions[|w.actions|..];
      QueriesConcat(f.id, w.actions, o.actions[|w.actions|..]);
      WorkQueries(f, p, room, firstId);
    } else {
      ExistingStops(c, f, s, now, room, firstId);
      NoQueries(f.id, o.actions);
    }
  }

  lemma WorkQueries(f: Flow, p: Work, room: nat, firstId: nat)
    requires p.flow.id == f.id && p.flow.dns == f.dns && p.queries == []
    requires forall a :: a in p.actions ==> !AsksFor(f.id, a)
    ensures var w := TakeQueries(p, room, firstId);
            |w.queries| <= room && (w.queries != [] ==> f.dns) && QueriesIn(f.id, w.actions) == w.queries
  {
    hide Drain, QueriesIn;
    NoQueries(f.id, p.actions);
    if f.dns && !p.reset {
      var d := Drain(p.flow.buffer, room);
      var asks, stop := Resolves(d.queries, firstId, f.id), StopActions(p.flow, d.stop);
      QueriesConcat(f.id, p.actions + asks, stop);
      QueriesConcat(f.id, p.actions, asks);
      QueriesOfResolves(f.id, d.queries, firstId);
      NoQueries(f.id, stop);
    }
  }

  lemma ExistingForwards(c: Config, f: Flow, s: Segment, now: nat, room: nat, firstId: nat)
    requires Sane(c, f)
    ensures var o := Existing(c, f, s, now, room, firstId);
            && Only(f.id, o.actions)
            && ForwardsIn(f.id, o.actions) == if f.dns then [] else Taken(c, f, s)
  {
    hide Existing, TakesPayload, TakesFin;
    var o := Existing(c, f, s, now, room, firstId);
    if !f.dns && TakesPayload(c, f, s) {
      ForwardedShape(c, f, s, now, room, firstId);
      NoForwards(f.id, o.actions[1..]);
    } else {
      QuietShape(c, f, s, now, room, firstId);
      NoForwards(f.id, o.actions);
    }
  }

  lemma ExistingTracked(w: World, key: Key, s: Segment, now: nat)
    requires WorldInv(w) && key in w.engine.flows
    ensures var e := w.engine; var f := e.flows[key];
            && f.id in w.traces
            && var o := Existing(e.config, f, s, now, Room(e), e.nextDnsId); var t := w.traces[f.id];
               && o.flow.id == f.id
               && Tracked(e, key, o, t, Took(e.config, f, s, Room(e), t), QueriesIn(f.id, w.history))
  {
    hide Existing, TakesPayload, TakesFin, QueriesIn, ForwardsIn, EngineInv, Sane, Follows, AskedAll;
    var e, f := w.engine, w.engine.flows[key];
    Listed(e, key);
    assert Live(e, w.traces, w.history, f.id);
    var t := w.traces[f.id];
    var room, o := Room(e), Existing(e.config, f, s, now, Room(e), e.nextDnsId);
    assert f.dns == t.dns by {
      DnsAgrees(f, t);
    }
    ExistingSane(e.config, f, s, now, room, e.nextDnsId);
    ExistingQueries(e.config, f, s, now, room, e.nextDnsId);
    ExistingForwards(e.config, f, s, now, room, e.nextDnsId);
    if !o.removed {
      ExistingFollows(e.config, f, s, now, room, e.nextDnsId, t);
      ExistingAsksAll(e.config, f, s, now, room, e.nextDnsId, t, QueriesIn(f.id, w.history));
    }
  }

  lemma DnsAgrees(f: Flow, t: Trace)
    requires Follows(f, t)
    ensures f.dns == t.dns
  {
  }

  // ---------------------------------------------------------------- nothing changes, or a flow goes

  lemma IdleKeeps(w: World, actions: seq<Action>)
    requires WorldInv(w) && Idle(actions)
    ensures WorldInv(World(w.engine, w.traces, w.history + actions))
  {
    hide EngineInv, Follows, AskedAll;
    var e, history := w.engine, w.history + actions;
    forall id | id in e.ids ensures Knows(e, id) && Live(e, w.traces, history, id) {
      assert Live(e, w.traces, w.history, id);
      QueriesConcat(id, w.history, actions);
      IdleQuiet(id, actions);
      assert QueriesIn(id, w.history) + [] == QueriesIn(id, w.history);
    }
    forall id | id in w.traces ensures HandedOn(w.traces[id], id, history) {
      ForwardsConcat(id, w.history, actions);
      IdleQuiet(id, actions);
    }
  }

  /** The same flows under other pending queries. */
  lemma RecordsKeep(w: World, e': Engine)
    requires WorldInv(w) && EngineInv(e')
    requires e'.flows == w.engine.flows && e'.ids == w.engine.ids && e'.nextFlowId == w.engine.nextFlowId
    ensures WorldInv(World(e', w.traces, w.history))
  {
    hide EngineInv, Follows, AskedAll;
    forall id | id in e'.ids ensures Knows(e', id) && Live(e', w.traces, w.history, id) {
      assert Live(w.engine, w.traces, w.history, id);
    }
  }

  lemma RemoveAlone(w: World, key: Key)
    requires WorldInv(w) && key in w.engine.flows
    ensures WorldInv(World(Remove(w.engine, key), w.traces, w.history))
  {
    hide EngineInv, Live, Remove, HandedOn;
    var e, e' := w.engine, Remove(w.engine, key);
    RemoveInv(e, key);
    RemovedTables(e, key);
    Listed(e, key);
    forall id | id in e'.ids ensures Knows(e', id) && Live(e', w.traces, w.history, id) {
      assert id in e.ids && Knows(e, id);
      DistinctKeys(e, e.flows[key].id, id);
      SameLive(e, e', w.traces, w.history, id);
    }
  }

  lemma SameLive(e: Engine, e': Engine, traces: map<nat, Trace>, history: seq<Action>, id: nat)
    requires Knows(e, id) && Knows(e', id) && FlowOf(e', id) == FlowOf(e, id) && Live(e, traces, history, id)
    ensures Live(e', traces, history, id)
  {
  }

  lemma RemoveKeeps(w: World, key: Key, actions: seq<Action>)
    requires WorldInv(w) && key in w.engine.flows && Idle(actions)
    ensures WorldInv(World(Remove(w.engine, key), w.traces, w.history + actions))
  {
    hide WorldInv;
    RemoveAlone(w, key);
    IdleKeeps(World(Remove(w.engine, key), w.traces, w.history), actions);
  }

  lemma RemovedTables(e: Engine, key: Key)
    requires key in e.flows
    ensures var r := Remove(e, key);
            && r.flows == e.flows - {key} && r.ids == e.ids - {e.flows[key].id}
            && r.config == e.config && r.nextFlowId == e.nextFlowId && r.nextDnsId == e.nextDnsId && r.accepting == e.accepting
  {
  }

  lemma FailFlowKeeps(w: World, id: nat, reason: Reason)
    requires WorldInv(w)
    ensures var r := FailFlow(w.engine, id, reason);
            && WorldInv(World(r.engine, w.traces, w.history + r.actions)) && Idle(r.actions)
            && forall a :: a in r.actions && a.SendTcp? ==> a.segment.flags.rst
  {
    hide WorldInv, Remove;
    var r := FailFlow(w.engine, id, reason);
    if Knows(w.engine, id) {
      RemoveKeeps(w, w.engine.ids[id], r.actions);
    } else {
      assert w.history + [] == w.history;
    }
  }

  lemma {:induction false} FailManyKeeps(w: World, doomed: seq<(nat, Reason)>)
    requires WorldInv(w)
    ensures var r := FailMany(w.engine, doomed);
            && WorldInv(World(r.engine, w.traces, w.history + r.actions)) && Idle(r.actions)
            && forall a :: a in r.actions && a.SendTcp? ==> a.segment.flags.rst
    decreases |doomed|
  {
    hide WorldInv, FailFlow;
    if doomed == [] {
      assert w.history + [] == w.history;
    } else {
      var first := FailFlow(w.engine, doomed[0].0, doomed[0].1);
      FailFlowKeeps(w, doomed[0].0, doomed[0].1);
      var v := World(first.engine, w.traces, w.history + first.actions);
      FailManyKeeps(v, doomed[1..]);
      var rest := FailMany(first.engine, doomed[1..]);
      assert w.history + first.actions + rest.actions == w.history + (first.actions + rest.actions);
    }
  }

  // ---------------------------------------------------------------- a new flow

  lemma NewFlowOk(e: Engine, key: Key, s: Segment, now: nat, dns: bool)
    ensures var f := NewFlow(e, key, s, now, dns); var t := Trace(dns, s.sequence, [], 0, InitialSequence(f.id), [], 0);
            && Sane(e.config, f) && Follows(f, t) && AskedAll(f, t, [])
            && f.key == key && f.id == e.nextFlowId && f.dns == dns
  {
    hide InitialSequence;
  }

  lemma InsertKeeps(w: World, key: Key, s: Segment, now: nat, dns: bool, actions: seq<Action>)
    requires WorldInv(w) && key !in w.engine.flows && |w.engine.flows| < w.engine.config.maxFlows && Idle(actions)
    ensures var e := w.engine; var f := NewFlow(e, key, s, now, dns);
            WorldInv(World(Insert(e.(nextFlowId := e.nextFlowId + 1), f),
                           w.traces[f.id := Trace(dns, s.sequence, [], 0, InitialSequence(f.id), [], 0)], w.history + actions))
  {
    hide EngineInv, Follows, AskedAll, InitialSequence, Sane, NewFlow;
    var e, f := w.engine, NewFlow(w.engine, key, s, now, dns);
    var t := Trace(dns, s.sequence, [], 0, InitialSequence(f.id), [], 0);
    NewFlowOk(e, key, s, now, dns);
    InsertInv(e, f);
    IdleKeeps(w, actions);
    var e', traces, history := Insert(e.(nextFlowId := e.nextFlowId + 1), f), w.traces[f.id := t], w.history + actions;
    NoQueries(f.id, history);
    NoForwards(f.id, history);
    forall id | id in e'.ids ensures Knows(e', id) && Live(e', traces, history, id) {
      if id != f.id {
        assert Live(e, w.traces, history, id);
        assert id in w.traces;
      }
    }
  }
}
