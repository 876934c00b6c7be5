/**
 Every call that drops a flow asks to close both directions of its stream, and no call but the arrival
 of a packet asks to open, write or half-close one.
 */
module EngineCloses {
  import opened Bytes
  import opened Options
  import opened Sets
  import opened Packet
  import opened TcpFlow
  import opened TcpFlowTheorems
  import opened Engine
  import opened EngineInvariant

  /** An action that can fail and then fails its flow. */
  predicate Risky(a: Action) {
    a.OpenStream? || a.ForwardPayload? || a.CloseWrite?
  }

  predicate Light(a: Action) {
    !Risky(a) && !a.ResolveDns?
  }

  predicate AllLight(actions: seq<Action>) {
    forall a :: a in actions ==> Light(a)
  }

  /** No flow is new, no queue towards the gateway changes, and a flow that is gone is closed. */
  ghost predicate Mild(e: Engine, r: Done) {
    && (forall a :: a in r.actions ==> !Risky(a))
    && (forall a :: a in r.actions && a.SendTcp? && !a.segment.flags.rst ==> a.origin.Some? && Knows(e, a.origin.value))
    && (forall id :: Knows(r.engine, id) ==>
          Knows(e, id) && FlowOf(r.engine, id).queuedToGateway == FlowOf(e, id).queuedToGateway)
    && (forall id :: Knows(e, id) && !Knows(r.engine, id) ==> CloseBoth(id) in r.actions)
  }

  lemma OthersStay(e: Engine, r: Engine, id: nat, other: nat)
    requires TablesOk(e.flows, e.ids) && Knows(e, id) && r.flows == e.flows - {e.ids[id]} && r.ids == e.ids - {id}
    requires other != id
    ensures (Knows(r, other) <==> Knows(e, other)) && (Knows(e, other) ==> FlowOf(r, other) == FlowOf(e, other))
  {
  }

  lemma RemoveKnows(e: Engine, id: nat)
    requires EngineInv(e) && Knows(e, id)
    ensures var r := Remove(e, e.ids[id]);
            && EngineInv(r) && !Knows(r, id)
            && forall other :: other != id ==>
                 (Knows(r, other) <==> Knows(e, other)) && (Knows(e, other) ==> FlowOf(r, other) == FlowOf(e, other))
  {
    hide Sane, TargetsOk, AllSane, Below, TablesOk, Orphaned;
    RemoveInv(e, e.ids[id]);
    KnownFlow(e, id);
    var r := Remove(e, e.ids[id]);
    forall other | other != id
      ensures (Knows(r, other) <==> Knows(e, other)) && (Knows(e, other) ==> FlowOf(r, other) == FlowOf(e, other)) {
      OthersStay(e, r, id, other);
    }
  }

  lemma FailSays(f: Flow, id: nat, reason: Reason)
    requires f.id == id
    ensures AllLight(FailActions(f, reason)) && CloseBoth(id) in FailActions(f, reason) && |FailActions(f, reason)| == 3
    ensures forall a :: a in FailActions(f, reason) ==> (a.CloseBoth? ==> a.flow == id) && (a.SendTcp? ==> a.segment.flags.rst)
  {
    assert CloseBoth(id) == FailActions(f, reason)[2];
  }

  lemma FailMild(e: Engine, id: nat, reason: Reason)
    requires EngineInv(e)
    ensures var r := FailFlow(e, id, reason);
            && Mild(e, r) && EngineInv(r.engine) && !Knows(r.engine, id) && |r.actions| <= 3 && AllLight(r.actions)
            && (Knows(e, id) ==> CloseBoth(id) in r.actions)
            && (forall a :: a in r.actions ==> (a.CloseBoth? ==> a.flow == id) && (a.SendTcp? ==> a.segment.flags.rst))
            && (forall other :: other != id && Knows(e, other) ==>
                  Knows(r.engine, other) && FlowOf(r.engine, other) == FlowOf(e, other))
  {
    hide EngineInv, Remove, FailActions;
    if Knows(e, id) {
      KnownFlow(e, id);
      RemoveKnows(e, id);
      FailSays(FlowOf(e, id), id, reason);
    }
  }

  lemma {:induction false} FailManyMild(e: Engine, doomed: seq<(nat, Reason)>)
    requires EngineInv(e)
    ensures Mild(e, FailMany(e, doomed))
    decreases |doomed|
  {
    hide EngineInv, FailFlow;
    if doomed != [] {
      var first := FailFlow(e, doomed[0].0, doomed[0].1);
      FailMild(e, doomed[0].0, doomed[0].1);
      FailManyMild(first.engine, doomed[1..]);
    }
  }

  /** A flow changed in place. */
  lemma AppliedMild(e: Engine, id: nat, o: Outcome)
    requires EngineInv(e) && Knows(e, id) && !o.removed && o.flow.id == id && o.flow.key == e.ids[id]
    requires o.flow.queuedToGateway == FlowOf(e, id).queuedToGateway && AllLight(o.actions)
    requires forall a :: a in o.actions && a.SendTcp? ==> a.origin == Some(id)
    ensures Mild(e, Applied(e, e.ids[id], o))
    ensures forall other :: Knows(e, other) ==> Knows(Applied(e, e.ids[id], o).engine, other)
  {
    hide Sane, TargetsOk, AllSane, Asked;
    var r := Applied(e, e.ids[id], o);
    forall other | Knows(r.engine, other)
      ensures Knows(e, other) && FlowOf(r.engine, other).queuedToGateway == FlowOf(e, other).queuedToGateway {
    }
  }

  lemma OpensMild(e: Engine, id: nat, now: nat)
    requires EngineInv(e)
    ensures Mild(e, Opened(e, id, now)) && |Opened(e, id, now).actions| <= 1 && AllLight(Opened(e, id, now).actions)
    ensures forall other :: Knows(e, other) ==> Knows(Opened(e, id, now).engine, other)
  {
    hide EngineInv, Install;
    if Knows(e, id) {
      KnownFlow(e, id);
      AppliedMild(e, id, StreamOpened(e.config, FlowOf(e, id), now));
    }
  }

  lemma KnownFlow(e: Engine, id: nat)
    requires EngineInv(e) && Knows(e, id)
    ensures FlowOf(e, id).id == id && FlowOf(e, id).key == e.ids[id] && Sane(e.config, FlowOf(e, id))
  {
    hide Sane;
    Listed(e, e.ids[id]);
  }

  lemma SaysMild(e: Engine, id: nat, payload: seq<byte>, now: nat)
    requires EngineInv(e)
    ensures Mild(e, ProtectedPayload(e, id, payload, now))
  {
    hide EngineInv, Install, FailFlow;
    if Knows(e, id) {
      KnownFlow(e, id);
      if payload != [] && Accepts(e.config, FlowOf(e, id), payload) {
        AppliedMild(e, id, StreamPayload(e.config, FlowOf(e, id), payload, now));
      }
      FailMild(e, id, Backpressure);
    }
  }

  /** A read of a known flow is delivered without failing the flow if and only if it is within the capacity. */
  lemma CapacityExact(e: Engine, id: nat, payload: seq<byte>, now: nat)
    requires EngineInv(e) && Knows(e, id) && payload != []
    ensures Knows(ProtectedPayload(e, id, payload, now).engine, id) <==> |payload| <= ReadCapacity(e, id)
  {
    hide EngineInv, Install, FailFlow;
    KnownFlow(e, id);
    FailMild(e, id, Backpressure);
    if Accepts(e.config, FlowOf(e, id), payload) {
      AppliedMild(e, id, StreamPayload(e.config, FlowOf(e, id), payload, now));
    }
  }

  lemma EndsMild(e: Engine, id: nat, now: nat)
    requires EngineInv(e)
    ensures Mild(e, ProtectedClosed(e, id, now))
  {
    hide EngineInv, Install, FailFlow;
    if Knows(e, id) {
      KnownFlow(e, id);
      if Receptive(FlowOf(e, id)) {
        AppliedMild(e, id, StreamClosed(e.config, FlowOf(e, id), now));
      }
      FailMild(e, id, DownstreamFailure);
    }
  }

  lemma PendingLess(e: Engine, query: nat)
    requires EngineInv(e) && query in e.pending
    ensures EngineInv(e.(pending := e.pending - {query}))
  {
    hide TablesOk, AllSane;
    SubsetSize((e.pending - {query}).Keys, e.pending.Keys);
  }

  lemma AnswersMild(e: Engine, query: nat, wire: seq<byte>, now: nat)
    requires EngineInv(e)
    ensures Mild(e, CompleteDns(e, query, wire, now))
    ensures |CompleteDns(e, query, wire, now).actions| <= 3 && AllLight(CompleteDns(e, query, wire, now).actions)
  {
    hide EngineInv, Install, FailFlow, Framed;
    if query in e.pending {
      PendingLess(e, query);
      var target, e' := e.pending[query], e.(pending := e.pending - {query});
      if target.TcpTarget? {
        FailMild(e', target.flow, DownstreamFailure);
        FailMild(e', target.flow, Backpressure);
        if Knows(e', target.flow) && Accepts(e'.config, FlowOf(e', target.flow), Framed(wire)) {
          KnownFlow(e', target.flow);
          AppliedMild(e', target.flow, StreamPayload(e'.config, FlowOf(e', target.flow), Framed(wire), now));
        }
      }
    }
  }

  lemma {:induction false} RetransmissionsLight(c: Config, flows: map<Key, Flow>, order: seq<Key>, now: nat)
    requires forall k :: k in order ==> k in flows
    ensures AllLight(Retransmissions(c, flows, order, now))
    ensures forall a :: a in Retransmissions(c, flows, order, now) && a.SendTcp? ==>
              exists k :: k in flows && a.origin == Some(flows[k].id)
  {
    if order != [] {
      assert order[0] in order;
      RetransmissionsLight(c, flows, order[1..], now);
    }
  }

  ghost predicate SameQueues(e: Engine, e': Engine) {
    forall id ::
      && (Knows(e', id) <==> Knows(e, id))
      && (Knows(e, id) ==> FlowOf(e', id).queuedToGateway == FlowOf(e, id).queuedToGateway)
  }

  lemma MildAfter(e: Engine, e': Engine, first: seq<Action>, r: Done)
    requires SameQueues(e, e') && Mild(e', r) && AllLight(first)
    requires forall a :: a in first && a.SendTcp? ==> a.origin.Some? && Knows(e, a.origin.value)
    ensures Mild(e, Done(r.engine, first + r.actions))
  {
    hide Knows, FlowOf;
  }

  lemma TickedQueues(e: Engine, now: nat)
    ensures SameQueues(e, AllTicked(e, now))
  {
    hide Expiry;
  }

  lemma TickMild(e: Engine, now: nat, order: seq<Key>)
    requires EngineInv(e) && EngineInv(AllTicked(e, now)) && forall k :: k in order ==> k in e.flows
    ensures Mild(e, Tick(e, now, order))
  {
    hide EngineInv, FailMany, Retransmissions, Expired, Mild, AllTicked, SameQueues, Ticked;
    if e.suspendedAt.Some? {
      MildNothing(e);
    } else {
      var e', doomed := AllTicked(e, now), Expired(e.config, e.flows, order, now);
      FailManyMild(e', doomed);
      RetransmissionsLight(e.config, e.flows, order, now);
      forall k | k in e.flows ensures Knows(e, e.flows[k].id) {
        Listed(e, k);
      }
      TickedQueues(e, now);
      MildAfter(e, e', Retransmissions(e.config, e.flows, order, now), FailMany(e', doomed));
    }
  }

  lemma MildNothing(e: Engine)
    ensures Mild(e, Done(e, []))
  {
  }

  lemma ResumeMild(e: Engine, now: nat, healthy: bool, order: seq<nat>)
    requires EngineInv(e)
    ensures Mild(e, Resume(e, now, healthy, order))
  {
    hide Sane, TablesOk, TargetsOk, FailMany;
    FailManyMild(e.(suspendedAt := None), Doom(order, ProtectedPathUnavailable));
  }

  lemma FailAllMild(e: Engine, reason: Reason, order: seq<nat>)
    requires EngineInv(e)
    ensures Mild(e, FailAll(e, reason, order))
  {
    hide Sane, TablesOk, FailMany;
    FailManyMild(e.(pending := map[]), Doom(order, reason));
  }

  lemma StopMild(e: Engine, order: seq<nat>)
    requires EngineInv(e)
    ensures Mild(e, Stop(e, order))
  {
    hide Sane, TablesOk, TargetsOk, FailAll;
    FailAllMild(e.(accepting := false), Shutdown, order);
  }

  /** A successful write empties the flow's queue; a closing flow with nothing outstanding is dropped. */
  lemma TookShape(e: Engine, id: nat, bytes: nat, now: nat)
    requires EngineInv(e) && Knows(e, id)
    ensures var f := FlowOf(e, id); var r := AcknowledgeForwarded(e, id, bytes, now);
            && (forall other :: other != id ==> (Knows(r.engine, other) <==> Knows(e, other))
                                                && (Knows(e, other) ==> FlowOf(r.engine, other) == FlowOf(e, other)))
            && (Knows(r.engine, id) ==>
                  && FlowOf(r.engine, id).state == f.state
                  && FlowOf(r.engine, id).queuedToGateway == Since(f.queuedToGateway, bytes))
            && (!Knows(r.engine, id) ==> f.state.Closing?)
            && |r.actions| == 1 && r.actions[0].SendTcp? && r.actions[0].origin == Some(id)
  {
    hide EngineInv, Install, Sane;
    var key, o := e.ids[id], Forwarded(e.config, FlowOf(e, id), bytes, now);
    KnownFlow(e, id);
    ForwardedSane(e.config, FlowOf(e, id), bytes, now);
    InstallInv(e, key, o);
    var r := Install(e, key, o);
    forall other | other != id
      ensures (Knows(r, other) <==> Knows(e, other)) && (Knows(e, other) ==> FlowOf(r, other) == FlowOf(e, other)) {
      OthersApart(e, id, other);
    }
  }

  lemma OthersApart(e: Engine, id: nat, other: nat)
    requires EngineInv(e) && Knows(e, id) && id != other
    ensures other in e.ids ==> e.ids[other] in e.flows && e.ids[other] != e.ids[id]
  {
    hide Sane, TargetsOk, AllSane, Below;
    assert e.flows[e.ids[id]].id == id;
  }

  lemma ForwardedSane(c: Config, f: Flow, bytes: nat, now: nat)
    requires Sane(c, f)
    ensures var o := Forwarded(c, f, bytes, now);
            Sane(c, o.flow) && o.flow.id == f.id && o.flow.key == f.key && o.flow.dns == f.dns
  {
  }
}
