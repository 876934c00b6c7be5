/** The tables of the engine stay consistent and within their limits under every call. */
module EngineInvariant {
  import opened Bytes
  import opened Options
  import opened Sets
  import opened Packet
  import opened TcpFlow
  import opened TcpFlowTheorems
  import opened Engine

  ghost predicate TablesOk(flows: map<Key, Flow>, ids: map<nat, Key>) {
    && (forall k :: k in flows ==> flows[k].key == k && flows[k].id in ids && ids[flows[k].id] == k)
    && (forall id :: id in ids ==> ids[id] in flows && flows[ids[id]].id == id)
  }

  predicate ServesDns(flows: map<Key, Flow>, ids: map<nat, Key>, id: nat) {
    id in ids && ids[id] in flows && flows[ids[id]].dns
  }

  ghost predicate TargetsOk(pending: map<nat, DnsTarget>, flows: map<Key, Flow>, ids: map<nat, Key>) {
    forall q :: q in pending && pending[q].TcpTarget? ==> ServesDns(flows, ids, pending[q].flow)
  }

  ghost predicate Below(ids: set<nat>, bound: nat) {
    forall id :: id in ids ==> id < bound
  }

  ghost predicate AllSane(c: Config, flows: map<Key, Flow>) {
    forall k :: k in flows ==> Sane(c, flows[k])
  }

  ghost predicate EngineInv(e: Engine) {
    && ValidConfig(e.config)
    && TablesOk(e.flows, e.ids)
    && Below(e.ids.Keys, e.nextFlowId) && Below(e.pending.Keys, e.nextDnsId)
    && |e.flows| <= e.config.maxFlows && |e.pending| <= e.config.maxPendingDns
    && TargetsOk(e.pending, e.flows, e.ids)
    && AllSane(e.config, e.flows)
  }

  lemma FreshInv(c: Config)
    requires ValidConfig(c)
    ensures EngineInv(Fresh(c))
  {
  }

  // ---------------------------------------------------------------- sizes

  lemma AskedSize(pending: map<nat, DnsTarget>, firstId: nat, count: nat, id: nat)
    requires forall q :: q in pending ==> q < firstId
    ensures |Asked(pending, firstId, count, id)| == |pending| + count
  {
    var added := set q: nat | q < firstId + count && AtLeast(q, firstId);
    RangeSize(firstId, firstId + count, added);
    assert Asked(pending, firstId, count, id).Keys == pending.Keys + added;
  }

  lemma OrphanedSize(pending: map<nat, DnsTarget>, id: nat)
    ensures |Orphaned(pending, id)| <= |pending|
  {
    SubsetSize(Orphaned(pending, id).Keys, pending.Keys);
  }

  // ---------------------------------------------------------------- the table operations

  lemma RemoveTables(flows: map<Key, Flow>, ids: map<nat, Key>, pending: map<nat, DnsTarget>, key: Key, id: nat)
    requires TablesOk(flows, ids) && key in flows && id == flows[key].id
    ensures TablesOk(flows - {key}, ids - {id})
    ensures |flows - {key}| == |flows| - 1
  {
    assert (flows - {key}).Keys == flows.Keys - {key};
  }

  lemma RemoveTargets(flows: map<Key, Flow>, ids: map<nat, Key>, pending: map<nat, DnsTarget>, key: Key, id: nat)
    requires TablesOk(flows, ids) && key in flows && id == flows[key].id && TargetsOk(pending, flows, ids)
    ensures TargetsOk(Orphaned(pending, id), flows - {key}, ids - {id})
  {
  }

  lemma RemoveInv(e: Engine, key: Key)
    requires EngineInv(e) && key in e.flows
    ensures EngineInv(Remove(e, key))
  {
    hide TablesOk, TargetsOk, Sane;
    var id := e.flows[key].id;
    RemoveTables(e.flows, e.ids, e.pending, key, id);
    RemoveTargets(e.flows, e.ids, e.pending, key, id);
    OrphanedSize(e.pending, id);
  }

  lemma InsertTables(flows: map<Key, Flow>, ids: map<nat, Key>, f: Flow)
    requires TablesOk(flows, ids) && f.key !in flows && f.id !in ids
    ensures TablesOk(flows[f.key := f], ids[f.id := f.key])
    ensures |flows[f.key := f]| == |flows| + 1
  {
    assert (flows[f.key := f]).Keys == flows.Keys + {f.key};
  }

  lemma InsertTargets(flows: map<Key, Flow>, ids: map<nat, Key>, pending: map<nat, DnsTarget>, f: Flow)
    requires TablesOk(flows, ids) && f.key !in flows && f.id !in ids && TargetsOk(pending, flows, ids)
    ensures TargetsOk(pending, flows[f.key := f], ids[f.id := f.key])
  {
  }

  lemma InsertInv(e: Engine, f: Flow)
    requires EngineInv(e) && f.key !in e.flows && f.id == e.nextFlowId && |e.flows| < e.config.maxFlows
    requires Sane(e.config, f)
    ensures EngineInv(Insert(e.(nextFlowId := e.nextFlowId + 1), f))
  {
    hide TablesOk, TargetsOk, Sane;
    InsertTables(e.flows, e.ids, f);
    InsertTargets(e.flows, e.ids, e.pending, f);
  }

  /** The flow keeps its place, its kind and, if it stays, its sanity. */
  ghost predicate Proper(e: Engine, key: Key, o: Outcome) {
    && key in e.flows
    && o.flow.id == e.flows[key].id && o.flow.key == key && o.flow.dns == e.flows[key].dns
    && (!o.removed ==> Sane(e.config, o.flow))
    && |o.queries| <= Room(e)
    && (o.queries != [] ==> o.flow.dns)
  }

  lemma UpdateTables(flows: map<Key, Flow>, ids: map<nat, Key>, pending: map<nat, DnsTarget>, key: Key, f: Flow)
    requires TablesOk(flows, ids) && key in flows && f.id == flows[key].id && f.key == key && f.dns == flows[key].dns
    ensures TablesOk(flows[key := f], ids)
    ensures |flows[key := f]| == |flows|
    ensures TargetsOk(pending, flows, ids) ==> TargetsOk(pending, flows[key := f], ids)
  {
    assert (flows[key := f]).Keys == flows.Keys;
  }

  lemma AskedTargets(flows: map<Key, Flow>, ids: map<nat, Key>, pending: map<nat, DnsTarget>, firstId: nat, count: nat,
                     id: nat)
    requires TargetsOk(pending, flows, ids) && (count > 0 ==> ServesDns(flows, ids, id)) && Below(pending.Keys, firstId)
    ensures TargetsOk(Asked(pending, firstId, count, id), flows, ids)
    ensures Below(Asked(pending, firstId, count, id).Keys, firstId + count)
  {
  }

  lemma Listed(e: Engine, key: Key)
    requires EngineInv(e) && key in e.flows
    ensures e.flows[key].id in e.ids && e.ids[e.flows[key].id] == key && e.flows[key].id < e.nextFlowId
    ensures Knows(e, e.flows[key].id) && FlowOf(e, e.flows[key].id) == e.flows[key]
    ensures e.flows[key].key == key && Sane(e.config, e.flows[key])
  {
    hide Sane;
    assert e.flows[key].id in e.ids.Keys;
  }

  /** The tables after writing the flow back, before any removal. */
  lemma InstalledOk(e: Engine, key: Key, o: Outcome)
    requires EngineInv(e) && Proper(e, key, o)
    ensures var flows := e.flows[key := o.flow]; var pending := Asked(e.pending, e.nextDnsId, |o.queries|, o.flow.id);
            && TablesOk(flows, e.ids) && |flows| == |e.flows| && TargetsOk(pending, flows, e.ids)
            && Below(pending.Keys, e.nextDnsId + |o.queries|) && |pending| <= e.config.maxPendingDns
  {
    Listed(e, key);
    hide TablesOk, TargetsOk, Sane, Asked, AllSane;
    var flows := e.flows[key := o.flow];
    UpdateTables(e.flows, e.ids, e.pending, key, o.flow);
    AskedTargets(flows, e.ids, e.pending, e.nextDnsId, |o.queries|, o.flow.id);
    AskedSize(e.pending, e.nextDnsId, |o.queries|, o.flow.id);
  }

  /** The tables after a removal. */
  lemma RemovedOk(flows: map<Key, Flow>, ids: map<nat, Key>, pending: map<nat, DnsTarget>, key: Key, id: nat,
                  bound: nat)
    requires TablesOk(flows, ids) && key in flows && id == flows[key].id && TargetsOk(pending, flows, ids)
    requires Below(pending.Keys, bound)
    ensures TablesOk(flows - {key}, ids - {id}) && |flows - {key}| == |flows| - 1
    ensures TargetsOk(Orphaned(pending, id), flows - {key}, ids - {id})
    ensures Below(Orphaned(pending, id).Keys, bound) && |Orphaned(pending, id)| <= |pending|
  {
    hide TablesOk, TargetsOk, Below, Orphaned;
    RemoveTables(flows, ids, pending, key, id);
    RemoveTargets(flows, ids, pending, key, id);
    OrphanedSize(pending, id);
    OrphanedBelow(pending, id, bound);
  }

  lemma InstallShape(e: Engine, key: Key, o: Outcome)
    requires key in e.flows
    ensures var r := Install(e, key, o); var pending := Asked(e.pending, e.nextDnsId, |o.queries|, o.flow.id);
            && r.config == e.config && r.nextFlowId == e.nextFlowId && r.nextDnsId == e.nextDnsId + |o.queries|
            && (if o.removed then
                  && r.flows == e.flows[key := o.flow] - {key} == e.flows - {key}
                  && r.ids == e.ids - {o.flow.id} && r.pending == Orphaned(pending, o.flow.id)
                else r.flows == e.flows[key := o.flow] && r.ids == e.ids && r.pending == pending)
  {
    hide Asked, Orphaned;
    assert e.flows[key := o.flow] - {key} == e.flows - {key};
  }

  lemma InstallInv(e: Engine, key: Key, o: Outcome)
    requires EngineInv(e) && Proper(e, key, o)
    ensures EngineInv(Install(e, key, o))
    ensures var r := Install(e, key, o);
            && r.config == e.config && r.nextFlowId == e.nextFlowId
            && (if o.removed then r.flows == e.flows - {key} && r.ids == e.ids - {o.flow.id}
                else r.flows == e.flows[key := o.flow] && r.ids == e.ids)
  {
    hide TablesOk, TargetsOk, Sane, Asked, Orphaned, Install;
    InstalledOk(e, key, o);
    InstallShape(e, key, o);
    if o.removed {
      RemovedOk(e.flows[key := o.flow], e.ids, Asked(e.pending, e.nextDnsId, |o.queries|, o.flow.id), key, o.flow.id,
                e.nextDnsId + |o.queries|);
    }
  }

  lemma OrphanedBelow(pending: map<nat, DnsTarget>, id: nat, bound: nat)
    requires Below(pending.Keys, bound)
    ensures Below(Orphaned(pending, id).Keys, bound)
  {
  }
}
