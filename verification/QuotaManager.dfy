/** Admission of entry gateways: connection and session permits, and the quota record that lives exactly
    as long as one of them. */
module QuotaManager {
  import opened Options
  import opened Sets
  import opened Quota

  datatype Entry = Entry(connections: nat, sessions: nat, bucket: Bucket)

  datatype Manager = Manager(limits: Limits, entries: map<string, Entry>, draining: bool)

  datatype Refusal = Draining | ResourceExhausted | AuthenticationRejected | Backpressure

  datatype Reply = Granted | Refused(why: Refusal)

  datatype Done = Done(manager: Manager, reply: Reply)

  function Connect(m: Manager, id: string, now: nat): Done {
    if m.draining then Done(m, Refused(Draining))
    else if id !in m.entries && |m.entries| >= m.limits.maxEntries then Done(m, Refused(ResourceExhausted))
    else
      var e := if id in m.entries then m.entries[id] else Entry(0, 0, Bucket(m.limits.burst, now));
      if e.connections >= m.limits.maxConnections then Done(m.(entries := m.entries[id := e]), Refused(ResourceExhausted))
      else Done(m.(entries := m.entries[id := e.(connections := e.connections + 1)]), Granted)
  }

  function OpenSession(m: Manager, id: string): Done {
    if m.draining then Done(m, Refused(Draining))
    else if id !in m.entries then Done(m, Refused(AuthenticationRejected))
    else
      var e := m.entries[id];
      if e.sessions >= m.limits.maxSessions then Done(m, Refused(ResourceExhausted))
      else Done(m.(entries := m.entries[id := e.(sessions := e.sessions + 1)]), Granted)
  }

  function ChargeEntry(m: Manager, id: string, q: Request): Done
    requires id in m.entries ==> m.entries[id].bucket.lastRefill <= q.first <= q.second
  {
    if id !in m.entries then Done(m, Refused(AuthenticationRejected))
    else
      var e := m.entries[id];
      var b := Charge(m.limits, e.bucket, q.bytes, q.first, q.second);
      Done(m.(entries := m.entries[id := e.(bucket := b)]),
           if q.bytes > Refill(m.limits, e.bucket, q.first, q.second).available then Refused(Backpressure) else Granted)
  }

  function SaturatingLess(n: nat): nat {
    if n == 0 then 0 else n - 1
  }

  /** Dropping a permit; the record goes with the last one. */
  function Release(m: Manager, id: string, connection: bool): Manager {
    if id !in m.entries then m
    else
      var e := m.entries[id];
      var e := if connection then e.(connections := SaturatingLess(e.connections))
               else e.(sessions := SaturatingLess(e.sessions));
      if e.connections == 0 && e.sessions == 0 then m.(entries := m.entries - {id}) else m.(entries := m.entries[id := e])
  }

  // ---------------------------------------------------------------- permits in circulation

  /** The manager together with the permits its callers hold. */
  datatype World = World(manager: Manager, connections: map<string, nat>, sessions: map<string, nat>)

  function Held(permits: map<string, nat>, id: string): nat {
    if id in permits then permits[id] else 0
  }

  datatype Op =
    | Connects(id: string, now: nat)
    | Opens(id: string)
    | Charges(id: string, request: Request)
    | DropsConnection(id: string)
    | DropsSession(id: string)
    | Drains(on: bool)

  /** Only a permit that is held can be dropped; the clock does not go backwards. */
  predicate Possible(w: World, op: Op) {
    match op
    case DropsConnection(id) => Held(w.connections, id) > 0
    case DropsSession(id) => Held(w.sessions, id) > 0
    case Charges(id, q) => id in w.manager.entries ==> w.manager.entries[id].bucket.lastRefill <= q.first <= q.second
    case _ => true
  }

  function More(permits: map<string, nat>, id: string, reply: Reply): map<string, nat> {
    if reply.Granted? then permits[id := Held(permits, id) + 1] else permits
  }

  function Next(w: World, op: Op): World
    requires Possible(w, op)
  {
    match op
    case Connects(id, now) =>
      var r := Connect(w.manager, id, now);
      w.(manager := r.manager, connections := More(w.connections, id, r.reply))
    case Opens(id) =>
      var r := OpenSession(w.manager, id);
      w.(manager := r.manager, sessions := More(w.sessions, id, r.reply))
    case Charges(id, q) => w.(manager := ChargeEntry(w.manager, id, q).manager)
    case DropsConnection(id) =>
      w.(manager := Release(w.manager, id, true), connections := w.connections[id := w.connections[id] - 1])
    case DropsSession(id) =>
      w.(manager := Release(w.manager, id, false), sessions := w.sessions[id := w.sessions[id] - 1])
    case Drains(on) => w.(manager := w.manager.(draining := on))
  }

  /** The record of an entry counts exactly its permits and exists exactly while it has some. */
  ghost predicate Counts(w: World, id: string) {
    && (id in w.manager.entries <==> Held(w.connections, id) + Held(w.sessions, id) > 0)
    && (id in w.manager.entries ==>
          var e := w.manager.entries[id];
          && e.connections == Held(w.connections, id) <= w.manager.limits.maxConnections
          && e.sessions == Held(w.sessions, id) <= w.manager.limits.maxSessions
          && e.bucket.available <= w.manager.limits.burst)
  }

  ghost predicate WorldInv(w: World) {
    && ValidLimits(w.manager.limits) && |w.manager.entries| <= w.manager.limits.maxEntries
    && forall id :: Counts(w, id)
  }

  lemma FreshInv(limits: Limits)
    requires ValidLimits(limits)
    ensures WorldInv(World(Manager(limits, map[], false), map[], map[]))
  {
  }

  /** Only one entry is touched; its counts follow its permits. */
  lemma NextCounts(w: World, op: Op, id: string)
    requires WorldInv(w) && Possible(w, op)
    ensures Counts(Next(w, op), id)
  {
    hide Refill;
    assert Counts(w, id);
    if op.Charges? && op.id in w.manager.entries {
      assert Counts(w, op.id);
      RefillBounded(w.manager.limits, w.manager.entries[op.id].bucket, op.request.first, op.request.second);
    }
  }

  lemma RefillBounded(l: Limits, b: Bucket, first: nat, second: nat)
    requires b.lastRefill <= first <= second && b.available <= l.burst
    ensures Refill(l, b, first, second).available <= l.burst
  {
  }

  /** At most one record is added, and only below the limit. */
  lemma AddsOne(before: set<string>, after: set<string>, id: string, limit: nat)
    requires |before| <= limit && after <= before + {id} && (id in before || id !in after || |before| < limit)
    ensures |after| <= limit
  {
    if id in before || id !in after {
      SubsetSize(after, before);
    } else {
      SubsetSize(after, before + {id});
    }
  }

  lemma NextSize(w: World, op: Op)
    requires WorldInv(w) && Possible(w, op)
    ensures |Next(w, op).manager.entries| <= w.manager.limits.maxEntries
    ensures Next(w, op).manager.limits == w.manager.limits
  {
    hide Charge, Refill, Counts, Held, SaturatingLess;
    var before, after := w.manager.entries.Keys, Next(w, op).manager.entries.Keys;
    assert |before| == |w.manager.entries|;
    if !op.Drains? {
      AddsOne(before, after, op.id, w.manager.limits.maxEntries);
    }
    assert |after| == |Next(w, op).manager.entries|;
  }

  ghost predicate Run(limits: Limits, worlds: seq<World>, ops: seq<Op>) {
    && |worlds| == |ops| + 1 && worlds[0] == World(Manager(limits, map[], false), map[], map[])
    && forall i :: 0 <= i < |ops| ==> Possible(worlds[i], ops[i]) && worlds[i + 1] == Next(worlds[i], ops[i])
  }

  /** In every run each record counts its live permits exactly, so no release ever underflows, and all
      limits hold. */
  lemma {:induction false} RunInv(limits: Limits, worlds: seq<World>, ops: seq<Op>, k: nat)
    requires ValidLimits(limits) && Run(limits, worlds, ops) && k < |worlds|
    ensures WorldInv(worlds[k]) && worlds[k].manager.limits == limits
  {
    if k == 0 {
      FreshInv(limits);
    } else {
      RunInv(limits, worlds, ops, k - 1);
      hide Next;
      var w, op := worlds[k - 1], ops[k - 1];
      NextSize(w, op);
      forall id ensures Counts(worlds[k], id) {
        NextCounts(w, op, id);
      }
    }
  }

  // ---------------------------------------------------------------- the object

  class EntryQuotaManager {
    const limits: Limits
    var entries: map<string, Entry>
    var draining: bool

    ghost function View(): Manager
      reads this
    {
      Manager(limits, entries, draining)
    }

    constructor (limits: Limits)
      requires ValidLimits(limits)
      ensures View() == Manager(limits, map[], false)
    {
      this.limits := limits;
      entries, draining := map[], false;
    }

    static method Create(limits: Limits) returns (r: Option<EntryQuotaManager>)
      ensures limits.rate <= U64_MAX && limits.burst <= U64_MAX ==> (r.Some? <==> ValidLimits(limits))
      ensures r.Some? ==> fresh(r.value) && r.value.View() == Manager(limits, map[], false)
    {
      if limits.maxEntries == 0 || limits.maxConnections == 0 || limits.maxSessions == 0 || limits.rate == 0 || limits.burst == 0
         || limits.rate > U64_MAX || limits.burst > U64_MAX {
        return None;
      }
      var manager := new EntryQuotaManager(limits);
      r := Some(manager);
    }

    method SetDraining(on: bool)
      modifies this`draining
      ensures View() == old(View()).(draining := on)
    {
      draining := on;
    }

    method AcquireConnection(id: string, now: nat) returns (reply: Reply)
      modifies this`entries
      ensures Done(View(), reply) == Connect(old(View()), id, now)
    {
      if draining {
        return Refused(Draining);
      }
      if id !in entries && |entries| >= limits.maxEntries {
        return Refused(ResourceExhausted);
      }
      if id !in entries {
        entries := entries[id := Entry(0, 0, Bucket(limits.burst, now))];
      }
      var state := entries[id];
      if state.connections >= limits.maxConnections {
        assert entries[id := state] == entries;
        return Refused(ResourceExhausted);
      }
      entries := entries[id := state.(connections := state.connections + 1)];
      reply := Granted;
    }

    method AcquireSession(id: string) returns (reply: Reply)
      modifies this`entries
      ensures Done(View(), reply) == OpenSession(old(View()), id)
    {
      if draining {
        return Refused(Draining);
      }
      if id !in entries {
        return Refused(AuthenticationRejected);
      }
      var state := entries[id];
      if state.sessions >= limits.maxSessions {
        return Refused(ResourceExhausted);
      }
      entries := entries[id := state.(sessions := state.sessions + 1)];
      reply := Granted;
    }

    method ChargeBytes(id: string, bytes: nat, first: nat, second: nat) returns (reply: Reply)
      requires id in entries ==> entries[id].bucket.lastRefill <= first <= second
      modifies this`entries
      ensures Done(View(), reply) == ChargeEntry(old(View()), id, Request(bytes, first, second))
    {
      if id !in entries {
        return Refused(AuthenticationRejected);
      }
      var state := entries[id];
      var bucket := state.bucket;
      var elapsed := first - bucket.lastRefill;
      if elapsed >= TEN_MILLIS {
        var earned := limits.rate * elapsed / SECOND;
        if earned > U64_MAX {
          earned := U64_MAX;
        }
        var filled := bucket.available + earned;
        if filled > U64_MAX {
          filled := U64_MAX;
        }
        bucket := Bucket(if filled <= limits.burst then filled else limits.burst, second);
      }
      if bytes > bucket.available {
        entries := entries[id := state.(bucket := bucket)];
        return Refused(Backpressure);
      }
      entries := entries[id := state.(bucket := bucket.(available := bucket.available - bytes))];
      reply := Granted;
    }

    method ReleasePermit(id: string, connection: bool)
      modifies this`entries
      ensures View() == Release(old(View()), id, connection)
    {
      if id in entries {
        var state := entries[id];
        if connection {
          state := state.(connections := if state.connections == 0 then 0 else state.connections - 1);
        } else {
          state := state.(sessions := if state.sessions == 0 then 0 else state.sessions - 1);
        }
        if state.connections == 0 && state.sessions == 0 {
          entries := entries - {id};
        } else {
          entries := entries[id := state];
        }
      }
    }
  }
}
