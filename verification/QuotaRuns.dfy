/**
 How many bytes an entry is granted in a run of the quota manager. A record bounds them by its burst and the
 rate; a record lives as long as one permit of its entry, and every new record brings a new burst.
 */
module QuotaRuns {
  import opened Options
  import opened Quota
  import opened QuotaManager

  // ---------------------------------------------------------------- bytes granted

  /** Bytes granted to an entry by one operation. */
  function Gain(w: World, op: Op, id: string): nat
    requires Possible(w, op)
  {
    if op.Charges? && op.id == id && ChargeEntry(w.manager, id, op.request).reply.Granted? then op.request.bytes else 0
  }

  /** Bytes granted to an entry by the operations from i on, before k. */
  function GrantedTo(worlds: seq<World>, ops: seq<Op>, id: string, i: nat, k: nat): nat
    requires i <= k <= |ops| <= |worlds| && forall j :: 0 <= j < |ops| ==> Possible(worlds[j], ops[j])
    decreases k
  {
    if i == k then 0 else GrantedTo(worlds, ops, id, i, k - 1) + Gain(worlds[k - 1], ops[k - 1], id)
  }

  /** The entry has a record from i up to k. */
  predicate Kept(worlds: seq<World>, id: string, i: nat, k: nat) {
    i <= k < |worlds| && forall j :: i <= j <= k ==> id in worlds[j].manager.entries
  }

  function BucketOf(w: World, id: string): Bucket
    requires id in w.manager.entries
  {
    w.manager.entries[id].bucket
  }

  /** While a record lives only a charge of its entry touches the bucket. */
  lemma BucketStep(w: World, op: Op, id: string)
    requires Possible(w, op) && id in w.manager.entries && id in Next(w, op).manager.entries
    ensures if op.Charges? && op.id == id then
              var q, b := op.request, BucketOf(w, id);
              && BucketOf(Next(w, op), id) == Charge(w.manager.limits, b, q.bytes, q.first, q.second)
              && Gain(w, op, id) == Charged(w.manager.limits, b, q.bytes, q.first, q.second)
            else BucketOf(Next(w, op), id) == BucketOf(w, id) && Gain(w, op, id) == 0
  {
    hide Charge, Refill, Charged;
    if op.Charges? && op.id == id {
      ChargedIs(w.manager.limits, BucketOf(w, id), op.request);
    }
  }

  lemma ChargedIs(l: Limits, b: Bucket, q: Request)
    requires b.lastRefill <= q.first <= q.second
    ensures Charged(l, b, q.bytes, q.first, q.second)
         == if q.bytes > Refill(l, b, q.first, q.second).available then 0 else q.bytes
  {
  }

  // ---------------------------------------------------------------- one record

  lemma {:induction false} RunPaid(limits: Limits, worlds: seq<World>, ops: seq<Op>, id: string, i: nat, k: nat,
                                   start: nat, charged: nat)
    requires ValidLimits(limits) && Run(limits, worlds, ops) && Kept(worlds, id, i, k)
    requires Paid(limits, BucketOf(worlds[i], id), start, charged)
    ensures Paid(limits, BucketOf(worlds[k], id), start, charged + GrantedTo(worlds, ops, id, i, k))
  {
    hide Next, Gain, Charge, Charged, Paid, BucketOf;
    if i < k {
      var w, op := worlds[k - 1], ops[k - 1];
      RunPaid(limits, worlds, ops, id, i, k - 1, start, charged);
      Bounded(limits, worlds, ops, id, k - 1);
      assert worlds[k - 1 + 1] == Next(w, op);
      BucketStep(w, op, id);
      if op.Charges? && op.id == id {
        ChargePaid(limits, BucketOf(w, id), start, charged + GrantedTo(worlds, ops, id, i, k - 1),
                   op.request.bytes, op.request.first, op.request.second);
      }
    }
  }

  lemma PaidBound(l: Limits, b: Bucket, start: nat, charged: nat, now: nat)
    requires Paid(l, b, start, charged) && b.lastRefill <= now
    ensures SECOND * charged <= SECOND * l.burst + l.rate * (now - start)
  {
    RateSplits(l.rate, start, b.lastRefill, now);
  }

  /** While the record of an entry is kept, the bytes granted since its creation never exceed the burst plus
      the rate times the time elapsed. */
  lemma GrantedSinceCreation(limits: Limits, worlds: seq<World>, ops: seq<Op>, id: string, i: nat, k: nat,
                             created: nat, now: nat)
    requires ValidLimits(limits) && Run(limits, worlds, ops) && i < |ops| && ops[i] == Connects(id, created)
    requires id !in worlds[i].manager.entries && Kept(worlds, id, i + 1, k) && BucketOf(worlds[k], id).lastRefill <= now
    ensures SECOND * GrantedTo(worlds, ops, id, i, k) <= SECOND * limits.burst + limits.rate * (now - created)
  {
    hide BucketOf, Gain, Next, Paid;
    RunInv(limits, worlds, ops, i);
    assert worlds[i + 1] == Next(worlds[i], ops[i]);
    NewBucket(worlds[i], id, created);
    NewPaid(limits, created);
    RunPaid(limits, worlds, ops, id, i + 1, k, created, 0);
    SkipFirst(worlds, ops, id, i, k);
    hide GrantedTo;
    PaidBound(limits, BucketOf(worlds[k], id), created, GrantedTo(worlds, ops, id, i + 1, k), now);
  }

  lemma NewBucket(w: World, id: string, created: nat)
    requires id !in w.manager.entries && id in Next(w, Connects(id, created)).manager.entries
    ensures BucketOf(Next(w, Connects(id, created)), id) == Bucket(w.manager.limits.burst, created)
    ensures Gain(w, Connects(id, created), id) == 0
  {
  }

  lemma NewPaid(l: Limits, created: nat)
    ensures Paid(l, Bucket(l.burst, created), created, 0)
  {
  }

  lemma {:induction false} SkipFirst(worlds: seq<World>, ops: seq<Op>, id: string, i: nat, k: nat)
    requires i < k <= |ops| <= |worlds| && forall j :: 0 <= j < |ops| ==> Possible(worlds[j], ops[j])
    ensures GrantedTo(worlds, ops, id, i, k) == Gain(worlds[i], ops[i], id) + GrantedTo(worlds, ops, id, i + 1, k)
  {
    hide Gain;
    if i + 1 < k {
      SkipFirst(worlds, ops, id, i, k - 1);
    }
  }

  /** In any interval in which the record is kept, the bytes granted exceed the burst by at most the rate
      times the interval and ten milliseconds, despite the rounding and the skipped refills. */
  lemma GrantedInInterval(limits: Limits, worlds: seq<World>, ops: seq<Op>, id: string, i: nat, k: nat, now: nat)
    requires ValidLimits(limits) && Run(limits, worlds, ops) && i < k && i < |ops| && ops[i].Charges? && ops[i].id == id
    requires Kept(worlds, id, i, k) && BucketOf(worlds[k], id).lastRefill <= now && ops[i].request.first <= now
    ensures SECOND * GrantedTo(worlds, ops, id, i, k)
         <= SECOND * limits.burst + limits.rate * (now - ops[i].request.first + TEN_MILLIS)
  {
    hide Next, Gain, Charge, Charged, Refill, BucketOf;
    var w, q := worlds[i], ops[i].request;
    Bounded(limits, worlds, ops, id, i);
    var b := BucketOf(w, id);
    FirstPaid(limits, b, q);
    var mark, first := Refill(limits, b, q.first, q.second).lastRefill, Charged(limits, b, q.bytes, q.first, q.second);
    assert worlds[i + 1] == Next(w, ops[i]);
    BucketStep(w, ops[i], id);
    RunPaid(limits, worlds, ops, id, i + 1, k, mark, first);
    SkipFirst(worlds, ops, id, i, k);
    hide GrantedTo, Run;
    var total, refilled := first + GrantedTo(worlds, ops, id, i + 1, k), BucketOf(worlds[k], id).lastRefill;
    EndOfInterval(limits, mark, q.first, now, refilled, total);
  }

  lemma Bounded(limits: Limits, worlds: seq<World>, ops: seq<Op>, id: string, i: nat)
    requires ValidLimits(limits) && Run(limits, worlds, ops) && i < |ops| && id in worlds[i].manager.entries
    ensures BucketOf(worlds[i], id).available <= limits.burst && worlds[i].manager.limits == limits
    ensures ops[i].Charges? && ops[i].id == id ==>
              BucketOf(worlds[i], id).lastRefill <= ops[i].request.first <= ops[i].request.second
  {
    hide Next;
    RunInv(limits, worlds, ops, i);
    assert Counts(worlds[i], id);
  }

  // ---------------------------------------------------------------- all records of one entry

  predicate ReadsClock(op: Op) {
    op.Connects? || op.Charges?
  }

  function FirstReading(op: Op): nat
    requires ReadsClock(op)
  {
    if op.Connects? then op.now else op.request.first
  }

  function SecondReading(op: Op): nat
    requires ReadsClock(op)
  {
    if op.Connects? then op.now else op.request.second
  }

  /** The last clock reading before k. */
  function Clock(ops: seq<Op>, k: nat, from: nat): nat
    requires k <= |ops|
  {
    if k == 0 then from
    else if ReadsClock(ops[k - 1]) then SecondReading(ops[k - 1])
    else Clock(ops, k - 1, from)
  }

  /** The clock never goes backwards. */
  predicate Clocked(ops: seq<Op>, from: nat) {
    forall k :: 0 <= k < |ops| && ReadsClock(ops[k]) ==>
      Clock(ops, k, from) <= FirstReading(ops[k]) <= SecondReading(ops[k])
  }

  predicate Creates(w: World, op: Op, id: string)
    requires Possible(w, op)
  {
    id !in w.manager.entries && id in Next(w, op).manager.entries
  }

  /** How many records the entry has had before k. */
  function Records(worlds: seq<World>, ops: seq<Op>, id: string, k: nat): nat
    requires k <= |ops| <= |worlds| && forall j :: 0 <= j < |ops| ==> Possible(worlds[j], ops[j])
  {
    if k == 0 then 0 else Records(worlds, ops, id, k - 1) + if Creates(worlds[k - 1], ops[k - 1], id) then 1 else 0
  }

  /** What has been granted and what the record still holds is covered by one burst for every record and
      the rate up to the last refill. */
  ghost predicate Covered(l: Limits, w: World, id: string, records: nat, granted: nat, from: nat, clock: nat) {
    if id in w.manager.entries then
      var b := BucketOf(w, id);
      && from <= b.lastRefill <= clock && b.available <= l.burst
      && SECOND * (granted + b.available) <= SECOND * (l.burst * records) + l.rate * (b.lastRefill - from)
    else from <= clock && SECOND * granted <= SECOND * (l.burst * records) + l.rate * (clock - from)
  }

  lemma OneMore(burst: nat, records: nat)
    ensures burst * (records + 1) == burst * records + burst
  {
  }

  lemma CoveredCharge(l: Limits, w: World, q: Request, id: string, records: nat, granted: nat, from: nat, clock: nat)
    requires id in w.manager.entries && w.manager.limits == l && Covered(l, w, id, records, granted, from, clock)
    requires clock <= q.first <= q.second && Possible(w, Charges(id, q))
    ensures Covered(l, Next(w, Charges(id, q)), id, records, granted + Gain(w, Charges(id, q), id), from, q.second)
  {
    var b := BucketOf(w, id);
    var all := l.burst * records;
    BucketStep(w, Charges(id, q), id);
    hide Gain, Next;
    if q.first - b.lastRefill >= TEN_MILLIS {
      EarnedBound(l.rate, q.first - b.lastRefill);
      RateSplits(l.rate, from, b.lastRefill, q.second);
      RateSplits(l.rate, b.lastRefill, q.first, q.second);
      assert Refill(l, b, q.first, q.second).available <= b.available + Earned(l.rate, q.first - b.lastRefill);
    }
  }

  lemma CoveredConnect(l: Limits, w: World, now: nat, id: string, records: nat, granted: nat, from: nat, clock: nat)
    requires w.manager.limits == l && Covered(l, w, id, records, granted, from, clock) && clock <= now
    ensures var w' := Next(w, Connects(id, now));
            Covered(l, w', id, records + if Creates(w, Connects(id, now), id) then 1 else 0, granted, from, now)
  {
    OneMore(l.burst, records);
    if id !in w.manager.entries {
      RateSplits(l.rate, from, clock, now);
    }
  }

  /** Nothing happens to the entry but that its record may go. */
  lemma CoveredOther(l: Limits, w: World, w': World, id: string, records: nat, granted: nat, from: nat, clock: nat,
                     clock': nat)
    requires Covered(l, w, id, records, granted, from, clock) && clock <= clock'
    requires id in w'.manager.entries ==> id in w.manager.entries && BucketOf(w', id) == BucketOf(w, id)
    ensures Covered(l, w', id, records, granted, from, clock')
  {
    if id in w.manager.entries {
      RateSplits(l.rate, from, BucketOf(w, id).lastRefill, clock');
    } else {
      RateSplits(l.rate, from, clock, clock');
    }
  }

  lemma CoveredStep(l: Limits, w: World, op: Op, id: string, records: nat, granted: nat, from: nat, clock: nat)
    requires w.manager.limits == l && Possible(w, op) && Covered(l, w, id, records, granted, from, clock)
    requires ReadsClock(op) ==> clock <= FirstReading(op) <= SecondReading(op)
    ensures Covered(l, Next(w, op), id, records + (if Creates(w, op, id) then 1 else 0), granted + Gain(w, op, id), from,
                    if ReadsClock(op) then SecondReading(op) else clock)
  {
    hide Covered, Refill, Charge;
    if op.Charges? && op.id == id && id in w.manager.entries {
      CoveredCharge(l, w, op.request, id, records, granted, from, clock);
    } else if op.Connects? && op.id == id {
      CoveredConnect(l, w, op.now, id, records, granted, from, clock);
    } else {
      CoveredOther(l, w, Next(w, op), id, records, granted, from, clock,
                   if ReadsClock(op) then SecondReading(op) else clock);
    }
  }

  lemma {:induction false} RunCovered(limits: Limits, worlds: seq<World>, ops: seq<Op>, id: string, k: nat, from: nat)
    requires ValidLimits(limits) && Run(limits, worlds, ops) && Clocked(ops, from) && k < |worlds|
    ensures Covered(limits, worlds[k], id, Records(worlds, ops, id, k), GrantedTo(worlds, ops, id, 0, k),
                    from, Clock(ops, k, from))
  {
    hide Next, Gain, Creates, SecondReading, FirstReading;
    if k > 0 {
      RunCovered(limits, worlds, ops, id, k - 1, from);
      assert worlds[k - 1].manager.limits == limits by { RunInv(limits, worlds, ops, k - 1); }
      assert worlds[k - 1 + 1] == Next(worlds[k - 1], ops[k - 1]);
      hide Covered;
      CoveredStep(limits, worlds[k - 1], ops[k - 1], id, Records(worlds, ops, id, k - 1), GrantedTo(worlds, ops, id, 0, k - 1),
                  from, Clock(ops, k - 1, from));
    }
  }

  /** In every run the bytes granted to an entry are at most one burst for every record it has had plus the
      rate times the time elapsed. */
  lemma GrantedEver(limits: Limits, worlds: seq<World>, ops: seq<Op>, id: string, k: nat, from: nat)
    requires ValidLimits(limits) && Run(limits, worlds, ops) && Clocked(ops, from) && k < |worlds|
    ensures from <= Clock(ops, k, from)
    ensures SECOND * GrantedTo(worlds, ops, id, 0, k)
         <= SECOND * (limits.burst * Records(worlds, ops, id, k)) + limits.rate * (Clock(ops, k, from) - from)
  {
    hide Next, Clocked, GrantedTo, Records, Clock;
    RunCovered(limits, worlds, ops, id, k, from);
    CoveredOther(limits, worlds[k], World(worlds[k].manager.(entries := map[]), map[], map[]), id,
                 Records(worlds, ops, id, k), GrantedTo(worlds, ops, id, 0, k), from,
                 Clock(ops, k, from), Clock(ops, k, from));
  }

  // ---------------------------------------------------------------- a second record doubles the burst

  /** The entry holds so many connections and its record this much. */
  function Holding(limits: Limits, id: string, available: Option<nat>, now: nat): World {
    match available
    case None => World(Manager(limits, map[], false), map[id := 0], map[])
    case Some(a) => World(Manager(limits, map[id := Entry(1, 0, Bucket(a, now))], false), map[id := 1], map[])
  }

  lemma Enters(limits: Limits, w: World, id: string, now: nat)
    requires ValidLimits(limits) && w.manager == Manager(limits, map[], false) && w.sessions == map[]
    requires w.connections == map[] || w.connections == map[id := 0]
    ensures Next(w, Connects(id, now)) == Holding(limits, id, Some(limits.burst), now)
    ensures Gain(w, Connects(id, now), id) == 0
  {
  }

  lemma Spends(limits: Limits, id: string, now: nat)
    ensures var w, op := Holding(limits, id, Some(limits.burst), now), Charges(id, Request(limits.burst, now, now));
            && Possible(w, op) && Next(w, op) == Holding(limits, id, Some(0), now) && Gain(w, op, id) == limits.burst
  {
  }

  lemma Leaves(limits: Limits, id: string, now: nat)
    ensures var w, op := Holding(limits, id, Some(0), now), DropsConnection(id);
            && Possible(w, op) && Next(w, op) == Holding(limits, id, None, now) && Gain(w, op, id) == 0
  {
  }

  function Twice(id: string, burst: nat, now: nat): seq<Op> {
    [Connects(id, now), Charges(id, Request(burst, now, now)), DropsConnection(id),
     Connects(id, now), Charges(id, Request(burst, now, now))]
  }

  ghost predicate GrantsTwice(limits: Limits, worlds: seq<World>, ops: seq<Op>, id: string, now: nat) {
    Run(limits, worlds, ops) && Clocked(ops, now) && Clock(ops, |ops|, now) == now
    && GrantedTo(worlds, ops, id, 0, |ops|) == 2 * limits.burst
  }

  /** The bound is met with two records: an entry that drops its last permit and connects again is granted
      its burst twice at the same instant. */
  lemma BurstTwice(limits: Limits, id: string, now: nat)
    requires ValidLimits(limits)
    ensures exists worlds, ops :: GrantsTwice(limits, worlds, ops, id, now)
  {
    var w0, full := World(Manager(limits, map[], false), map[], map[]), Holding(limits, id, Some(limits.burst), now);
    var empty, gone := Holding(limits, id, Some(0), now), Holding(limits, id, None, now);
    Enters(limits, w0, id, now);
    Enters(limits, gone, id, now);
    Spends(limits, id, now);
    Leaves(limits, id, now);
    hide Gain, Next, Holding, ChargeEntry;
    var worlds, ops := [w0, full, empty, gone, full, empty], Twice(id, limits.burst, now);
    assert Run(limits, worlds, ops);
    assert Clock(ops, 2, now) == now && Clock(ops, 4, now) == now;
    assert GrantedTo(worlds, ops, id, 0, 2) == limits.burst;
    assert GrantedTo(worlds, ops, id, 0, 4) == limits.burst;
    assert GrantsTwice(limits, worlds, ops, id, now);
  }

  // ---------------------------------------------------------------- what is granted, exactly

  /** The bytes that an account holds for a request: what is left of it when it was topped up less than ten
      milliseconds before, and otherwise also the whole bytes earned since, up to the burst. */
  function Holds(l: Limits, b: Bucket, q: Request): nat
    requires b.lastRefill <= q.first
  {
    var elapsed := q.first - b.lastRefill;
    if elapsed < 10_000_000 then b.available
    else
      var topped := b.available + l.rate * elapsed / 1_000_000_000;
      if topped <= l.burst then topped else l.burst
  }

  lemma RefillHolds(l: Limits, b: Bucket, q: Request)
    requires ValidLimits(l) && b.lastRefill <= q.first <= q.second
    ensures Refill(l, b, q.first, q.second)
         == Bucket(Holds(l, b, q), if q.first - b.lastRefill < 10_000_000 then b.lastRefill else q.second)
  {
    var earned := l.rate * (q.first - b.lastRefill) / SECOND;
    assert earned >= 0;
  }

  /** In every run a charge is granted if and only if the account holds the bytes; then it holds that much less, and
      the instant of topping up is the one of this charge, unless the last was less than ten milliseconds before. */
  lemma ChargeExact(limits: Limits, worlds: seq<World>, ops: seq<Op>, i: nat)
    requires ValidLimits(limits) && Run(limits, worlds, ops) && i < |ops| && ops[i].Charges?
    ensures var w, id, q := worlds[i], ops[i].id, ops[i].request; var reply := ChargeEntry(w.manager, id, q).reply;
            if id !in w.manager.entries then
              reply == Refused(AuthenticationRejected) && worlds[i + 1] == w
            else
              var b, held := BucketOf(w, id), Holds(limits, BucketOf(w, id), q);
              && reply == (if q.bytes <= held then Granted else Refused(Backpressure))
              && id in worlds[i + 1].manager.entries
              && BucketOf(worlds[i + 1], id)
                 == Bucket(if q.bytes <= held then held - q.bytes else held,
                           if q.first - b.lastRefill < 10_000_000 then b.lastRefill else q.second)
  {
    RunInv(limits, worlds, ops, i);
    assert worlds[i + 1] == Next(worlds[i], ops[i]);
    hide Run, WorldInv, Refill, Holds;
    var w, id, q := worlds[i], ops[i].id, ops[i].request;
    if id in w.manager.entries {
      RefillHolds(limits, BucketOf(w, id), q);
    }
  }

  /** So an account that is left alone fills up again: a charge of at most what the rate has earned since the last
      charge, or of at most the burst when that is less, is granted ten milliseconds later or more. */
  lemma {:induction false} FillsUp(limits: Limits, worlds: seq<World>, ops: seq<Op>, id: string, i: nat, k: nat)
    requires ValidLimits(limits) && Run(limits, worlds, ops) && Kept(worlds, id, i, k) && k < |ops| && ops[k].Charges?
    requires ops[k].id == id && forall j :: i <= j < k ==> !(ops[j].Charges? && ops[j].id == id)
    requires ops[k].request.first >= BucketOf(worlds[i], id).lastRefill + 10_000_000
    requires ops[k].request.bytes <= limits.burst
    requires ops[k].request.bytes
          <= limits.rate * (ops[k].request.first - BucketOf(worlds[i], id).lastRefill) / 1_000_000_000
    ensures ChargeEntry(worlds[k].manager, id, ops[k].request).reply.Granted?
  {
    hide Next, ChargeEntry;
    Untouched(limits, worlds, ops, id, i, k);
    ChargeExact(limits, worlds, ops, k);
  }

  lemma {:induction false} Untouched(limits: Limits, worlds: seq<World>, ops: seq<Op>, id: string, i: nat, k: nat)
    requires ValidLimits(limits) && Run(limits, worlds, ops) && Kept(worlds, id, i, k) && k <= |ops|
    requires forall j :: i <= j < k ==> !(ops[j].Charges? && ops[j].id == id)
    ensures BucketOf(worlds[k], id) == BucketOf(worlds[i], id)
    decreases k
  {
    hide Next, BucketOf;
    if i < k {
      Untouched(limits, worlds, ops, id, i, k - 1);
      assert worlds[k - 1 + 1] == Next(worlds[k - 1], ops[k - 1]);
      BucketStep(worlds[k - 1], ops[k - 1], id);
    }
  }

  // ---------------------------------------------------------------- who is let in, exactly

  /** An entry has a permit of some kind. */
  predicate Present(w: World, id: string) {
    Held(w.connections, id) + Held(w.sessions, id) > 0
  }

  /** The permits of a kind go up by one, or stay. */
  predicate Goes(before: map<string, nat>, after: map<string, nat>, id: string, granted: bool) {
    Held(after, id) == Held(before, id) + if granted then 1 else 0
  }

  /** In every run a connection is let in if and only if the manager is not draining, the entry is present or there is
      room for one more, and it has fewer connections than it may have. */
  lemma ConnectExact(limits: Limits, worlds: seq<World>, ops: seq<Op>, i: nat)
    requires ValidLimits(limits) && Run(limits, worlds, ops) && i < |ops| && ops[i].Connects?
    ensures var w, id := worlds[i], ops[i].id;
            && (forall other :: other in w.manager.entries <==> Present(w, other))
            && Goes(w.connections, worlds[i + 1].connections, id,
                       && !w.manager.draining && (Present(w, id) || |w.manager.entries| < limits.maxEntries)
                       && Held(w.connections, id) < limits.maxConnections)
            && worlds[i + 1].sessions == w.sessions
  {
    RunInv(limits, worlds, ops, i);
    assert worlds[i + 1] == Next(worlds[i], ops[i]);
    var w, id := worlds[i], ops[i].id;
    forall other ensures other in w.manager.entries <==> Present(w, other) {
      assert Counts(w, other);
    }
    assert Counts(w, id);
    hide Run, WorldInv, Counts;
  }

  /** A session is let in if and only if the manager is not draining, the entry is present, and it has fewer sessions
      than it may have. */
  lemma OpenExact(limits: Limits, worlds: seq<World>, ops: seq<Op>, i: nat)
    requires ValidLimits(limits) && Run(limits, worlds, ops) && i < |ops| && ops[i].Opens?
    ensures var w, id := worlds[i], ops[i].id;
            && Goes(w.sessions, worlds[i + 1].sessions, id,
                       !w.manager.draining && Present(w, id) && Held(w.sessions, id) < limits.maxSessions)
            && worlds[i + 1].connections == w.connections
  {
    RunInv(limits, worlds, ops, i);
    assert worlds[i + 1] == Next(worlds[i], ops[i]);
    assert Counts(worlds[i], ops[i].id);
    hide Run, WorldInv, Counts;
  }

  /** The manager drains exactly when the last such request said so. */
  lemma DrainsExact(limits: Limits, worlds: seq<World>, ops: seq<Op>, i: nat)
    requires Run(limits, worlds, ops) && i < |ops|
    ensures !worlds[0].manager.draining
    ensures worlds[i + 1].manager.draining == if ops[i].Drains? then ops[i].on else worlds[i].manager.draining
  {
    assert worlds[i + 1] == Next(worlds[i], ops[i]);
    hide Charge, Refill;
  }
}
