/** Every run of the synthetic DNS cache: order of eviction and exhaustion of the address pool. */
module DnsCacheTheorems {
  import opened Options
  import opened Sets
  import opened DnsCache

  // ---------------------------------------------------------------- last use

  /** One past the last position at which the name was used, zero if never. */
  function LastUse(log: seq<string>, name: string): nat {
    if log == [] then 0
    else if log[|log| - 1] == name then |log|
    else LastUse(log[..|log| - 1], name)
  }

  ghost predicate Ordered(lru: seq<string>, log: seq<string>) {
    forall i, j :: 0 <= i < j < |lru| ==> LastUse(log, lru[i]) < LastUse(log, lru[j])
  }

  lemma {:induction false} LastUseBound(log: seq<string>, name: string)
    ensures LastUse(log, name) <= |log|
  {
    if log != [] {
      LastUseBound(log[..|log| - 1], name);
    }
  }

  lemma UsedNow(log: seq<string>, name: string, other: string)
    ensures LastUse(log + [name], other) == if other == name then |log| + 1 else LastUse(log, other)
  {
    assert (log + [name])[..|log|] == log;
  }

  lemma {:induction false} WithoutOrdered(lru: seq<string>, gone: set<string>, log: seq<string>)
    requires Ordered(lru, log)
    ensures Ordered(Without(lru, gone), log)
  {
    if lru != [] {
      WithoutOrdered(lru[1..], gone, log);
      var rest := Without(lru[1..], gone);
      forall j | 0 <= j < |rest| ensures LastUse(log, lru[0]) < LastUse(log, rest[j]) {
        assert rest[j] in rest && rest[j] in lru[1..];
        var k :| 0 <= k < |lru| - 1 && lru[1..][k] == rest[j];
        assert lru[k + 1] == rest[j];
      }
    }
  }

  lemma TouchedOrdered(lru: seq<string>, name: string, log: seq<string>)
    requires Ordered(lru, log)
    ensures Ordered(Touched(lru, name), log + [name])
  {
    WithoutOrdered(lru, {name}, log);
    var rest := Without(lru, {name});
    forall i | 0 <= i < |rest| ensures LastUse(log + [name], rest[i]) == LastUse(log, rest[i]) <= |log| {
      assert rest[i] in rest;
      UsedNow(log, name, rest[i]);
      LastUseBound(log, rest[i]);
    }
    UsedNow(log, name, name);
  }

  // ---------------------------------------------------------------- eviction

  /** How many names have to go before one more fits. */
  function Surplus(c: Cache, maxEntries: nat): nat {
    if |c.byName| < maxEntries then 0 else |c.byName| - maxEntries + 1
  }

  lemma {:induction false} EvictDropsFront(c: Cache, maxEntries: nat, limit: nat)
    requires CacheInv(c, limit) && maxEntries > 0
    ensures Surplus(c, maxEntries) <= |c.lru|
    ensures Evict(c, maxEntries).lru == c.lru[Surplus(c, maxEntries)..]
    decreases |c.lru|
  {
    hide DropFront, CacheInv;
    if |c.byName| < maxEntries {
      assert c.lru[0..] == c.lru;
    } else {
      ListedSomething(c, limit);
      DropFrontInv(c, limit);
      var d := DropFront(c);
      var k := Surplus(d, maxEntries);
      EvictDropsFront(d, maxEntries, limit);
      assert Evict(c, maxEntries) == Evict(d, maxEntries) && Surplus(c, maxEntries) == k + 1;
      hide Evict, Surplus;
      assert c.lru[1..][k..] == c.lru[k + 1..];
    }
  }

  lemma {:induction false} ListSize(lru: seq<string>, names: set<string>)
    requires Lists(lru, names)
    ensures |lru| == |names|
  {
    if lru == [] {
      assert names == {};
    } else {
      PopFront(lru, names);
      ListSize(lru[1..], names - {lru[0]});
    }
  }

  /** What is evicted was used before everything that stays. */
  lemma EvictsLeastRecent(c: Cache, maxEntries: nat, limit: nat, log: seq<string>, gone: string, kept: string)
    requires CacheInv(c, limit) && maxEntries > 0 && Ordered(c.lru, log)
    requires gone in c.byName && gone !in Evict(c, maxEntries).byName && kept in Evict(c, maxEntries).byName
    ensures LastUse(log, gone) < LastUse(log, kept)
  {
    hide Evict, CacheInv, LastUse, Surplus;
    EvictDropsFront(c, maxEntries, limit);
    EvictInv(c, maxEntries, limit);
    var d, k := Evict(c, maxEntries), Surplus(c, maxEntries);
    Listed(c, limit, gone);
    Listed(d, limit, gone);
    Listed(d, limit, kept);
    var i :| 0 <= i < |c.lru| && c.lru[i] == gone;
    var j :| 0 <= j < |d.lru| && d.lru[j] == kept;
    assert c.lru[k + j] == kept;
    assert forall m :: k <= m < |c.lru| ==> c.lru[m] == d.lru[m - k];
  }

  // ---------------------------------------------------------------- runs

  datatype Op = Look(address: nat, at: nat) | Ask(name: string, when: nat) | Forget

  function Step(config: Config, c: Cache, op: Op): Cache {
    match op
    case Look(address, now) => Lookup(c, address, now).cache
    case Ask(name, now) => Resolve(config, c, name, now).cache
    case Forget => Fresh()
  }

  /** The name that an operation uses, if it succeeds. */
  function Used(config: Config, c: Cache, op: Op): seq<string> {
    match op
    case Look(address, now) => (match Lookup(c, address, now).name case None => [] case Some(name) => [name])
    case Ask(name, now) => if Resolve(config, c, name, now).address.Some? then [name] else []
    case Forget => []
  }

  ghost predicate Run(config: Config, caches: seq<Cache>, logs: seq<seq<string>>, ops: seq<Op>) {
    && |caches| == |logs| == |ops| + 1 && caches[0] == Fresh() && logs[0] == []
    && forall i :: 0 <= i < |ops| ==>
         caches[i + 1] == Step(config, caches[i], ops[i]) && logs[i + 1] == logs[i] + Used(config, caches[i], ops[i])
  }

  lemma PurgeKeeps(config: Config, c: Cache, now: nat, log: seq<string>)
    requires CacheInv(c, config.maxEntries) && Ordered(c.lru, log)
    ensures CacheInv(Purge(c, now), config.maxEntries) && Ordered(Purge(c, now).lru, log)
  {
    hide CacheInv, Ordered, Without, ExpiredNames;
    WithoutOrdered(c.lru, ExpiredNames(c, now), log);
    DropAllInv(c, ExpiredNames(c, now), config.maxEntries);
  }

  lemma EvictOrdered(c: Cache, maxEntries: nat, log: seq<string>)
    requires CacheInv(c, maxEntries) && maxEntries > 0 && Ordered(c.lru, log)
    ensures Ordered(Evict(c, maxEntries).lru, log)
  {
    hide CacheInv, Ordered, Evict;
    EvictDropsFront(c, maxEntries, maxEntries);
    SuffixOrdered(c.lru, Surplus(c, maxEntries), log);
  }

  lemma AskOrdered(config: Config, c: Cache, name: string, now: nat, log: seq<string>)
    requires config.maxEntries > 0 && CacheInv(c, config.maxEntries) && Ordered(c.lru, log)
    ensures Ordered(Resolve(config, c, name, now).cache.lru, log + Used(config, c, Ask(name, now)))
  {
    hide CacheInv, Ordered, Purge, Evict, Search, Touched;
    PurgeKeeps(config, c, now, log);
    var p := Purge(c, now);
    if name in p.byName {
      TouchedOrdered(p.lru, name, log);
    } else {
      EvictOrdered(p, config.maxEntries, log);
      TouchedOrdered(Evict(p, config.maxEntries).lru, name, log);
      assert log + [] == log;
    }
  }

  lemma SuffixOrdered(lru: seq<string>, k: nat, log: seq<string>)
    requires Ordered(lru, log) && k <= |lru|
    ensures Ordered(lru[k..], log)
  {
    forall i, j | 0 <= i < j < |lru| - k ensures LastUse(log, lru[k..][i]) < LastUse(log, lru[k..][j]) {
      assert lru[k..][i] == lru[k + i] && lru[k..][j] == lru[k + j];
    }
  }

  lemma LookOrdered(config: Config, c: Cache, address: nat, now: nat, log: seq<string>)
    requires CacheInv(c, config.maxEntries) && Ordered(c.lru, log)
    ensures Ordered(Lookup(c, address, now).cache.lru, log + Used(config, c, Look(address, now)))
  {
    hide CacheInv, Ordered, Purge, Touched;
    PurgeKeeps(config, c, now, log);
    var p := Purge(c, now);
    if address in p.byIp {
      TouchedOrdered(p.lru, p.byIp[address], log);
    } else {
      assert log + [] == log;
    }
  }

  lemma StepKeeps(config: Config, c: Cache, op: Op, log: seq<string>)
    requires config.maxEntries > 0 && CacheInv(c, config.maxEntries) && Ordered(c.lru, log)
    ensures CacheInv(Step(config, c, op), config.maxEntries)
    ensures Ordered(Step(config, c, op).lru, log + Used(config, c, op))
  {
    hide CacheInv, Lookup, Resolve, Used;
    match op {
      case Look(address, now) =>
        LookupInv(c, address, now, config.maxEntries);
        LookOrdered(config, c, address, now, log);
      case Ask(name, now) =>
        ResolveInv(config, c, name, now);
        AskOrdered(config, c, name, now, log);
      case Forget => FreshInv(config.maxEntries);
    }
  }

  /** In every run the maps are inverse, the list is the cached names ordered by last use without
      repetition, and the size stays within the limit. */
  lemma {:induction false} RunInv(config: Config, caches: seq<Cache>, logs: seq<seq<string>>, ops: seq<Op>, k: nat)
    requires ValidConfig(config) && Run(config, caches, logs, ops) && k < |caches|
    ensures CacheInv(caches[k], config.maxEntries) && Ordered(caches[k].lru, logs[k])
  {
    hide CacheInv, Step, Used;
    if k == 0 {
      FreshInv(config.maxEntries);
    } else {
      RunInv(config, caches, logs, ops, k - 1);
      StepKeeps(config, caches[k - 1], ops[k - 1], logs[k - 1]);
    }
  }

  /** Every name evicted in a run was the least recently used of the names still cached. */
  lemma RunEvictsLeastRecent(config: Config, caches: seq<Cache>, logs: seq<seq<string>>, ops: seq<Op>, k: nat,
                             gone: string, kept: string)
    requires ValidConfig(config) && Run(config, caches, logs, ops) && k < |ops| && ops[k].Ask?
    requires var p := Purge(caches[k], ops[k].when); var d := Evict(p, config.maxEntries);
             ops[k].name !in p.byName && gone in p.byName && gone !in d.byName && kept in d.byName
    ensures LastUse(logs[k], gone) < LastUse(logs[k], kept)
  {
    hide Evict, Purge, Step, Used, CacheInv, Ordered;
    RunInv(config, caches, logs, ops, k);
    PurgeKeeps(config, caches[k], ops[k].when, logs[k]);
    EvictsLeastRecent(Purge(caches[k], ops[k].when), config.maxEntries, config.maxEntries, logs[k], gone, kept);
  }

  // ---------------------------------------------------------------- the address pool

  /** The address reached after some steps. */
  function Walk(address: nat, steps: nat): nat
    requires InPool(address)
  {
    FIRST + (address - FIRST + steps) % POOL
  }

  lemma WalkStep(address: nat, steps: nat)
    requires InPool(address) && InPool(Successor(address))
    ensures Walk(Successor(address), steps) == Walk(address, steps + 1)
  {
  }

  /** Where a walk of less than a round ends: further on, or past the end of the pool and at its beginning. */
  lemma WalkIs(from: nat, i: nat)
    requires InPool(from) && i < POOL
    ensures Walk(from, i) == if from + i < FIRST + POOL then from + i else from + i - POOL
  {
    var n := from - FIRST + i;
    assert 0 <= n < 2 * POOL;
    if n < POOL {
      assert n % POOL == n;
    } else {
      assert n % POOL == n - POOL;
    }
  }

  /** One round visits every address of the pool exactly once. */
  lemma WalkVisits(from: nat, address: nat)
    requires InPool(from) && InPool(address)
    ensures exists i: nat :: i < POOL && Walk(from, i) == address
    ensures forall i: nat, j: nat :: i < POOL && j < POOL && Walk(from, i) == address && Walk(from, j) == address ==> i == j
  {
    hide Walk;
    forall i: nat | i < POOL
      ensures Walk(from, i) == if from + i < FIRST + POOL then from + i else from + i - POOL
    {
      WalkIs(from, i);
    }
    var i: nat := if address >= from then address - from else address + POOL - from;
    assert Walk(from, i) == address;
  }

  lemma {:induction false} SearchFails(byIp: map<nat, string>, address: nat, tries: nat, i: nat)
    requires InPool(address) && Search(byIp, address, tries).address.None? && i < tries
    ensures !Free(byIp, Walk(address, i))
    decreases tries
  {
    hide Walk, Free;
    if i == 0 {
      WalkIs(address, 0);
    } else {
      SearchFails(byIp, Successor(address), tries - 1, i - 1);
      WalkStep(address, i - 1);
    }
  }

  lemma {:induction false} SearchSucceeds(byIp: map<nat, string>, address: nat, tries: nat, i: nat)
    requires InPool(address) && i < tries && Free(byIp, Walk(address, i))
    ensures Search(byIp, address, tries).address.Some?
    decreases tries
  {
    hide Walk, Free;
    if i == 0 {
      WalkIs(address, 0);
    } else if !Free(byIp, address) {
      WalkStep(address, i - 1);
      SearchSucceeds(byIp, Successor(address), tries - 1, i - 1);
    }
  }

  /** Allocation fails exactly when every usable address is taken. */
  lemma AllocateFailsIff(c: Cache)
    requires InPool(c.next)
    ensures Allocate(c).address.None? <==> forall a :: Usable(a) ==> a in c.byIp
  {
    if Allocate(c).address.None? {
      forall a | Usable(a) ensures a in c.byIp {
        WalkVisits(c.next, a);
        var i: nat :| i < POOL && Walk(c.next, i) == a;
        SearchFails(c.byIp, c.next, POOL, i);
      }
    } else {
      SearchFinds(c.byIp, c.next, POOL);
    }
  }

  // ---------------------------------------------------------------- how many addresses there are

  const BASE: nat := 0xc612_0000

  /** The usable addresses of the first blocks of 256. */
  function Blocks(n: nat): set<nat> {
    set a | BASE <= a < BASE + 256 * n && a % 256 != 0 && a % 256 != 255
  }

  /** The inside of one block: neither its first nor its last address. */
  function Block(start: nat): set<nat> {
    set a: nat | a < start + 255 && After(a, start)
  }

  predicate After(a: nat, start: nat) {
    start < a
  }

  lemma {:induction false} BlocksSize(n: nat)
    ensures |Blocks(n)| == 254 * n
  {
    if n == 0 {
      assert Blocks(0) == {};
    } else {
      BlocksSize(n - 1);
      var start := BASE + 256 * (n - 1);
      var block := Block(start);
      RangeSize(start + 1, start + 255, block);
      forall a ensures a in Blocks(n) <==> a in Blocks(n - 1) || a in block {
        BlockMember(a, n);
      }
      assert Blocks(n) == Blocks(n - 1) + block;
    }
  }

  lemma BlockMember(a: nat, n: nat)
    requires n > 0
    ensures var start := BASE + 256 * (n - 1);
            start <= a < start + 256 ==> (a % 256 != 0 && a % 256 != 255 <==> start + 1 <= a < start + 255)
  {
    var start := BASE + 256 * (n - 1);
    if start <= a < start + 256 {
      var r := a - start;
      assert start == 256 * (BASE / 256 + n - 1);
      assert a == 256 * (BASE / 256 + n - 1) + r;
    }
  }

  /** The pool has exactly 130048 usable addresses. */
  lemma UsableCount()
    ensures |Blocks(512)| == USABLE
    ensures forall a :: Usable(a) <==> a in Blocks(512)
  {
    BlocksSize(512);
  }

  // ---------------------------------------------------------------- exhaustion

  lemma {:induction false} NamesAreAddresses(byName: map<string, Mapping>, byIp: map<nat, string>)
    requires Inverse(byName, byIp)
    ensures |byName| == |byIp|
    decreases |byName|
  {
    if byName == map[] {
      assert byIp.Keys == {};
    } else {
      var n :| n in byName;
      var a := byName[n].address;
      assert (byName - {n}).Keys == byName.Keys - {n} && (byIp - {a}).Keys == byIp.Keys - {a};
      NamesAreAddresses(byName - {n}, byIp - {a});
    }
  }

  lemma FullIff(c: Cache, maxEntries: nat)
    requires CacheInv(c, maxEntries)
    ensures |c.byName| <= USABLE
    ensures |c.byName| == USABLE <==> forall a :: Usable(a) ==> a in c.byIp
  {
    UsableCount();
    NamesAreAddresses(c.byName, c.byIp);
    assert c.byIp.Keys <= Blocks(512);
    SubsetSize(c.byIp.Keys, Blocks(512));
    if forall a :: Usable(a) ==> a in c.byIp {
      assert c.byIp.Keys == Blocks(512);
    }
  }

  /** Resolving reports exhaustion if and only if the name is not cached, the limit is above 130048 and
      all 130048 usable addresses are mapped to names that have not expired. */
  lemma ExhaustedIff(config: Config, c: Cache, name: string, now: nat)
    requires ValidConfig(config) && CacheInv(c, config.maxEntries)
    ensures Resolve(config, c, name, now).address.None? <==>
              var p := Purge(c, now); name !in p.byName && config.maxEntries > USABLE && |p.byName| == USABLE
  {
    hide Without, Search, Evict, CacheInv, ExpiredNames;
    var p := Purge(c, now);
    DropAllInv(c, ExpiredNames(c, now), config.maxEntries);
    var d := Evict(p, config.maxEntries);
    EvictInv(p, config.maxEntries, config.maxEntries);
    NextInPool(d, config.maxEntries);
    FullIff(d, config.maxEntries);
    FullIff(p, config.maxEntries);
    AllocateFailsIff(d);
    EvictedSize(p, config.maxEntries);
  }

  lemma EvictedSize(c: Cache, maxEntries: nat)
    requires CacheInv(c, maxEntries) && maxEntries > 0
    ensures |Evict(c, maxEntries).byName| == if |c.byName| < maxEntries then |c.byName| else maxEntries - 1
  {
    EvictInv(c, maxEntries, maxEntries);
    EvictDropsFront(c, maxEntries, maxEntries);
    hide Evict;
    ListSize(c.lru, c.byName.Keys);
    ListSize(Evict(c, maxEntries).lru, Evict(c, maxEntries).byName.Keys);
  }

  /** So within a limit of 130048 names no run ever reports exhaustion. */
  lemma RunNeverExhausted(config: Config, caches: seq<Cache>, logs: seq<seq<string>>, ops: seq<Op>, k: nat,
                          name: string, now: nat)
    requires ValidConfig(config) && config.maxEntries <= USABLE && Run(config, caches, logs, ops) && k < |caches|
    ensures Resolve(config, caches[k], name, now).address.Some?
  {
    hide Run, Resolve;
    RunInv(config, caches, logs, ops, k);
    ExhaustedIff(config, caches[k], name, now);
  }

  // ---------------------------------------------------------------- above 130048 names a run can exhaust the pool

  /** A different name for every number. */
  function NameOf(n: nat): (r: string)
    ensures |r| == n
  {
    seq(n, i => 'n')
  }

  /** So many names are cached, all of them shorter than that, none expired at time zero. */
  ghost predicate Filled(c: Cache, n: nat) {
    |c.byName| == n && forall name :: name in c.byName ==> |name| < n && c.byName[name].expiresAt > 0
  }

  lemma PurgeIdle(c: Cache, n: nat)
    requires Filled(c, n)
    ensures Purge(c, 0).byName == c.byName
  {
    hide Without;
    assert ExpiredNames(c, 0) == {};
  }

  /** While an address is left, one more new name is cached. */
  lemma FillOne(config: Config, c: Cache, n: nat)
    requires ValidConfig(config) && CacheInv(c, config.maxEntries) && Filled(c, n) && n < USABLE < config.maxEntries
    ensures Filled(Resolve(config, c, NameOf(n), 0).cache, n + 1)
  {
    hide Purge, Search, CacheInv, NameOf;
    PurgeIdle(c, n);
    ExhaustedIff(config, c, NameOf(n), 0);
  }

  lemma {:induction false} Fill(config: Config, n: nat) returns (caches: seq<Cache>, logs: seq<seq<string>>,
                                                                 ops: seq<Op>)
    requires ValidConfig(config) && n <= USABLE < config.maxEntries
    ensures Run(config, caches, logs, ops) && |caches| == n + 1 && |ops| == n && Filled(caches[n], n)
  {
    hide Step, Used, CacheInv, Resolve;
    if n == 0 {
      caches, logs, ops := [Fresh()], [[]], [];
    } else {
      caches, logs, ops := Fill(config, n - 1);
      var c, op := caches[n - 1], Ask(NameOf(n - 1), 0);
      RunInv(config, caches, logs, ops, n - 1);
      FillOne(config, c, n - 1);
      StepAsks(config, c, NameOf(n - 1), 0);
      caches, logs, ops := caches + [Step(config, c, op)], logs + [logs[n - 1] + Used(config, c, op)], ops + [op];
    }
  }

  lemma StepAsks(config: Config, c: Cache, name: string, now: nat)
    ensures Step(config, c, Ask(name, now)) == Resolve(config, c, name, now).cache
  {
  }

  /** With every permitted limit above 130048 names, some run ends with a name that cannot be resolved. */
  lemma RunExhausts(config: Config)
    requires ValidConfig(config) && config.maxEntries > USABLE
    ensures exists caches, logs, ops, name, now ::
              Run(config, caches, logs, ops) && Resolve(config, caches[|ops|], name, now).address.None?
  {
    hide Run, Resolve, Purge, CacheInv, NameOf;
    var caches, logs, ops := Fill(config, USABLE);
    RunInv(config, caches, logs, ops, USABLE);
    PurgeIdle(caches[USABLE], USABLE);
    ExhaustedIff(config, caches[USABLE], NameOf(USABLE), 0);
  }

  // ---------------------------------------------------------------- names come back

  /** The operation comes before the mapping of the name expires. */
  predicate Timely(c: Cache, op: Op, name: string)
    requires name in c.byName
  {
    match op
    case Look(_, now) => now < c.byName[name].expiresAt
    case Ask(_, now) => now < c.byName[name].expiresAt
    case Forget => true
  }

  /** From i to k the name stays cached and its mapping does not expire. */
  ghost predicate Kept(caches: seq<Cache>, ops: seq<Op>, name: string, i: nat, k: nat) {
    && i <= k < |caches| && k <= |ops|
    && (forall j :: i <= j <= k ==> name in caches[j].byName)
    && (forall j :: i <= j < k ==> Timely(caches[j], ops[j], name))
  }

  lemma {:induction false} EvictOnlyDrops(c: Cache, maxEntries: nat, name: string)
    requires name in Evict(c, maxEntries).byName
    ensures name in c.byName && Evict(c, maxEntries).byName[name] == c.byName[name]
    decreases |c.lru|
  {
    if |c.byName| >= maxEntries && c.lru != [] {
      EvictOnlyDrops(DropFront(c), maxEntries, name);
    }
  }

  lemma PurgeSpares(c: Cache, now: nat, name: string)
    requires name in c.byName && now < c.byName[name].expiresAt
    ensures name in Purge(c, now).byName && Purge(c, now).byName[name] == c.byName[name]
  {
    hide Without;
  }

  /** An operation in time leaves the mapping as it is, or drops it. */
  lemma StepSpares(config: Config, c: Cache, op: Op, name: string)
    requires name in c.byName && Timely(c, op, name) && name in Step(config, c, op).byName
    ensures Step(config, c, op).byName[name] == c.byName[name]
  {
    hide Purge, Evict, Search, Touched;
    match op {
      case Look(_, now) => PurgeSpares(c, now, name);
      case Ask(other, now) =>
        PurgeSpares(c, now, name);
        if other != name && other !in Purge(c, now).byName {
          EvictOnlyDrops(Purge(c, now), config.maxEntries, name);
        }
      case Forget =>
    }
  }

  lemma {:induction false} RunSpares(config: Config, caches: seq<Cache>, logs: seq<seq<string>>, ops: seq<Op>,
                                     name: string, i: nat, k: nat)
    requires Run(config, caches, logs, ops) && Kept(caches, ops, name, i, k)
    ensures caches[k].byName[name] == caches[i].byName[name]
  {
    hide Step, Used;
    if i < k {
      RunSpares(config, caches, logs, ops, name, i, k - 1);
      assert caches[k - 1 + 1] == Step(config, caches[k - 1], ops[k - 1]);
      StepSpares(config, caches[k - 1], ops[k - 1], name);
    }
  }

  /** The address given for a name leads back to that name, and is given for it again, as long as the name is
      neither evicted nor expired, whatever else happens in between. */
  lemma AddressStays(config: Config, caches: seq<Cache>, logs: seq<seq<string>>, ops: seq<Op>, i: nat, k: nat, now: nat)
    requires ValidConfig(config) && Run(config, caches, logs, ops) && i < |ops| && ops[i].Ask?
    requires Resolve(config, caches[i], ops[i].name, ops[i].when).address.Some?
    requires Kept(caches, ops, ops[i].name, i + 1, k)
    requires now < caches[k].byName[ops[i].name].expiresAt
    ensures var address := Resolve(config, caches[i], ops[i].name, ops[i].when).address;
            && Lookup(caches[k], address.value, now).name == Some(ops[i].name)
            && Resolve(config, caches[k], ops[i].name, now).address == address
  {
    hide Purge, Evict, Search, Used, Touched, CacheInv;
    var name := ops[i].name;
    RunInv(config, caches, logs, ops, k);
    RunSpares(config, caches, logs, ops, name, i + 1, k);
    assert caches[i + 1] == Step(config, caches[i], ops[i]);
    var address := caches[k].byName[name].address;
    PurgeSpares(caches[k], now, name);
    LookupFinds(caches[k], config.maxEntries, name, now);
  }

  lemma LookupFinds(c: Cache, maxEntries: nat, name: string, now: nat)
    requires CacheInv(c, maxEntries) && name in c.byName && now < c.byName[name].expiresAt
    ensures Lookup(c, c.byName[name].address, now).name == Some(name)
  {
    hide Without;
  }

  // ---------------------------------------------------------------- and no longer

  /** The cache holds a mapping of the name that has not run out. */
  predicate Holds(c: Cache, name: string, now: nat) {
    name in c.byName && now < c.byName[name].expiresAt
  }

  /** The i-th operation asks for a name that the cache does not hold and gives it the address. */
  predicate Allocates(config: Config, caches: seq<Cache>, ops: seq<Op>, i: nat, name: string, address: nat)
    requires i < |ops| && i < |caches|
  {
    && ops[i].Ask? && ops[i].name == name && !Holds(caches[i], name, ops[i].when)
    && Resolve(config, caches[i], name, ops[i].when).address == Some(address)
  }

  /** The mapping was made by an earlier operation and lasts for the configured time from then on. */
  ghost predicate MadeBefore(config: Config, caches: seq<Cache>, ops: seq<Op>, k: nat, name: string, m: Mapping)
    requires k <= |ops| && k <= |caches|
  {
    exists i :: 0 <= i < k && Allocates(config, caches, ops, i, name, m.address) && m.expiresAt == ops[i].when + config.ttl
  }

  lemma PurgeHolds(c: Cache, now: nat, name: string)
    ensures name in Purge(c, now).byName <==> Holds(c, name, now)
    ensures Holds(c, name, now) ==> Purge(c, now).byName[name] == c.byName[name]
  {
    hide Without;
  }

  /** A mapping after an operation was there before, or has just been made for the configured time. */
  lemma StepMakes(config: Config, c: Cache, op: Op, name: string)
    requires name in Step(config, c, op).byName
    ensures var m := Step(config, c, op).byName[name];
            || (name in c.byName && c.byName[name] == m && !(op.Ask? && op.name == name && !Holds(c, name, op.when)))
            || (&& op.Ask? && op.name == name && !Holds(c, name, op.when) && m.expiresAt == op.when + config.ttl
                && Resolve(config, c, name, op.when).address == Some(m.address))
  {
    hide Purge, Evict, Search, Touched;
    match op {
      case Look(_, now) => PurgeHolds(c, now, name);
      case Ask(other, now) =>
        PurgeHolds(c, now, name);
        PurgeHolds(c, now, other);
        if other !in Purge(c, now).byName && other != name {
          EvictOnlyDrops(Purge(c, now), config.maxEntries, name);
        } else if other !in Purge(c, now).byName && Resolve(config, c, name, now).address.None? {
          EvictOnlyDrops(Purge(c, now), config.maxEntries, name);
        }
      case Forget =>
    }
  }

  lemma {:induction false} RunMade(config: Config, caches: seq<Cache>, logs: seq<seq<string>>, ops: seq<Op>, k: nat,
                                   name: string)
    requires Run(config, caches, logs, ops) && k < |caches| && name in caches[k].byName
    ensures MadeBefore(config, caches, ops, k, name, caches[k].byName[name])
  {
    hide Step, Used, Resolve, Holds;
    if k > 0 {
      assert caches[k - 1 + 1] == Step(config, caches[k - 1], ops[k - 1]);
      StepMakes(config, caches[k - 1], ops[k - 1], name);
      var m := caches[k].byName[name];
      if name in caches[k - 1].byName && caches[k - 1].byName[name] == m {
        RunMade(config, caches, logs, ops, k - 1, name);
        var i :| 0 <= i < k - 1 && Allocates(config, caches, ops, i, name, m.address)
          && m.expiresAt == ops[i].when + config.ttl;
        assert Allocates(config, caches, ops, i, name, m.address);
      } else {
        assert Allocates(config, caches, ops, k - 1, name, m.address);
      }
    }
  }

  lemma LookupExact(c: Cache, maxEntries: nat, address: nat, name: string, now: nat)
    requires CacheInv(c, maxEntries)
    ensures Lookup(c, address, now).name == Some(name) <==> Holds(c, name, now) && c.byName[name].address == address
  {
    hide Without;
  }

  /** In every run a lookup gives a name only if the request that allocated the address came less than the time to
      live before. */
  lemma NothingStale(config: Config, caches: seq<Cache>, logs: seq<seq<string>>, ops: seq<Op>, k: nat, address: nat,
                     name: string, now: nat)
    requires ValidConfig(config) && Run(config, caches, logs, ops) && k < |caches|
    requires Lookup(caches[k], address, now).name == Some(name)
    ensures exists i :: 0 <= i < k && Allocates(config, caches, ops, i, name, address) && now < ops[i].when + config.ttl
  {
    hide Used, Resolve, Step, Lookup, CacheInv;
    RunInv(config, caches, logs, ops, k);
    LookupExact(caches[k], config.maxEntries, address, name, now);
    RunMade(config, caches, logs, ops, k, name);
    var m := caches[k].byName[name];
    var i :| 0 <= i < k && Allocates(config, caches, ops, i, name, m.address) && m.expiresAt == ops[i].when + config.ttl;
    assert Allocates(config, caches, ops, i, name, address);
  }

  /** A name that is asked for after its time, or for the first time, gets a mapping that lasts for the time to live
      from then on; a name that is asked for in time keeps the one it has. */
  lemma AskRenews(config: Config, caches: seq<Cache>, logs: seq<seq<string>>, ops: seq<Op>, k: nat)
    requires ValidConfig(config) && Run(config, caches, logs, ops) && k < |ops| && ops[k].Ask?
    requires Resolve(config, caches[k], ops[k].name, ops[k].when).address.Some?
    ensures var name, now := ops[k].name, ops[k].when;
            var address := Resolve(config, caches[k], name, now).address.value;
            && name in caches[k + 1].byName
            && caches[k + 1].byName[name]
               == if Holds(caches[k], name, now) then caches[k].byName[name] else Mapping(address, now + config.ttl)
  {
    hide Purge, Evict, Search, Touched, Used;
    assert caches[k + 1] == Step(config, caches[k], ops[k]);
    PurgeHolds(caches[k], ops[k].when, ops[k].name);
  }

  // ---------------------------------------------------------------- addresses go round

  /** The address is the first free one on the way. */
  ghost predicate FirstFree(byIp: map<nat, string>, from: nat, address: nat)
    requires InPool(from)
  {
    exists i: nat :: i < POOL && ReachedAt(byIp, from, address, i)
  }

  predicate ReachedAt(byIp: map<nat, string>, from: nat, address: nat, i: nat)
    requires InPool(from)
  {
    address == Walk(from, i) && Free(byIp, address) && forall j: nat :: j < i ==> !Free(byIp, Walk(from, j))
  }

  lemma {:induction false} SearchFirst(byIp: map<nat, string>, from: nat, tries: nat)
    requires InPool(from) && Search(byIp, from, tries).address.Some?
    ensures var found := Search(byIp, from, tries); var address := found.address.value;
            && InPool(address) && found.next == Walk(address, 1)
            && exists i: nat :: i < tries && ReachedAt(byIp, from, address, i)
    decreases tries
  {
    hide Usable;
    if Free(byIp, from) {
      assert Walk(from, 0) == from;
      assert ReachedAt(byIp, from, from, 0);
    } else {
      SearchFirst(byIp, Successor(from), tries - 1);
      var address := Search(byIp, from, tries).address.value;
      var i: nat :| i < tries - 1 && ReachedAt(byIp, Successor(from), address, i);
      OneFurther(byIp, from, address, i);
    }
  }

  lemma OneFurther(byIp: map<nat, string>, from: nat, address: nat, i: nat)
    requires InPool(from) && InPool(Successor(from)) && !Free(byIp, from) && ReachedAt(byIp, Successor(from), address, i)
    ensures ReachedAt(byIp, from, address, i + 1)
  {
    hide Free;
    WalkStep(from, i);
    forall j: nat | j < i + 1 ensures !Free(byIp, Walk(from, j)) {
      if j == 0 {
        assert Walk(from, 0) == from;
      } else {
        WalkStep(from, j - 1);
      }
    }
  }

  lemma {:induction false} SearchRound(byIp: map<nat, string>, from: nat, tries: nat)
    requires InPool(from) && Search(byIp, from, tries).address.None?
    ensures Search(byIp, from, tries).next == Walk(from, tries)
    decreases tries
  {
    hide Usable;
    if tries > 0 {
      SearchRound(byIp, Successor(from), tries - 1);
      WalkStep(from, tries - 1);
    }
  }

  /** The cache in which an operation looks for an address. */
  function Searched(config: Config, c: Cache, now: nat): Cache {
    Evict(Purge(c, now), config.maxEntries)
  }

  /** The address allocated last, since the beginning or since everything was forgotten. */
  function LastGiven(config: Config, caches: seq<Cache>, ops: seq<Op>, k: nat): Option<nat>
    requires k <= |ops| && k <= |caches|
  {
    if k == 0 || ops[k - 1].Forget? then None
    else if ops[k - 1].Ask? && !Holds(caches[k - 1], ops[k - 1].name, ops[k - 1].when)
            && Resolve(config, caches[k - 1], ops[k - 1].name, ops[k - 1].when).address.Some? then
      Resolve(config, caches[k - 1], ops[k - 1].name, ops[k - 1].when).address
    else LastGiven(config, caches, ops, k - 1)
  }

  /** Where the search for an address begins. */
  function Onward(last: Option<nat>): (r: nat)
    requires last.Some? ==> InPool(last.value)
    ensures InPool(r)
  {
    if last.Some? then Walk(last.value, 1) else FIRST
  }

  lemma {:induction false} EvictNext(c: Cache, maxEntries: nat)
    ensures Evict(c, maxEntries).next == c.next
    decreases |c.lru|
  {
    if |c.byName| >= maxEntries && c.lru != [] {
      EvictNext(DropFront(c), maxEntries);
    }
  }

  /** A step moves the search on exactly by allocating. */
  lemma StepNext(config: Config, c: Cache, op: Op)
    requires InPool(c.next)
    ensures var c' := Step(config, c, op);
            match op
            case Look(_, _) => c'.next == c.next
            case Forget => c'.next == FIRST
            case Ask(name, now) =>
              var address := Resolve(config, c, name, now).address;
              if Holds(c, name, now) || address.None? then c'.next == c.next
              else
                && InPool(address.value) && c'.next == Walk(address.value, 1)
                && FirstFree(Searched(config, c, now).byIp, c.next, address.value)
  {
    hide Evict, Search, Touched, Without, ExpiredNames;
    match op {
      case Ask(name, now) =>
        PurgeHolds(c, now, name);
        var d := Searched(config, c, now);
        EvictNext(Purge(c, now), config.maxEntries);
        if !Holds(c, name, now) {
          if Allocate(d).address.Some? {
            SearchFirst(d.byIp, d.next, POOL);
          } else {
            SearchRound(d.byIp, d.next, POOL);
            FullRound(d.next);
          }
        }
      case _ =>
    }
  }

  lemma FullRound(from: nat)
    requires InPool(from)
    ensures Walk(from, POOL) == from
  {
  }

  lemma {:induction false} NextExact(config: Config, caches: seq<Cache>, logs: seq<seq<string>>, ops: seq<Op>, k: nat)
    requires Run(config, caches, logs, ops) && k < |caches|
    ensures var last := LastGiven(config, caches, ops, k);
            (last.Some? ==> InPool(last.value)) && caches[k].next == Onward(last)
  {
    hide Step, Used, Resolve, Holds, Walk, FirstFree;
    if k > 0 {
      NextExact(config, caches, logs, ops, k - 1);
      assert caches[k - 1 + 1] == Step(config, caches[k - 1], ops[k - 1]);
      StepNext(config, caches[k - 1], ops[k - 1]);
    }
  }

  /** In every run a new address is the first that is free when one goes round the pool from behind the address
      allocated last. */
  lemma AddressesGoRound(config: Config, caches: seq<Cache>, logs: seq<seq<string>>, ops: seq<Op>, k: nat, address: nat)
    requires Run(config, caches, logs, ops) && k < |ops| && ops[k].Ask?
    requires Allocates(config, caches, ops, k, ops[k].name, address)
    ensures var last := LastGiven(config, caches, ops, k);
            (last.Some? ==> InPool(last.value)) && FirstFree(Searched(config, caches[k], ops[k].when).byIp, Onward(last), address)
  {
    hide Step, Used, Resolve, Holds, Walk, FirstFree, LastGiven, Onward;
    NextExact(config, caches, logs, ops, k);
    StepNext(config, caches[k], ops[k]);
  }
}
