/**
 The synthetic DNS cache: hostnames mapped to addresses of a private pool, evicted by last use.
 Time is an input.
 */
module DnsCache {
  import opened Options
  import opened Sets

  const FIRST: nat := 0xc612_0001
  const LAST: nat := 0xc613_fffe
  const POOL: nat := LAST - FIRST + 1
  const USABLE: nat := 130048

  datatype Mapping = Mapping(address: nat, expiresAt: nat)

  datatype Cache = Cache(byName: map<string, Mapping>, byIp: map<nat, string>, lru: seq<string>, next: nat)

  datatype Config = Config(maxEntries: nat, ttl: nat)

  predicate ValidConfig(c: Config) {
    0 < c.maxEntries <= POOL && 0 < c.ttl <= 60
  }

  function Fresh(): Cache {
    Cache(map[], map[], [], FIRST)
  }

  predicate InPool(address: nat) {
    FIRST <= address <= LAST
  }

  predicate Usable(address: nat) {
    InPool(address) && address % 256 != 0 && address % 256 != 255
  }

  // ---------------------------------------------------------------- the lists

  predicate Distinct(names: seq<string>) {
    forall i, j :: 0 <= i < j < |names| ==> names[i] != names[j]
  }

  /** The entries that are not among the given names, in their order. */
  function Without(names: seq<string>, gone: set<string>): (r: seq<string>)
    ensures forall n :: n in r <==> n in names && n !in gone
  {
    if names == [] then [] else (if names[0] in gone then [] else [names[0]]) + Without(names[1..], gone)
  }

  function Touched(lru: seq<string>, name: string): seq<string> {
    Without(lru, {name}) + [name]
  }

  // ---------------------------------------------------------------- operations

  function DropAll(c: Cache, gone: set<string>): Cache {
    Cache(c.byName - gone, map a | a in c.byIp && c.byIp[a] !in gone :: c.byIp[a], Without(c.lru, gone), c.next)
  }

  function ExpiredNames(c: Cache, now: nat): set<string> {
    set n | n in c.byName && c.byName[n].expiresAt <= now
  }

  function Purge(c: Cache, now: nat): Cache {
    DropAll(c, ExpiredNames(c, now))
  }

  /** Drops the name at the front of the list. */
  function DropFront(c: Cache): (r: Cache)
    requires c.lru != []
    ensures r.lru == c.lru[1..] && r.next == c.next
  {
    var name := c.lru[0];
    Cache(c.byName - {name}, if name in c.byName then c.byIp - {c.byName[name].address} else c.byIp, c.lru[1..], c.next)
  }

  /** Drops from the front until there is room for one more name. */
  function Evict(c: Cache, maxEntries: nat): Cache
    decreases |c.lru|
  {
    if |c.byName| < maxEntries || c.lru == [] then c else Evict(DropFront(c), maxEntries)
  }

  function Successor(address: nat): nat {
    if address >= LAST then FIRST else address + 1
  }

  predicate Free(byIp: map<nat, string>, address: nat) {
    Usable(address) && address !in byIp
  }

  datatype Found = Found(address: Option<nat>, next: nat)

  /** Tries one address after the other, cyclically. */
  function Search(byIp: map<nat, string>, address: nat, tries: nat): Found
    decreases tries
  {
    if tries == 0 then Found(None, address)
    else if Free(byIp, address) then Found(Some(address), Successor(address))
    else Search(byIp, Successor(address), tries - 1)
  }

  function Allocate(c: Cache): Found {
    Search(c.byIp, c.next, POOL)
  }

  function Map(c: Cache, name: string, address: nat, expiresAt: nat, next: nat): Cache {
    Cache(c.byName[name := Mapping(address, expiresAt)], c.byIp[address := name], Touched(c.lru, name), next)
  }

  datatype Answer = Answer(cache: Cache, address: Option<nat>)

  /** The address of a name, cached or newly allocated; none when the pool is exhausted. */
  function Resolve(config: Config, c: Cache, name: string, now: nat): Answer {
    var c := Purge(c, now);
    if name in c.byName then Answer(c.(lru := Touched(c.lru, name)), Some(c.byName[name].address))
    else
      var c := Evict(c, config.maxEntries);
      var found := Allocate(c);
      match found.address
      case None => Answer(c.(next := found.next), None)
      case Some(address) => Answer(Map(c, name, address, now + config.ttl, found.next), Some(address))
  }

  datatype Looked = Looked(cache: Cache, name: Option<string>)

  function Lookup(c: Cache, address: nat, now: nat): Looked {
    var c := Purge(c, now);
    if address !in c.byIp then Looked(c, None)
    else Looked(c.(lru := Touched(c.lru, c.byIp[address])), Some(c.byIp[address]))
  }

  // ---------------------------------------------------------------- the invariant

  /** The two maps are inverse to each other. */
  ghost predicate Inverse(byName: map<string, Mapping>, byIp: map<nat, string>) {
    && (forall n :: n in byName ==> byName[n].address in byIp && byIp[byName[n].address] == n)
    && (forall a :: a in byIp ==> byIp[a] in byName && byName[byIp[a]].address == a)
  }

  ghost predicate Lists(lru: seq<string>, names: set<string>) {
    Distinct(lru) && forall n :: n in lru <==> n in names
  }

  ghost predicate CacheInv(c: Cache, maxEntries: nat) {
    && Inverse(c.byName, c.byIp)
    && Lists(c.lru, c.byName.Keys)
    && |c.byName| <= maxEntries
    && (forall a :: a in c.byIp ==> Usable(a))
    && InPool(c.next)
  }

  lemma FreshInv(maxEntries: nat)
    ensures CacheInv(Fresh(), maxEntries)
  {
  }

  lemma {:induction false} WithoutDistinct(names: seq<string>, gone: set<string>)
    requires Distinct(names)
    ensures Distinct(Without(names, gone))
  {
    if names != [] {
      WithoutDistinct(names[1..], gone);
    }
  }

  lemma TouchedLists(lru: seq<string>, names: set<string>, name: string)
    requires Lists(lru, names)
    ensures Lists(Touched(lru, name), names + {name})
  {
    WithoutDistinct(lru, {name});
  }

  lemma InverseDrop(byName: map<string, Mapping>, byIp: map<nat, string>, gone: set<string>)
    requires Inverse(byName, byIp)
    ensures Inverse(byName - gone, map a | a in byIp && byIp[a] !in gone :: byIp[a])
  {
  }

  lemma DropAllInv(c: Cache, gone: set<string>, maxEntries: nat)
    requires CacheInv(c, maxEntries)
    ensures CacheInv(DropAll(c, gone), maxEntries)
  {
    hide Without, Inverse, Usable, Lists, InPool;
    InverseDrop(c.byName, c.byIp, gone);
    ListsDrop(c.lru, c.byName.Keys, gone);
    assert (c.byName - gone).Keys == c.byName.Keys - gone;
    SubsetSize((c.byName - gone).Keys, c.byName.Keys);
  }

  lemma ListsDrop(lru: seq<string>, names: set<string>, gone: set<string>)
    requires Lists(lru, names)
    ensures Lists(Without(lru, gone), names - gone)
  {
    WithoutDistinct(lru, gone);
  }

  lemma PopFront(lru: seq<string>, names: set<string>)
    requires Lists(lru, names) && lru != []
    ensures Lists(lru[1..], names - {lru[0]}) && lru[0] in names
  {
  }

  lemma InverseRemove(byName: map<string, Mapping>, byIp: map<nat, string>, name: string)
    requires Inverse(byName, byIp) && name in byName
    ensures Inverse(byName - {name}, byIp - {byName[name].address})
  {
  }

  lemma DropFrontInv(c: Cache, limit: nat)
    requires CacheInv(c, limit) && c.lru != []
    ensures CacheInv(DropFront(c), limit) && |DropFront(c).byName| == |c.byName| - 1
    ensures DropFront(c).byName.Keys == c.byName.Keys - {c.lru[0]} && c.lru[0] in c.byName
  {
    hide Usable, Inverse, Lists, InPool;
    PopFront(c.lru, c.byName.Keys);
    InverseRemove(c.byName, c.byIp, c.lru[0]);
    assert DropFront(c).byName.Keys == c.byName.Keys - {c.lru[0]};
  }

  lemma Listed(c: Cache, limit: nat, name: string)
    requires CacheInv(c, limit)
    ensures name in c.byName <==> name in c.lru
  {
  }

  lemma {:induction false} EvictInv(c: Cache, maxEntries: nat, limit: nat)
    requires CacheInv(c, limit) && maxEntries > 0
    ensures CacheInv(Evict(c, maxEntries), limit) && |Evict(c, maxEntries).byName| < maxEntries
    ensures Evict(c, maxEntries).byName.Keys <= c.byName.Keys && Evict(c, maxEntries).next == c.next
    ensures |c.byName| < maxEntries ==> Evict(c, maxEntries) == c
    decreases |c.lru|
  {
    hide DropFront, CacheInv;
    if |c.byName| >= maxEntries {
      ListedSomething(c, limit);
      DropFrontInv(c, limit);
      EvictInv(DropFront(c), maxEntries, limit);
    }
  }

  lemma ListedSomething(c: Cache, limit: nat)
    requires CacheInv(c, limit) && |c.byName| > 0
    ensures c.lru != []
  {
    var n :| n in c.byName.Keys;
    assert n in c.lru;
  }

  lemma {:induction false} SearchFinds(byIp: map<nat, string>, address: nat, tries: nat)
    requires InPool(address)
    ensures var f := Search(byIp, address, tries); InPool(f.next) && (f.address.Some? ==> Free(byIp, f.address.value))
    decreases tries
  {
    if tries > 0 && !Free(byIp, address) {
      SearchFinds(byIp, Successor(address), tries - 1);
    }
  }

  lemma InverseAdd(byName: map<string, Mapping>, byIp: map<nat, string>, name: string, m: Mapping)
    requires Inverse(byName, byIp) && name !in byName && m.address !in byIp
    ensures Inverse(byName[name := m], byIp[m.address := name])
  {
  }

  lemma MapInv(c: Cache, name: string, address: nat, expiresAt: nat, next: nat, maxEntries: nat)
    requires CacheInv(c, maxEntries) && |c.byName| < maxEntries && name !in c.byName && Free(c.byIp, address)
    requires InPool(next)
    ensures CacheInv(Map(c, name, address, expiresAt, next), maxEntries)
  {
    hide Touched, Inverse, Usable, InPool;
    TouchedLists(c.lru, c.byName.Keys, name);
    InverseAdd(c.byName, c.byIp, name, Mapping(address, expiresAt));
    var d := Map(c, name, address, expiresAt, next);
    assert d.byName.Keys == c.byName.Keys + {name};
  }

  /** Resolving a name keeps the maps inverse, the list complete and the size within its limit. */
  lemma ResolveInv(config: Config, c: Cache, name: string, now: nat)
    requires config.maxEntries > 0 && CacheInv(c, config.maxEntries)
    ensures CacheInv(Resolve(config, c, name, now).cache, config.maxEntries)
  {
    hide DropAll, Touched, Search, Evict, CacheInv, ExpiredNames;
    var p := Purge(c, now);
    DropAllInv(c, ExpiredNames(c, now), config.maxEntries);
    if name in p.byName {
      TouchInv(p, name, config.maxEntries);
    } else {
      var d := Evict(p, config.maxEntries);
      EvictInv(p, config.maxEntries, config.maxEntries);
      assert InPool(d.next) by { NextInPool(d, config.maxEntries); }
      SearchFinds(d.byIp, d.next, POOL);
      var found := Allocate(d);
      if found.address.Some? {
        MapInv(d, name, found.address.value, now + config.ttl, found.next, config.maxEntries);
      } else {
        MoveNext(d, found.next, config.maxEntries);
      }
    }
  }

  lemma NextInPool(c: Cache, maxEntries: nat)
    requires CacheInv(c, maxEntries)
    ensures InPool(c.next)
  {
  }

  lemma MoveNext(c: Cache, next: nat, maxEntries: nat)
    requires CacheInv(c, maxEntries) && InPool(next)
    ensures CacheInv(c.(next := next), maxEntries)
  {
  }

  lemma TouchInv(c: Cache, name: string, maxEntries: nat)
    requires CacheInv(c, maxEntries) && name in c.byName
    ensures CacheInv(c.(lru := Touched(c.lru, name)), maxEntries)
  {
    TouchedLists(c.lru, c.byName.Keys, name);
    hide Touched;
    assert c.byName.Keys + {name} == c.byName.Keys;
  }

  lemma LookupInv(c: Cache, address: nat, now: nat, maxEntries: nat)
    requires CacheInv(c, maxEntries)
    ensures CacheInv(Lookup(c, address, now).cache, maxEntries)
  {
    hide Without;
    var p := Purge(c, now);
    DropAllInv(c, ExpiredNames(c, now), maxEntries);
    if address in p.byIp {
      TouchInv(p, p.byIp[address], maxEntries);
    }
  }
}
