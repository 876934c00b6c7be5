/** The synthetic DNS engine as an object whose maps, list and cursor change in place. */
module SyntheticDns {
  import opened Options
  import opened DnsCache

  lemma DropNothing(c: Cache)
    ensures DropAll(c, {}) == c
  {
    KeepAll(c.lru);
    assert c.byName - {} == c.byName;
    assert (map a | a in c.byIp && c.byIp[a] !in {} :: c.byIp[a]) == c.byIp;
  }

  lemma {:induction false} KeepAll(names: seq<string>)
    ensures Without(names, {}) == names
  {
    if names != [] {
      KeepAll(names[1..]);
    }
  }

  lemma WithoutCons(name: string, names: seq<string>, gone: set<string>)
    ensures Without([name] + names, gone) == (if name in gone then [] else [name]) + Without(names, gone)
  {
    assert ([name] + names)[1..] == names;
  }

  lemma {:induction false} WithoutTwice(names: seq<string>, a: set<string>, b: set<string>)
    ensures Without(Without(names, a), b) == Without(names, a + b)
  {
    if names != [] {
      hide Without;
      var first, rest := names[0], names[1..];
      assert names == [first] + rest;
      WithoutTwice(rest, a, b);
      WithoutCons(first, rest, a);
      WithoutCons(first, rest, a + b);
      if first in a {
        assert [] + Without(rest, a) == Without(rest, a);
      } else {
        WithoutCons(first, Without(rest, a), b);
      }
    }
  }

  /** Dropping one more name. */
  lemma DropOneMore(c: Cache, gone: set<string>, name: string)
    requires Inverse(c.byName, c.byIp) && name in c.byName && name !in gone
    ensures var d := DropAll(c, gone);
            && name in d.byName
            && DropAll(c, gone + {name}) == Cache(d.byName - {name}, d.byIp - {d.byName[name].address}, Without(d.lru, {name}), c.next)
  {
    hide Without;
    WithoutTwice(c.lru, gone, {name});
    var d := DropAll(c, gone);
    assert c.byName - (gone + {name}) == d.byName - {name};
    assert (map a | a in c.byIp && c.byIp[a] !in gone + {name} :: c.byIp[a]) == d.byIp - {d.byName[name].address};
  }

  class SyntheticCache {
    const config: Config
    var byName: map<string, Mapping>
    var byIp: map<nat, string>
    var lru: seq<string>
    var next: nat

    ghost function View(): Cache
      reads this
    {
      Cache(byName, byIp, lru, next)
    }

    ghost predicate Valid()
      reads this
    {
      ValidConfig(config) && CacheInv(View(), config.maxEntries)
    }

    constructor (config: Config)
      requires ValidConfig(config)
      ensures Valid() && View() == Fresh() && this.config == config
    {
      this.config := config;
      byName, byIp, lru, next := map[], map[], [], FIRST;
      new;
      FreshInv(config.maxEntries);
    }

    /** Marks a name as the most recently used. */
    method Touch(name: string)
      modifies this`lru
      ensures lru == Touched(old(lru), name)
    {
      lru := Without(lru, {name}) + [name];
    }

    /** Removes a cached name from both maps and from the list. */
    method RemoveName(name: string)
      modifies this`byName, this`byIp, this`lru
      ensures name in old(byName) ==>
                View() == Cache(old(byName) - {name}, old(byIp) - {old(byName)[name].address},
                                Without(old(lru), {name}), next)
    {
      if name in byName {
        byIp := byIp - {byName[name].address};
        byName := byName - {name};
      }
      lru := Without(lru, {name});
    }

    /** Names go in no particular order. */
    method RemoveEach(names: set<string>)
      requires Inverse(byName, byIp) && names <= byName.Keys
      modifies this`byName, this`byIp, this`lru
      ensures View() == DropAll(old(View()), names)
    {
      hide Without, DropAll, Inverse;
      var left := names;
      ghost var gone: set<string> := {};
      DropNothing(View());
      while left != {}
        invariant names == left + gone && left !! gone
        invariant View() == DropAll(old(View()), gone)
        decreases |left|
      {
        var name :| name in left;
        DropOneMore(old(View()), gone, name);
        RemoveName(name);
        left, gone := left - {name}, gone + {name};
      }
      assert gone == names;
    }

    method PurgeExpired(now: nat)
      requires Valid()
      modifies this`byName, this`byIp, this`lru
      ensures View() == Purge(old(View()), now)
      ensures forall n :: n in byName <==> n in old(byName) && now < old(byName)[n].expiresAt
      ensures forall n :: n in byName ==> byName[n] == old(byName)[n]
    {
      var expired := set n | n in byName && byName[n].expiresAt <= now;
      RemoveEach(expired);
    }

    /** Evicts from the front of the list until one more name fits. */
    method MakeRoom()
      requires Valid()
      modifies this`byName, this`byIp, this`lru
      ensures View() == Evict(old(View()), config.maxEntries)
    {
      while |byName| >= config.maxEntries
        invariant Evict(View(), config.maxEntries) == Evict(old(View()), config.maxEntries) && next == old(next)
        decreases |lru|
      {
        if |lru| == 0 {
          break;
        }
        var oldest := lru[0];
        lru := lru[1..];
        if oldest in byName {
          byIp := byIp - {byName[oldest].address};
        }
        byName := byName - {oldest};
      }
    }

    /** Tries every address of the pool once, from where the last search stopped. */
    method AllocateAddress() returns (address: Option<nat>)
      requires InPool(next)
      modifies this`next
      ensures Found(address, next) == Allocate(old(View()))
    {
      for i := 0 to POOL
        invariant InPool(next) && Search(byIp, next, POOL - i) == Allocate(old(View()))
      {
        var raw := next;
        next := if raw >= LAST then FIRST else raw + 1;
        var last := raw % 256;
        if last != 0 && last != 255 && raw !in byIp {
          return Some(raw);
        }
      }
      address := None;
    }

    method GetOrAllocate(name: string, now: nat) returns (address: Option<nat>)
      requires Valid()
      modifies this
      ensures Valid()
      ensures Answer(View(), address) == Resolve(config, old(View()), name, now)
    {
      hide Without, Search, Evict, DropAll, CacheInv;
      ghost var before := View();
      ResolveInv(config, before, name, now);
      DropAllInv(before, ExpiredNames(before, now), config.maxEntries);
      PurgeExpired(now);
      if name in byName {
        Touch(name);
        return Some(byName[name].address);
      }
      EvictInv(View(), config.maxEntries, config.maxEntries);
      MakeRoom();
      NextInPool(View(), config.maxEntries);
      address := AllocateAddress();
      if address.Some? {
        byIp := byIp[address.value := name];
        byName := byName[name := Mapping(address.value, now + config.ttl)];
        Touch(name);
      }
    }

    method LookupHostname(address: nat, now: nat) returns (name: Option<string>)
      requires Valid()
      modifies this`byName, this`byIp, this`lru
      ensures Valid()
      ensures Looked(View(), name) == Lookup(old(View()), address, now)
    {
      hide Without, DropAll, CacheInv;
      LookupInv(View(), address, now, config.maxEntries);
      PurgeExpired(now);
      if address !in byIp {
        return None;
      }
      name := Some(byIp[address]);
      Touch(byIp[address]);
    }

    method IdentityReset()
      requires Valid()
      modifies this
      ensures Valid() && View() == Fresh()
    {
      byName, byIp, lru, next := map[], map[], [], FIRST;
      FreshInv(config.maxEntries);
    }
  }
}
