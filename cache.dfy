/**
 * The in-memory TTL cache (core/cache.py). The clock reading `time.time()`
 * is passed in as `now`; an entry expires once it is strictly more than
 * `ttl` seconds old.
 */
module Cache {
  import opened Wrappers

  /** A stored value with the time it was stored. */
  type Store<V> = map<string, (V, real)>

  /** An entry stored at `ts` is expired at `now` when more than `ttl`
      seconds have passed. */
  predicate Expired(ts: real, now: real, ttl: int) {
    now - ts > ttl as real
  }

  /** What `get(key)` answers at `now`: the value of a live entry, else `None`. */
  function Lookup<V>(store: Store<V>, key: string, now: real, ttl: int): (r: Option<V>)
    ensures r.Some? <==> key in store && !Expired(store[key].1, now, ttl)
    ensures r.Some? ==> r.value == store[key].0
  {
    if key in store && !Expired(store[key].1, now, ttl) then Some(store[key].0) else None
  }

  /** The entries still live at `now`. */
  function Live<V>(store: Store<V>, now: real, ttl: int): (r: Store<V>)
    ensures forall k :: k in r <==> k in store && !Expired(store[k].1, now, ttl)
    ensures forall k :: k in r ==> r[k] == store[k]
  {
    map k | k in store && !Expired(store[k].1, now, ttl) :: store[k]
  }

  /** The keys expired at `now`. */
  function ExpiredKeys<V>(store: Store<V>, now: real, ttl: int): (r: set<string>)
    ensures forall k :: k in r <==> k in store && Expired(store[k].1, now, ttl)
  {
    set k | k in store && Expired(store[k].1, now, ttl)
  }

  /** A value set at `t` is returned by a lookup at any `t'` up to `ttl`
      seconds later, and setting one key leaves every other key's answer alone. */
  lemma SetThenLookup<V>(store: Store<V>, key: string, value: V, t: real, t': real, ttl: int,
                         other: string)
    requires t' - t <= ttl as real
    requires other != key
    ensures Lookup(store[key := (value, t)], key, t', ttl) == Some(value)
    ensures Lookup(store[key := (value, t)], other, t', ttl) == Lookup(store, other, t', ttl)
  {
  }

  /** Removing the expired entries changes no lookup made at the same time. */
  lemma CleanupPreservesLookups<V>(store: Store<V>, now: real, ttl: int, key: string)
    ensures Lookup(Live(store, now, ttl), key, now, ttl) == Lookup(store, key, now, ttl)
  {
  }

  /** The live and the expired entries partition the store. */
  lemma LiveAndExpiredPartition<V>(store: Store<V>, now: real, ttl: int)
    ensures Live(store, now, ttl).Keys !! ExpiredKeys(store, now, ttl)
    ensures Live(store, now, ttl).Keys + ExpiredKeys(store, now, ttl) == store.Keys
    ensures |Live(store, now, ttl)| + |ExpiredKeys(store, now, ttl)| == |store|
  {
    var live, dead := Live(store, now, ttl).Keys, ExpiredKeys(store, now, ttl);
    assert live + dead == store.Keys;
    assert |live + dead| == |live| + |dead|;
  }

  class CacheManager<V> {
    var store: Store<V>
    const ttl: int

    constructor (ttlSeconds: int := 3600)
      ensures store == map[] && ttl == ttlSeconds
    {
      store := map[];
      ttl := ttlSeconds;
    }

    /** `get(key)` at `now`: a missing key answers `None` and changes
        nothing; an expired key answers `None` and is deleted, alone. */
    method Get(key: string, now: real) returns (r: Option<V>)
      modifies this
      ensures r == Lookup(old(store), key, now, ttl)
      ensures store == if key in old(store) && Expired(old(store)[key].1, now, ttl)
                       then old(store) - {key} else old(store)
    {
      if key !in store {
        return None;
      }
      var (value, timestamp) := store[key];
      if Expired(timestamp, now, ttl) {
        store := store - {key};
        return None;
      }
      return Some(value);
    }

    /** `set(key, value)` at `now`: overwrites both value and timestamp. */
    method Set(key: string, value: V, now: real)
      modifies this
      ensures store == old(store)[key := (value, now)]
    {
      store := store[key := (value, now)];
    }

    method Clear()
      modifies this
      ensures store == map[]
    {
      store := map[];
    }

    /** `cleanup_expired()` at `now`: deletes exactly the expired entries and
        returns how many there were. */
    method CleanupExpired(now: real) returns (count: nat)
      modifies this
      ensures store == Live(old(store), now, ttl)
      ensures count == |ExpiredKeys(old(store), now, ttl)|
      ensures count + |store| == |old(store)|
    {
      var expired := ExpiredKeys(store, now, ttl);
      LiveAndExpiredPartition(store, now, ttl);
      var remaining := expired;
      count := 0;
      while remaining != {}
        invariant remaining <= expired
        invariant count == |expired| - |remaining|
        invariant store == map k | k in old(store) && k !in expired - remaining :: old(store)[k]
        decreases |remaining|
      {
        var k :| k in remaining;
        store := store - {k};
        remaining := remaining - {k};
        count := count + 1;
      }
      assert store == Live(old(store), now, ttl);
    }
  }
}
