/**
 * The in-process TTL cache (app/core/cache.py, the branch taken when no
 * Redis client is configured). Time is the `now` argument, in seconds.
 */
module Cache {
  import opened Wrappers

  /** A stored value and the instant after which it is stale. */
  datatype Entry<V> = Entry(expiresAt: real, value: V)

  /** What `get` returns: the value while `now <= expiresAt`, otherwise nothing. */
  function Lookup<V>(data: map<string, Entry<V>>, key: string, now: real): (r: Option<V>)
    ensures key !in data ==> r.None?
    ensures r.Some? <==> key in data && now <= data[key].expiresAt
    ensures r.Some? ==> r.value == data[key].value
  {
    if key in data && now <= data[key].expiresAt then Some(data[key].value) else None
  }

  /** The table after `get`: an expired entry for `key` is dropped, nothing else changes. */
  function AfterLookup<V>(data: map<string, Entry<V>>, key: string, now: real): (r: map<string, Entry<V>>)
    ensures forall k :: k in data && k != key ==> k in r && r[k] == data[k]
    ensures r.Keys <= data.Keys
    ensures key in r <==> key in data && now <= data[key].expiresAt
  {
    if key in data && data[key].expiresAt < now then data - {key} else data
  }

  /** The table after `invalidate_prefix(prefix)`: exactly the keys starting with `prefix` are gone. */
  function WithoutPrefix<V>(data: map<string, Entry<V>>, prefix: string): (r: map<string, Entry<V>>)
    ensures forall k :: k in r <==> k in data && !(prefix <= k)
    ensures forall k :: k in r ==> r[k] == data[k]
  {
    map k | k in data && !(prefix <= k) :: data[k]
  }

  /** A value stored with `set` at time `t` is read back until `t + ttl` inclusive, and not after. */
  lemma SetThenLookup<V>(data: map<string, Entry<V>>, key: string, value: V, ttl: int, t: real, now: real)
    ensures now <= t + ttl as real ==> Lookup(data[key := Entry(t + ttl as real, value)], key, now) == Some(value)
    ensures now > t + ttl as real ==> Lookup(data[key := Entry(t + ttl as real, value)], key, now) == None
  {
  }

  /** After a miss on `key`, storing `key` gives the table the miss started from, with `key` stored. */
  lemma MissThenSet<V>(data: map<string, Entry<V>>, key: string, now: real, e: Entry<V>)
    requires Lookup(data, key, now).None?
    ensures AfterLookup(data, key, now)[key := e] == data[key := e]
  {
    if key in data && data[key].expiresAt < now {
      assert (data - {key})[key := e] == data[key := e];
    }
  }

  /** Storing one key leaves what every other key reads unchanged. */
  lemma SetOtherKey<V>(data: map<string, Entry<V>>, key: string, other: string, e: Entry<V>, now: real)
    requires other != key
    ensures Lookup(data[key := e], other, now) == Lookup(data, other, now)
  {
  }

  class CacheStore<V> {
    /** `_data`: key to (expiry, value). */
    var data: map<string, Entry<V>>

    constructor ()
      ensures data == map[]
    {
      data := map[];
    }

    /** `get(key)`: absent keys give nothing; an expired entry is removed and gives nothing. */
    method Get(key: string, now: real) returns (r: Option<V>)
      modifies this
      ensures r == Lookup(old(data), key, now)
      ensures data == AfterLookup(old(data), key, now)
    {
      if key !in data {
        return None;
      }
      var entry := data[key];
      if entry.expiresAt < now {
        data := data - {key};
        return None;
      }
      return Some(entry.value);
    }

    /** `set(key, value, ttl_seconds)`: overwrites value and expiry of `key` only. */
    method Set(key: string, value: V, ttlSeconds: int, now: real)
      modifies this
      ensures data == old(data)[key := Entry(now + ttlSeconds as real, value)]
    {
      data := data[key := Entry(now + ttlSeconds as real, value)];
    }

    /** `invalidate(key)`: removes `key` and leaves all other keys as they were. */
    method Invalidate(key: string)
      modifies this
      ensures data == old(data) - {key}
    {
      data := data - {key};
    }

    /** `invalidate_prefix(prefix)`: collects the matching keys, then pops them one by one. */
    method InvalidatePrefix(prefix: string)
      modifies this
      ensures data == WithoutPrefix(old(data), prefix)
    {
      var matching := set k | k in data && prefix <= k;
      ghost var all := matching;
      while matching != {}
        invariant matching <= all
        invariant data == old(data) - (all - matching)
        decreases matching
      {
        var k :| k in matching;
        data := data - {k};
        matching := matching - {k};
      }
      assert data == old(data) - all;
    }
  }
}
