/** The key-value cache the handlers read through: `get`, `setex` with a
    time-to-live in seconds, and `invalidateCache`, over a logical clock. */
module Caching {
  import opened Domain

  datatype Entry<V> = Entry(value: V, expiresAt: nat)

  type Entries<V> = map<string, Entry<V>>

  /** What `get(key)` answers at time `now`: the stored value until it expires. */
  function Lookup<V>(entries: Entries<V>, now: nat, key: string): Option<V>
  {
    if key in entries && now < entries[key].expiresAt then Some(entries[key].value) else None
  }

  /** The entries after `setex(key, ttl, value)` at time `now`. */
  function Put<V>(entries: Entries<V>, now: nat, key: string, value: V, ttl: nat): Entries<V>
  {
    entries[key := Entry(value, now + ttl)]
  }

  /** The entries left after an invalidation under an eviction policy. */
  function Evict<V>(entries: Entries<V>, req: Invalidation,
                    evicts: (Invalidation, string) -> bool): Entries<V>
  {
    map k | k in entries && !evicts(req, k) :: entries[k]
  }

  /** One read-through step: `get(readKey)`; on a hit the cached value and an
      unchanged cache, on a miss the computed value, stored under `writeKey`. */
  function ReadThrough<V>(entries: Entries<V>, now: nat, readKey: string, writeKey: string,
                          ttl: nat, computed: V): (r: (V, Entries<V>))
    ensures Lookup(entries, now, readKey).Some? ==> r == (Lookup(entries, now, readKey).value, entries)
    ensures Lookup(entries, now, readKey).None? ==>
              && r.0 == computed
              && r.1.Keys == entries.Keys + {writeKey}
              && Lookup(r.1, now, writeKey) == (if ttl > 0 then Some(computed) else None)
              && (forall k :: k in entries && k != writeKey ==> r.1[k] == entries[k])
  {
    match Lookup(entries, now, readKey)
    case Some(v) => (v, entries)
    case None => (computed, Put(entries, now, writeKey, computed, ttl))
  }

  /** A value just written is read back until its time-to-live runs out, and
      the write touches no other key. */
  lemma PutThenLookup<V>(entries: Entries<V>, now: nat, key: string, value: V, ttl: nat,
                         later: nat, other: string)
    requires other != key
    ensures Lookup(Put(entries, now, key, value, ttl), later, key)
            == (if later < now + ttl then Some(value) else None)
    ensures Lookup(Put(entries, now, key, value, ttl), later, other) == Lookup(entries, later, other)
  {
  }

  /** Reading the same key twice at one instant: the second read is a hit that
      returns what the first returned and writes nothing. */
  lemma RepeatedReadHits<V>(entries: Entries<V>, now: nat, key: string,
                              ttl: nat, first: V, second: V)
    requires ttl > 0
    ensures var (v, after) := ReadThrough(entries, now, key, key, ttl, first);
            ReadThrough(after, now, key, key, ttl, second) == (v, after)
  {
  }

  /** When a read-through writes under a key other than the one it reads, a
      miss stays a miss: the second read recomputes. */
  lemma MismatchedKeysMissAgain<V>(entries: Entries<V>, now: nat, readKey: string,
                                   writeKey: string, ttl: nat, first: V, second: V)
    requires readKey != writeKey && Lookup(entries, now, readKey).None?
    ensures var (_, after) := ReadThrough(entries, now, readKey, writeKey, ttl, first);
            ReadThrough(after, now, readKey, writeKey, ttl, second).0 == second
  {
  }

  class Cache<V> {
    var entries: Entries<V>
    /** The logical clock, in seconds. */
    var now: nat
    /** Every invalidation request received, oldest first. */
    var invalidations: seq<Invalidation>
    /** `redisTTL`, the time-to-live of entries written without an explicit one. */
    const defaultTtl: nat
    /** Which keys an invalidation request deletes. The rule lives in
        Utils/features.ts, which is not part of this model, so it is a parameter. */
    const evicts: (Invalidation, string) -> bool

    constructor (defaultTtl: nat, evicts: (Invalidation, string) -> bool)
      ensures entries == map[] && now == 0 && invalidations == []
      ensures this.defaultTtl == defaultTtl && this.evicts == evicts
    {
      this.defaultTtl := defaultTtl;
      this.evicts := evicts;
      entries, now, invalidations := map[], 0, [];
    }

    method Get(key: string) returns (r: Option<V>)
      ensures r == Lookup(entries, now, key)
    {
      if key in entries && now < entries[key].expiresAt {
        r := Some(entries[key].value);
      } else {
        r := None;
      }
    }

    method SetEx(key: string, ttl: nat, value: V)
      modifies this`entries
      ensures entries == Put(old(entries), now, key, value, ttl)
    {
      entries := entries[key := Entry(value, now + ttl)];
    }

    method Invalidate(req: Invalidation)
      modifies this`entries, this`invalidations
      ensures invalidations == old(invalidations) + [req]
      ensures entries == Evict(old(entries), req, evicts)
    {
      entries := map k | k in entries && !evicts(req, k) :: entries[k];
      invalidations := invalidations + [req];
    }

    /** The clock moves on: no entry comes back to life, and one whose
        time-to-live has run out answers nothing. */
    method Advance(seconds: nat)
      modifies this`now
      ensures now == old(now) + seconds
      ensures forall k :: Lookup(entries, now, k).Some? ==> Lookup(entries, old(now), k) == Lookup(entries, now, k)
      ensures forall k :: k in entries && entries[k].expiresAt <= now ==> Lookup(entries, now, k).None?
    {
      now := now + seconds;
    }
  }
}
