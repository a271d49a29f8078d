/** The two in-process TTL caches (`cache` for conditions responses and
    `map_cache` for the map overview). Each is a map from a string key to an
    entry holding the value and its expiry instant. The wall clock is passed in
    as `now` (seconds); a cache operation returns the new cache state. */
module Cache {
  import opened Wrappers

  /** Both caches keep entries for ten minutes. */
  const CacheTtlSeconds: real := 600.0
  const MapCacheTtlSeconds: real := 600.0

  datatype Entry<V> = Entry(value: V, expiresAt: real)

  type Store<V> = map<string, Entry<V>>

  /** The outcome of a lookup: the value found (if any) and the cache after it. */
  datatype Lookup<V> = Lookup(found: Option<V>, store: Store<V>)

  /** `set_cache` / `set_map_cache`: (re)place `key` with an entry that expires
      `ttl` seconds after `now`. */
  function Set<V>(c: Store<V>, key: string, value: V, now: real, ttl: real): (c': Store<V>)
    ensures key in c' && c'[key].value == value && c'[key].expiresAt == now + ttl
    ensures c'.Keys == c.Keys + {key}
    ensures forall k :: k in c && k != key ==> k in c' && c'[k] == c[k]
  {
    c[key := Entry(value, now + ttl)]
  }

  /** `get_cache` / `get_map_cache`: a missing key is a miss; an entry whose
      expiry instant lies strictly before `now` is a miss and is evicted;
      otherwise the stored value is returned and the cache is unchanged. */
  function Get<V>(c: Store<V>, key: string, now: real): (r: Lookup<V>)
    ensures key !in c ==> r.found == None && r.store == c
    ensures key in c && now <= c[key].expiresAt ==> r.found == Some(c[key].value) && r.store == c
    ensures key in c && now > c[key].expiresAt ==> r.found == None && key !in r.store
    ensures r.store.Keys <= c.Keys && c.Keys - r.store.Keys <= {key}
    ensures forall k :: k in r.store ==> r.store[k] == c[k]
  {
    if key !in c then Lookup(None, c)
    else if now > c[key].expiresAt then Lookup(None, c - {key})
    else Lookup(Some(c[key].value), c)
  }

  /** In either cache, a value stored at time `t` is served by every lookup
      up to and including `t + 600`, and the lookup leaves the cache as it was. */
  lemma SetThenGetFresh<V>(c: Store<V>, key: string, value: V, t: real, ttl: real, now: real)
    requires ttl == CacheTtlSeconds || ttl == MapCacheTtlSeconds
    requires now <= t + 600.0
    ensures Get(Set(c, key, value, t, ttl), key, now) == Lookup(Some(value), Set(c, key, value, t, ttl))
  {
  }

  /** In either cache, any lookup strictly after `t + 600` misses and evicts
      the key, leaving every other entry as it was before the store. */
  lemma SetThenGetExpired<V>(c: Store<V>, key: string, value: V, t: real, ttl: real, now: real)
    requires ttl == CacheTtlSeconds || ttl == MapCacheTtlSeconds
    requires now > t + 600.0
    ensures Get(Set(c, key, value, t, ttl), key, now).found == None
    ensures Get(Set(c, key, value, t, ttl), key, now).store == c - {key}
  {
  }

  /** Storing one key never changes the answer for another key, and looking one
      key up never disturbs another key's entry. */
  lemma OtherKeysUnaffected<V>(c: Store<V>, key: string, other: string, value: V, t: real, ttl: real, now: real)
    requires other != key
    ensures Get(Set(c, key, value, t, ttl), other, now).found == Get(c, other, now).found
    ensures Get(Set(c, key, value, t, ttl), other, now).store == Set(Get(c, other, now).store, key, value, t, ttl)
    ensures other in c ==> (other in Get(c, key, now).store && Get(c, key, now).store[other] == c[other])
  {
  }
}
