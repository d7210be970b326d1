/**
 * The response cache of internal/provider/performance_utils.go: CacheEntry, ProviderCache and
 * the cache-aside getters of PerformanceOptimizedClient.
 *
 * Time is a parameter: `now` is the wall clock reading (nanoseconds) at which an operation runs.
 * The mutex is dropped and the operations run one after another; the rate limiter's Wait is an
 * input that either lets the call through or fails.
 */
module ResponseCache {
  import opened Wrappers
  import opened Models
  import opened Transport

  /** The value an entry holds: `interface{}` in the source, so any record, or something else. */
  datatype CacheData =
    | ApplicationData(application: Application)
    | DatabaseData(database: Database)
    | StaticSiteData(staticSite: StaticSite)
    | PipelineData(pipeline: Pipeline)
    | ForeignData

  /** CacheEntry: the data, when it was stored and for how long it stays live. */
  datatype CacheEntry = CacheEntry(data: CacheData, timestamp: int, ttl: int)

  /** CacheEntry.IsExpired: strictly older than its TTL. */
  predicate IsExpired(e: CacheEntry, now: int) {
    now - e.timestamp > e.ttl
  }

  /** An entry whose age equals its TTL is still live; one nanosecond later it has expired. */
  lemma ExpiryIsStrict(e: CacheEntry)
    ensures !IsExpired(e, e.timestamp + e.ttl)
    ensures IsExpired(e, e.timestamp + e.ttl + 1)
  {
  }

  /** What Get finds under `key` at time `now`: the data of a live entry, or nothing. */
  function Lookup(entries: map<string, CacheEntry>, key: string, now: int): (r: Option<CacheData>)
    ensures r.Some? <==> key in entries && !IsExpired(entries[key], now)
    ensures r.Some? ==> r.value == entries[key].data
  {
    if key in entries && !IsExpired(entries[key], now) then Some(entries[key].data) else None
  }

  /** The entries ClearExpired keeps: exactly the live ones, unchanged. */
  function Live(entries: map<string, CacheEntry>, now: int): (r: map<string, CacheEntry>)
    ensures forall k :: k in r <==> k in entries && !IsExpired(entries[k], now)
    ensures forall k :: k in r ==> r[k] == entries[k]
  {
    map k | k in entries && !IsExpired(entries[k], now) :: entries[k]
  }

  /** Stored at t with TTL ttl, the data is found at every time up to t + ttl. */
  lemma SetThenGetHits(entries: map<string, CacheEntry>, key: string, data: CacheData, t: int, ttl: int, now: int)
    requires now <= t + ttl
    ensures Lookup(entries[key := CacheEntry(data, t, ttl)], key, now) == Some(data)
  {
  }

  /** After t + ttl the stored data is no longer found. */
  lemma SetThenGetExpires(entries: map<string, CacheEntry>, key: string, data: CacheData, t: int, ttl: int, now: int)
    requires now > t + ttl
    ensures Lookup(entries[key := CacheEntry(data, t, ttl)], key, now) == None
  {
  }

  /** Storing under one key changes what no other key finds. */
  lemma SetLeavesOtherKeys(entries: map<string, CacheEntry>, key: string, e: CacheEntry, other: string, now: int)
    requires other != key
    ensures Lookup(entries[key := e], other, now) == Lookup(entries, other, now)
  {
  }

  /** Dropping the expired entries changes no lookup made at the same time. */
  lemma LiveKeepsEveryLookup(entries: map<string, CacheEntry>, key: string, now: int)
    ensures Lookup(Live(entries, now), key, now) == Lookup(entries, key, now)
  {
  }

  /** Deleting a key makes it miss and changes no other key's lookup. */
  lemma DeleteRemovesOnlyThatKey(entries: map<string, CacheEntry>, key: string, other: string, now: int)
    ensures Lookup(entries - {key}, key, now) == None
    ensures other != key ==> Lookup(entries - {key}, other, now) == Lookup(entries, other, now)
  {
  }

  /** ProviderCache: a map from key to entry, replaced or edited in place. */
  class ProviderCache {
    var entries: map<string, CacheEntry>

    /** NewProviderCache. */
    constructor()
      ensures entries == map[]
    {
      entries := map[];
    }

    /** Get: the live entry's data; a missing or expired key misses and is left in place. */
    method Get(key: string, now: int) returns (data: Option<CacheData>)
      ensures data == Lookup(entries, key, now)
      ensures data.None? <==> key !in entries || IsExpired(entries[key], now)
    {
      if key in entries && !IsExpired(entries[key], now) {
        data := Some(entries[key].data);
      } else {
        data := None;
      }
    }

    /** Set: a new entry stamped `now`; every other key is untouched. */
    method Set(key: string, data: CacheData, ttl: int, now: int)
      modifies this
      ensures entries == old(entries)[key := CacheEntry(data, now, ttl)]
    {
      entries := entries[key := CacheEntry(data, now, ttl)];
    }

    /** Clear: an empty map, so every Get misses. */
    method Clear()
      modifies this
      ensures entries == map[]
      ensures forall k, t :: Lookup(entries, k, t).None?
    {
      entries := map[];
    }

    /** ClearExpired: visits every key once, deleting those whose entry has expired. */
    method ClearExpired(now: int)
      modifies this
      ensures entries == Live(old(entries), now)
    {
      ghost var initial := entries;
      var pending := entries.Keys;
      while pending != {}
        invariant pending <= initial.Keys
        invariant forall k :: k in entries <==> k in initial && (k in pending || !IsExpired(initial[k], now))
        invariant forall k :: k in entries ==> entries[k] == initial[k]
        decreases pending
      {
        var key :| key in pending;
        if IsExpired(entries[key], now) {
          entries := entries - {key};
        }
        pending := pending - {key};
      }
      assert entries == Live(initial, now);
    }
  }

  // ---------------------------------------------------------------- cache-aside getters

  /** The kinds with a cached getter. */
  datatype CachedKind = ApplicationKind | DatabaseKind | StaticSiteKind | PipelineKind

  /** The resource-type prefix of each kind's key. */
  function KeyPrefix(k: CachedKind): string {
    match k
    case ApplicationKind => "application"
    case DatabaseKind => "database"
    case StaticSiteKind => "static_site"
    case PipelineKind => "pipeline"
  }

  /** The key of a resource: type + ":" + id, as the getters and InvalidateCache build it. */
  function CacheKey(resourceType: string, id: string): string {
    resourceType + ":" + id
  }

  /** The keys of two different kinds never coincide, whatever the ids. */
  lemma CacheKeysOfKindsDiffer(k1: CachedKind, k2: CachedKind, a: string, b: string)
    requires k1 != k2
    ensures CacheKey(KeyPrefix(k1), a) != CacheKey(KeyPrefix(k2), b)
  {
    assert CacheKey(KeyPrefix(k1), a)[0] == KeyPrefix(k1)[0];
    assert CacheKey(KeyPrefix(k2), b)[0] == KeyPrefix(k2)[0];
  }

  /** Within a kind, the key determines the id. */
  lemma CacheKeyDeterminesId(k: CachedKind, a: string, b: string)
    requires CacheKey(KeyPrefix(k), a) == CacheKey(KeyPrefix(k), b)
    ensures a == b
  {
    var n := |KeyPrefix(k)| + 1;
    assert CacheKey(KeyPrefix(k), a)[n..] == a;
    assert CacheKey(KeyPrefix(k), b)[n..] == b;
  }

  /** The type assertion a getter applies to what the cache holds. */
  predicate HoldsKind(k: CachedKind, d: CacheData) {
    match k
    case ApplicationKind => d.ApplicationData?
    case DatabaseKind => d.DatabaseData?
    case StaticSiteKind => d.StaticSiteData?
    case PipelineKind => d.PipelineData?
  }

  /** The TTL every getter stores with: five minutes. */
  const CachedTTL: int := 300_000_000_000

  /** The error a getter passes on unchanged: the rate limiter's, or the service's. */
  datatype GetterError = WaitFailed(reason: string) | FetchFailed(error: ApiError)

  /** PerformanceOptimizedClient, as far as its cache is concerned. */
  class PerformanceOptimizedClient {
    const cache: ProviderCache

    constructor(cache: ProviderCache)
      ensures this.cache == cache
    {
      this.cache := cache;
    }

    /**
     * GetApplicationCached, GetDatabaseCached, GetStaticSiteCached and GetPipelineCached (one
     * body over the kind). `wait` is the rate limiter's error, if any; `fetch` is what the
     * service's Get returns for `id` and is consulted only when the cache does not answer.
     */
    method GetCached(kind: CachedKind, id: string, now: int, wait: Option<string>, fetch: Result<CacheData, ApiError>)
      returns (r: Result<CacheData, GetterError>, fetched: bool)
      requires fetch.Success? ==> HoldsKind(kind, fetch.value)
      modifies cache
      ensures var key := CacheKey(KeyPrefix(kind), id);
              var hit := Lookup(old(cache.entries), key, now);
              if hit.Some? && HoldsKind(kind, hit.value) then
                r == Success(hit.value) && !fetched && cache.entries == old(cache.entries)
              else if wait.Some? then
                r == Failure(WaitFailed(wait.value)) && !fetched && cache.entries == old(cache.entries)
              else
                && fetched
                && (fetch.Failure? ==> r == Failure(FetchFailed(fetch.error)) && cache.entries == old(cache.entries))
                && (fetch.Success? ==> r == Success(fetch.value)
                                       && cache.entries == old(cache.entries)[key := CacheEntry(fetch.value, now, CachedTTL)])
      ensures r.Success? ==> HoldsKind(kind, r.value)
    {
      var key := CacheKey(KeyPrefix(kind), id);
      var cached := cache.Get(key, now);
      if cached.Some? && HoldsKind(kind, cached.value) {
        return Success(cached.value), false;
      }
      if wait.Some? {
        return Failure(WaitFailed(wait.value)), false;
      }
      fetched := true;
      if fetch.Failure? {
        return Failure(FetchFailed(fetch.error)), fetched;
      }
      cache.Set(key, fetch.value, CachedTTL, now);
      r := Success(fetch.value);
    }

    /** InvalidateCache: removes the one entry under resourceType + ":" + id. */
    method InvalidateCache(resourceType: string, id: string)
      modifies cache
      ensures cache.entries == old(cache.entries) - {CacheKey(resourceType, id)}
    {
      cache.entries := cache.entries - {CacheKey(resourceType, id)};
    }

    /** ClearCache. */
    method ClearCache()
      modifies cache
      ensures cache.entries == map[]
    {
      cache.Clear();
    }
  }
}
