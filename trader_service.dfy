/**
 * `TraderService.getTrader`: a trader record read through the durable cache
 * under the key `trader-<id>` with a one-day TTL. The account service's
 * answer to `getUser(id)` is the parameter `source`; it is asked for only
 * when the cached record is stale.
 */
module TraderRecords {
  import opened Values
  import opened DurableCache

  /** One day, in milliseconds. */
  const TraderTtl := 24 * 60 * 60 * 1000

  /** The cache key of trader `id`. */
  function CacheKey(id: string): (k: string)
    ensures |k| == |id| + 7 && k[..7] == "trader-" && k[7..] == id
  {
    "trader-" + id
  }

  /** Different traders never share a cache entry. */
  lemma CacheKeyInjective(a: string, b: string)
    requires CacheKey(a) == CacheKey(b)
    ensures a == b
  {
    assert a == CacheKey(a)[7..];
    assert b == CacheKey(b)[7..];
  }

  /**
   * `getTrader(id)` against a cache holding `medium`, read at time `now`;
   * a refetch settles at `settledAt`. The result is the resolved record and
   * the medium afterwards. A fresh record is returned as cached. A stale one
   * is refetched: a result is persisted, stamped with the time it settled,
   * and returned; a rejection is swallowed and the cached record returned
   * instead.
   */
  function GetTrader(medium: map<string, Entry>, now: int, settledAt: int, id: string, source: Result<Value, Error>)
    : (r: (Value, map<string, Entry>))
    requires now <= settledAt
    ensures var cached := Read(medium, CacheKey(id)).data;
      && (!IsStale(medium, now, CacheKey(id), Some(TraderTtl)) ==> r == (cached, medium))
      && (IsStale(medium, now, CacheKey(id), Some(TraderTtl)) && source.Success? ==>
            r == (source.value, Write(medium, settledAt, CacheKey(id), source.value)))
      && (IsStale(medium, now, CacheKey(id), Some(TraderTtl)) && source.Failure? ==> r == (cached, medium))
  {
    var key := CacheKey(id);
    var initial := Read(medium, key).data;
    if !IsStale(medium, now, key, Some(TraderTtl)) then (initial, medium)
    else match source
      case Success(record) => (record, Write(medium, settledAt, key, record))
      case Failure(_) => (initial, medium)
  }

  /**
   * `getTrader(id)` run against the cache object: its `fetch`, then, when a
   * refresh was started, the clock moving on to `settledAt` and that refresh
   * settling with `source`. It does what `GetTrader` says to the result and
   * to the medium.
   */
  method GetTraderFrom(cache: OfflineStorage<string>, id: string, settledAt: int, source: Result<Value, Error>)
    returns (record: Value)
    requires cache.now <= settledAt
    modifies cache
    ensures (record, cache.medium) == GetTrader(old(cache.medium), old(cache.now), settledAt, id, source)
    ensures cache.now == if IsStale(old(cache.medium), old(cache.now), CacheKey(id), Some(TraderTtl)) then settledAt else old(cache.now)
  {
    var initial, refresh := cache.Fetch(CacheKey(id), Some(TraderTtl));
    record := initial;
    if refresh.Some? {
      cache.SetClock(settledAt);
      var settled := cache.Settle(refresh.value, source);
      if settled.Success? {
        record := settled.value;
      }
    }
  }

  /**
   * A failed refetch never makes `getTrader` reject: it resolves to the
   * refetched record or to the cached one.
   */
  lemma GetTraderResolves(medium: map<string, Entry>, now: int, settledAt: int, id: string, source: Result<Value, Error>)
    requires now <= settledAt
    ensures var r := GetTrader(medium, now, settledAt, id, source).0;
      r == Read(medium, CacheKey(id)).data || (source.Success? && r == source.value)
  {
  }

  /**
   * Once a refetch has succeeded with a defined record, asking again within
   * a day of its settling returns that record as JSON keeps it, leaves the
   * cache alone and does not consult the source, whatever it would answer.
   */
  lemma GetTraderTwice(medium: map<string, Entry>, now: int, settledAt: int, later: int, later': int, id: string,
                       record: Value, source: Result<Value, Error>)
    requires IsStale(medium, now, CacheKey(id), Some(TraderTtl)) && now <= settledAt
    requires record != Undefined && settledAt <= later <= settledAt + TraderTtl && later <= later'
    ensures var m := GetTrader(medium, now, settledAt, id, Success(record)).1;
      GetTrader(m, later, later', id, source) == (Normalize(record), m)
  {
    assert Normalize(record) != Undefined;
  }

  /** Other traders' cache entries are untouched by `getTrader(id)`. */
  lemma GetTraderSeparate(medium: map<string, Entry>, now: int, settledAt: int, id: string, other: string,
                          source: Result<Value, Error>)
    requires other != id && now <= settledAt
    ensures Read(GetTrader(medium, now, settledAt, id, source).1, CacheKey(other)) == Read(medium, CacheKey(other))
  {
    if CacheKey(other) == CacheKey(id) {
      CacheKeyInjective(other, id);
    }
  }
}
