/**
 * The durable stale-while-revalidate cache (`OfflineStorage`). The synchronous
 * key/value medium (`localStorage`) is the map `medium`, and `Date.now()` is
 * the field `now`. Every entry it writes is `{data, time}` as JSON, so what it
 * reads back is the JSON round trip of what was written.
 */
module DurableCache {
  import opened Values

  /** A persisted entry `{data, time}` after its JSON round trip. */
  datatype Entry = Entry(data: Value, time: int)

  /** What a read yields: `{}` for a missing entry, so both parts can be absent. */
  datatype Stored = Stored(data: Value, time: Option<int>)

  /** A refresh that `fetch` started and that has not settled yet. */
  datatype Refresh<K> = Refresh(key: K)

  /** Reading `key`: a missing entry reads as `{}`, that is undefined data and time. */
  function Read<K(==)>(medium: map<K, Entry>, key: K): (r: Stored)
    ensures key !in medium ==> r.data == Undefined && r.time == None
    ensures key in medium ==> r.data == medium[key].data && r.time == Some(medium[key].time)
  {
    if key in medium then Stored(medium[key].data, Some(medium[key].time)) else Stored(Undefined, None)
  }

  /** Persisting `value` under `key` at time `now`, replacing any prior entry. */
  function Write<K(==)>(medium: map<K, Entry>, now: int, key: K, value: Value): (r: map<K, Entry>)
    ensures r.Keys == medium.Keys + {key}
    ensures r[key] == Entry(Normalize(value), now)
    ensures forall k :: k in medium && k != key ==> r[k] == medium[k]
  {
    medium[key := Entry(Normalize(value), now)]
  }

  /**
   * Whether `fetch` must refresh `key`: when its data is undefined, or when
   * `time + ttl < now`. An undefined TTL makes that sum NaN, and a comparison
   * with NaN is false, so defined data is then never stale.
   */
  predicate IsStale<K(==)>(medium: map<K, Entry>, now: int, key: K, ttl: Option<int>)
    ensures key !in medium ==> IsStale(medium, now, key, ttl)
    ensures ttl.None? ==> (IsStale(medium, now, key, ttl) <==> Read(medium, key).data == Undefined)
    ensures key in medium && medium[key].data != Undefined && ttl.Some? ==>
      (IsStale(medium, now, key, ttl) <==> now - medium[key].time > ttl.value)
  {
    var stored := Read(medium, key);
    stored.data == Undefined || (ttl.Some? && stored.time.Some? && stored.time.value + ttl.value < now)
  }

  class OfflineStorage<K(==)> {
    var medium: map<K, Entry>
    var now: int

    constructor (medium: map<K, Entry>, now: int)
      ensures this.medium == medium && this.now == now
    {
      this.medium := medium;
      this.now := now;
    }

    /** `get(key)`: the last persisted `{data, time}`, or `{}` when never written. */
    function Get(key: K): (r: Stored)
      reads this
      ensures key in medium <==> r.time.Some?
      ensures key !in medium ==> r.data == Undefined
      ensures key in medium ==> r.data == medium[key].data && r.time == Some(medium[key].time)
    {
      Read(medium, key)
    }

    /** `update(key, value)`: persist `value` stamped with the current time. */
    method Update(key: K, value: Value)
      modifies this
      ensures medium == Write(old(medium), old(now), key, value)
      ensures now == old(now)
      ensures Get(key) == Stored(Normalize(value), Some(now))
    {
      medium := Write(medium, now, key, value);
    }

    /** `Date.now()` moving on; the model's clock is set from outside. */
    method SetClock(t: int)
      modifies this
      ensures now == t && medium == old(medium)
    {
      now := t;
    }

    /**
     * `fetch(key, ttl, fetchFn)`: returns the stored data, even when it has
     * expired, and starts a refresh exactly when the entry is stale. Reading
     * does not change the medium; the refresh settles in `Settle`.
     */
    method Fetch(key: K, ttl: Option<int>) returns (cached: Value, refresh: Option<Refresh<K>>)
      ensures cached == Get(key).data
      ensures refresh.Some? <==> IsStale(medium, now, key, ttl)
      ensures refresh.Some? ==> refresh.value.key == key
    {
      cached := Read(medium, key).data;
      refresh := if IsStale(medium, now, key, ttl) then Some(Refresh(key)) else None;
    }

    /**
     * The refresh promise settling with `outcome` (what `fetchFn()` resolved
     * or rejected with): a result is persisted with the time of settling and
     * then passed on; a rejection is passed on and writes nothing.
     */
    method Settle(refresh: Refresh<K>, outcome: Result<Value, Error>) returns (r: Result<Value, Error>)
      modifies this
      ensures r == outcome && now == old(now)
      ensures outcome.Success? ==> medium == Write(old(medium), now, refresh.key, outcome.value)
      ensures outcome.Failure? ==> medium == old(medium)
    {
      if outcome.Success? {
        medium := Write(medium, now, refresh.key, outcome.value);
      }
      r := outcome;
    }
  }

  /** `get` straight after `update` gives back the value (as JSON keeps it) and the current time. */
  lemma ReadAfterWrite<K>(medium: map<K, Entry>, now: int, key: K, value: Value, other: K)
    ensures Read(Write(medium, now, key, value), key) == Stored(Normalize(value), Some(now))
    ensures other != key ==> Read(Write(medium, now, key, value), other) == Read(medium, other)
  {
  }

  /** A value JSON represents exactly reads back as itself. */
  lemma ReadAfterWriteJson<K>(medium: map<K, Entry>, now: int, key: K, value: Value)
    requires IsJson(value)
    ensures Read(Write(medium, now, key, value), key).data == value
  {
    NormalizeKeepsJson(value);
  }

  /**
   * A defined value just written is fresh for any non-negative TTL, and for an
   * undefined one: `fetch` then returns it and starts no refresh.
   */
  lemma {:induction false} FreshAfterWrite<K>(medium: map<K, Entry>, now: int, key: K, value: Value, ttl: Option<int>)
    requires value != Undefined
    requires ttl.Some? ==> ttl.value >= 0
    ensures !IsStale(Write(medium, now, key, value), now, key, ttl)
  {
    assert Normalize(value) != Undefined;
  }

  /** An entry written at `t0` is stale once `now` passes `t0 + ttl`, and its data is still what `fetch` returns. */
  lemma StaleAfterTtl<K>(medium: map<K, Entry>, t0: int, key: K, value: Value, ttl: int, now: int)
    requires t0 + ttl < now
    ensures IsStale(Write(medium, t0, key, value), now, key, Some(ttl))
    ensures Read(Write(medium, t0, key, value), key).data == Normalize(value)
  {
  }

  /** With no entry at all, `fetch` always refreshes, whatever the TTL. */
  lemma MissingIsStale<K>(medium: map<K, Entry>, now: int, key: K, ttl: Option<int>)
    requires key !in medium
    ensures IsStale(medium, now, key, ttl) && Read(medium, key).data == Undefined
  {
  }
}
