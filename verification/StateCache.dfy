/** The state cache: packages/core/src/defaults/CachingStateProvider.ts. The LRU is modelled by its
    contract: at every operation any set of entries may leave the cache (`lost`), and the eviction
    callbacks are called for each of them unless they are disabled for its key. */
module StateCache {
  import opened Wrappers
  import opened InMemorySink
  import opened EventSourcing

  type Cache<+S> = map<string, Version<S>>

  /** Does the cache answer a request (line 74)? */
  predicate Hits<S>(cache: Cache<S>, key: string, atSn: Option<nat>) {
    key in cache && (atSn.None? || cache[key].seqNum == atSn.value)
  }

  /** Lines 76-78: a loaded version is kept only when the key has none. */
  function Filled<S>(cache: Cache<S>, v: Version<S>): Cache<S> {
    if v.key in cache then cache else cache[v.key := v]
  }

  /** Lines 103-108: a computed version replaces an older one. */
  function Updated<S>(cache: Cache<S>, v: Version<S>): Cache<S> {
    if v.key !in cache || cache[v.key].seqNum < v.seqNum then cache[v.key := v] else cache
  }

  class CachingStateProvider<S(!new), N, E(!new)> {
    const agg: Aggregator<S, N, E>
    var cache: Cache<S>
    var callbacksDisabledFor: set<string>

    constructor (agg: Aggregator<S, N, E>)
      ensures this.agg == agg && cache == map[] && callbacksDisabledFor == {}
    {
      this.agg, cache, callbacksDisabledFor := agg, map[], {};
    }

    /** Lines 49-55: entries leave the cache; the result lists the keys the callbacks are called with. */
    method Lose(keys: set<string>) returns (evicted: set<string>)
      modifies this`cache
      ensures cache == old(cache) - keys
      ensures evicted == keys * old(cache).Keys - callbacksDisabledFor
    {
      evicted := keys * cache.Keys - callbacksDisabledFor;
      cache := cache - keys;
    }

    /** Lines 73-74. */
    method Lookup(key: string, atSn: Option<nat>, lost: set<string>) returns (hit: Option<Version<S>>,
        evicted: set<string>)
      modifies this`cache
      ensures cache == old(cache) - lost
      ensures evicted == lost * old(cache).Keys - callbacksDisabledFor
      ensures hit == if Hits(cache, key, atSn) then Some(cache[key]) else None
    {
      evicted := Lose(lost);
      hit := if Hits(cache, key, atSn) then Some(cache[key]) else None;
    }

    /** Lines 76-78, after the underlying provider has answered. */
    method Fill(v: Version<S>, lost: set<string>) returns (evicted: set<string>)
      modifies this`cache
      ensures cache == Filled(old(cache), v) - lost
      ensures evicted == lost * Filled(old(cache), v).Keys - callbacksDisabledFor
    {
      if v.key !in cache {
        cache := cache[v.key := v];
      }
      evicted := Lose(lost);
    }

    /** Lines 68-83. What is returned is a clone, which has lost its epoch. */
    method Get(storage: Storage<E>, key: string, atSn: Option<nat>, lost: set<string>) returns (v: Version<S>)
      requires agg.SnapRestores()
      requires forall k | k in cache :: cache[k].key == k
      modifies this`cache
      ensures var c := old(cache) - lost;
              && v == (if Hits(c, key, atSn) then c[key].(epoch := None) else Fetch(agg, storage, key, atSn))
              && cache == if Hits(c, key, atSn) then c else Filled(c, v)
    {
      var hit, evicted := Lookup(key, atSn, lost);
      var stateRef;
      if hit.Some? {
        stateRef := hit.value;
      } else {
        stateRef := Fetch(agg, storage, key, atSn);
        evicted := Fill(stateRef, {});
      }
      v := Version(agg.create(Some(agg.snap(stateRef.state))), key, stateRef.seqNum, None);
    }

    /** Lines 85-101, for one key: deleting an entry on purpose calls no callback. */
    method Invalidate(key: string) returns (evicted: set<string>)
      modifies this
      ensures cache == old(cache) - {key} && evicted == {}
      ensures callbacksDisabledFor == old(callbacksDisabledFor) - {key}
    {
      callbacksDisabledFor := callbacksDisabledFor + {key};
      evicted := Lose({key});
      callbacksDisabledFor := callbacksDisabledFor - {key};
    }

    /** Lines 103-108. */
    method Set(v: Version<S>, lost: set<string>) returns (evicted: set<string>)
      modifies this`cache
      ensures cache == Updated(old(cache) - lost, v)
      ensures evicted == lost * old(cache).Keys - callbacksDisabledFor
    {
      evicted := Lose(lost);
      if v.key !in cache || cache[v.key].seqNum < v.seqNum {
        cache := cache[v.key := v];
      }
    }
  }

  // ---------- what stays in the cache ----------

  /** A loaded state never takes the place of a cached one; a computed one does exactly if it is newer, so
      that no cached state ever gets older. */
  lemma NewestStays<S>(cache: Cache<S>, v: Version<S>, key: string)
    ensures key in Filled(cache, v) <==> key in cache || key == v.key
    ensures key in cache ==> Filled(cache, v)[key] == cache[key]
    ensures v.key !in cache ==> Filled(cache, v)[v.key] == v
    ensures key in Updated(cache, v) <==> key in cache || key == v.key
    ensures key in cache && key != v.key ==> Updated(cache, v)[key] == cache[key]
    ensures v.key in cache && cache[v.key].seqNum >= v.seqNum ==> Updated(cache, v)[v.key] == cache[v.key]
    ensures v.key !in cache || cache[v.key].seqNum < v.seqNum ==> Updated(cache, v)[v.key] == v
  {
  }

  /** A request is answered from the cache exactly if the state is cached and is the one that is asked for. */
  lemma HitIff<S>(cache: Cache<S>, key: string, atSn: Option<nat>)
    ensures Hits(cache, key, atSn) <==> key in cache && atSn in {None, Some(cache[key].seqNum)}
  {
  }

  // ---------- coherence ----------

  /** Every cached version is what the first `seqNum` events of its stream make of the state. */
  ghost predicate Coherent<S(!new), N, E>(agg: Aggregator<S, N, E>, storage: Storage<E>, cache: Cache<S>) {
    forall k | k in cache :: cache[k].key == k && Replays(agg, Stream(storage, k), cache[k])
  }

  /** If the state of `key` is cached, it is the current one. */
  predicate UpToDate<S, E>(storage: Storage<E>, cache: Cache<S>, key: string) {
    key in cache ==> cache[key].seqNum == |Stream(storage, key)|
  }

  ghost predicate Grows<E>(storage: Storage<E>, later: Storage<E>) {
    forall k :: Stream(storage, k) <= Stream(later, k)
  }

  /** What anybody appends to the store leaves the cache coherent, if out of date. */
  lemma StillCoherent<S(!new), N, E>(agg: Aggregator<S, N, E>, storage: Storage<E>, later: Storage<E>, cache: Cache<S>)
    requires Coherent(agg, storage, cache) && Grows(storage, later)
    ensures Coherent(agg, later, cache)
  {
    forall k | k in cache ensures Replays(agg, Stream(later, k), cache[k]) {
      StillReplays(agg, Stream(storage, k), Stream(later, k), cache[k]);
    }
  }
}
