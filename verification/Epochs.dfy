/** Epochs fence off work that started before a conflict: packages/core/src/internal/EpochManager.ts and
    EpochStateProvider.ts around the state cache, and lines 115-132 of SinkCoordinator.ts. */
module Epochs {
  import opened Wrappers
  import opened Model
  import opened BatchHandling
  import opened Filters
  import opened InMemorySink
  import opened Coordinator
  import opened EventSourcing
  import opened StateCache

  // ---------- the epochs and the cache together ----------

  datatype Fence<+S> = Fence(epochs: map<string, nat>, cache: Cache<S>)

  /** A key moves on to the next epoch, and its cached state goes without resetting the epoch. */
  function Invalidated<S>(f: Fence<S>, key: string): Fence<S> {
    Fence(f.epochs[key := EpochOf(f.epochs, key) + 1], f.cache - {key})
  }

  /** Entries leave the cache by themselves: their epochs start over. */
  function Evicted<S>(f: Fence<S>, keys: set<string>): Fence<S> {
    Fence(f.epochs - keys * f.cache.Keys, f.cache - keys)
  }

  /** EpochStateProvider.ts:60. */
  predicate Accepts<S>(f: Fence<S>, v: Version<S>) {
    v.epoch == Some(EpochOf(f.epochs, v.key))
  }

  function SetTo<S>(f: Fence<S>, v: Version<S>): Fence<S> {
    if Accepts(f, v) then f.(cache := Updated(f.cache, v)) else f
  }

  function InvalidatedAll<S>(f: Fence<S>, keys: set<string>): Fence<S> {
    Fence(map k | k in f.epochs.Keys + keys :: if k in keys then EpochOf(f.epochs, k) + 1 else f.epochs[k],
        f.cache - keys)
  }

  /** What can happen to the epochs and the cache: a key is invalidated, entries are dropped by the LRU, one
      is deleted on purpose, a loaded state is kept, a computed one is offered. */
  datatype Change<+S> =
    | Invalidate(key: string) | Drop(keys: set<string>) | Delete(key: string)
    | Load(version: Version<S>) | Set(version: Version<S>)

  function Apply<S>(f: Fence<S>, c: Change<S>): Fence<S> {
    match c
    case Invalidate(key) => Invalidated(f, key)
    case Drop(keys) => Evicted(f, keys)
    case Delete(key) => f.(cache := f.cache - {key})
    case Load(v) => f.(cache := Filled(f.cache, v))
    case Set(v) => SetTo(f, v)
  }

  function After<S>(f: Fence<S>, changes: seq<Change<S>>): Fence<S> {
    if |changes| == 0 then f else Apply(After(f, changes[..|changes| - 1]), changes[|changes| - 1])
  }

  class EpochManager {
    var epochs: map<string, nat>

    constructor ()
      ensures epochs == map[]
    {
      epochs := map[];
    }

    /** EpochManager.ts:17-19. */
    method Get(key: string) returns (epoch: nat)
      ensures epoch == EpochOf(epochs, key)
    {
      epoch := if key in epochs && epochs[key] != 0 then epochs[key] else 1;
    }

    /** Lines 21-22; the callbacks are the provider's. */
    method Advance(key: string)
      modifies this
      ensures epochs == old(epochs)[key := EpochOf(old(epochs), key) + 1]
    {
      var epoch := Get(key);
      epochs := epochs[key := epoch + 1];
    }

    /** Lines 28-30. */
    method Evict(key: string)
      modifies this
      ensures epochs == old(epochs) - {key}
    {
      epochs := epochs - {key};
    }
  }

  class EpochStateProvider<S(!new), N, E(!new)> {
    const manager: EpochManager
    const underlying: CachingStateProvider<S, N, E>

    constructor (manager: EpochManager, underlying: CachingStateProvider<S, N, E>)
      ensures this.manager == manager && this.underlying == underlying
    {
      this.manager, this.underlying := manager, underlying;
    }

    function State(): Fence<S>
      reads this, manager, underlying
    {
      Fence(manager.epochs, underlying.cache)
    }

    /** Lines 36-38: the callback for every evicted entry. */
    method OnEvicted(keys: set<string>)
      modifies manager
      ensures manager.epochs == old(manager.epochs) - keys
    {
      var rest := keys;
      while rest != {}
        invariant rest <= keys && manager.epochs == old(manager.epochs) - (keys - rest)
        decreases rest
      {
        var key :| key in rest;
        manager.Evict(key);
        rest := rest - {key};
      }
    }

    /** The LRU drops entries, for want of room or for their age. */
    method Drop(keys: set<string>)
      requires underlying.callbacksDisabledFor == {}
      modifies manager, underlying`cache
      ensures State() == Evicted(old(State()), keys)
    {
      var evicted := underlying.Lose(keys);
      OnEvicted(evicted);
    }

    /** `manager.invalidate` with the callback of lines 39-41. */
    method Invalidate(key: string)
      requires underlying.callbacksDisabledFor == {}
      modifies manager, underlying
      ensures State() == Invalidated(old(State()), key) && underlying.callbacksDisabledFor == {}
    {
      manager.Advance(key);
      var evicted := underlying.Invalidate(key);
      OnEvicted(evicted);
    }

    /** Lines 65-67, for one key: the state leaves the cache and the epoch stays as it is. */
    method Delete(key: string)
      requires underlying.callbacksDisabledFor == {}
      modifies manager, underlying
      ensures State() == Fence(old(manager.epochs), old(underlying.cache) - {key})
      ensures underlying.callbacksDisabledFor == {}
    {
      var evicted := underlying.Invalidate(key);
      OnEvicted(evicted);
    }

    /** SinkCoordinator.ts:130-132. */
    method InvalidateAll(keys: set<string>)
      requires underlying.callbacksDisabledFor == {}
      modifies manager, underlying
      ensures State() == InvalidatedAll(old(State()), keys) && underlying.callbacksDisabledFor == {}
    {
      var rest := keys;
      assert State() == InvalidatedAll(old(State()), {});
      while rest != {}
        invariant rest <= keys && underlying.callbacksDisabledFor == {}
        invariant State() == InvalidatedAll(old(State()), keys - rest)
        decreases rest
      {
        var key :| key in rest;
        InvalidatedMore(old(State()), keys - rest, key);
        Invalidate(key);
        assert keys - (rest - {key}) == keys - rest + {key};
        rest := rest - {key};
      }
      assert keys - rest == keys;
    }

    /** One change, by the operation that makes it. */
    method Make(c: Change<S>)
      requires underlying.callbacksDisabledFor == {}
      modifies manager, underlying
      ensures State() == Apply(old(State()), c) && underlying.callbacksDisabledFor == {}
    {
      match c
      case Invalidate(key) => Invalidate(key);
      case Drop(keys) => Drop(keys);
      case Delete(key) => Delete(key);
      case Load(v) => Keep(v);
      case Set(v) => Set(v);
    }

    /** CachingStateProvider.ts:76-78. */
    method Keep(v: Version<S>)
      modifies underlying`cache
      ensures State() == old(State()).(cache := Filled(old(underlying.cache), v))
    {
      var evicted := underlying.Fill(v, {});
      assert Filled(old(underlying.cache), v) - {} == Filled(old(underlying.cache), v);
    }

    /** Lines 44-52 with CachingStateProvider.ts:68-83. The epoch is read and the cache looked up at once;
        if the state has to be loaded, anything may happen to epochs and cache (`meanwhile`) before it is
        there. The state carries the epoch from before. */
    method Get(storage: Storage<E>, key: string, atSn: Option<nat>, meanwhile: seq<Change<S>>) returns (v: Version<S>)
      requires underlying.callbacksDisabledFor == {} && underlying.agg.SnapRestores()
      requires Coherent(underlying.agg, storage, underlying.cache)
      modifies manager, underlying
      ensures v.key == key && v.epoch == Some(EpochOf(old(manager.epochs), key))
      ensures Replays(underlying.agg, Stream(storage, key), v)
      ensures var loaded := Fetch(underlying.agg, storage, key, atSn);
              State() == if Hits(old(underlying.cache), key, atSn) then old(State())
                         else Apply(After(old(State()), meanwhile), Load(loaded))
      ensures underlying.callbacksDisabledFor == {}
    {
      var epoch := manager.Get(key);
      var hit, evicted := underlying.Lookup(key, atSn, {});
      assert old(underlying.cache) - {} == old(underlying.cache);
      var stateRef;
      if hit.Some? {
        stateRef := hit.value;
      } else {
        for i := 0 to |meanwhile|
          invariant State() == After(old(State()), meanwhile[..i]) && underlying.callbacksDisabledFor == {}
        {
          assert meanwhile[..i + 1][..i] == meanwhile[..i];
          Make(meanwhile[i]);
        }
        assert meanwhile[..|meanwhile|] == meanwhile;
        FetchReplays(underlying.agg, storage, key, atSn);
        stateRef := Fetch(underlying.agg, storage, key, atSn);
        Keep(stateRef);
      }
      v := Version(underlying.agg.create(Some(underlying.agg.snap(stateRef.state))), key, stateRef.seqNum, Some(epoch));
    }

    /** Lines 54-57. */
    method ComputeState(v: Version<S>, events: seq<E>) returns (r: Version<S>)
      ensures r == Compute(underlying.agg, v, events).(epoch := v.epoch)
    {
      var computed := Compute(underlying.agg, v, events);
      r := Version(computed.state, computed.key, computed.seqNum, v.epoch);
    }

    /** Lines 59-63. */
    method Set(v: Version<S>)
      modifies underlying`cache
      ensures State() == SetTo(old(State()), v)
    {
      var epoch := manager.Get(v.key);
      if v.epoch == Some(epoch) {
        var evicted := underlying.Set(v, {});
        assert underlying.cache == Updated(old(underlying.cache), v);
      }
    }
  }

  lemma InvalidatedMore<S>(f: Fence<S>, keys: set<string>, key: string)
    requires key !in keys
    ensures Invalidated(InvalidatedAll(f, keys), key) == InvalidatedAll(f, keys + {key})
  {
  }

  // ---------- how an epoch moves over any run ----------

  /** The change drops the cached state of `key`. */
  predicate Evicts<S>(f: Fence<S>, c: Change<S>, key: string) {
    c.Drop? && key in c.keys && key in f.cache
  }

  predicate EvictedAt<S>(f: Fence<S>, changes: seq<Change<S>>, key: string, i: nat) {
    i < |changes| && Evicts(After(f, changes[..i]), changes[i], key)
  }

  predicate EverEvicted<S>(f: Fence<S>, changes: seq<Change<S>>, key: string) {
    exists i | 0 <= i < |changes| :: EvictedAt(f, changes, key, i)
  }

  /** How often `key` was invalidated since its state was last evicted. */
  function Invalidations<S>(f: Fence<S>, changes: seq<Change<S>>, key: string): nat {
    if |changes| == 0 then 0
    else
      var n, c := |changes| - 1, changes[|changes| - 1];
      if Evicts(After(f, changes[..n]), c, key) then 0
      else Invalidations(f, changes[..n], key) + if c == Invalidate(key) then 1 else 0
  }

  lemma EvictedBefore<S>(f: Fence<S>, changes: seq<Change<S>>, key: string)
    requires |changes| > 0
    ensures var n := |changes| - 1;
            EverEvicted(f, changes, key) <==>
            || EverEvicted(f, changes[..n], key)
            || Evicts(After(f, changes[..n]), changes[n], key)
  {
    hide After, Evicts;
    var n := |changes| - 1;
    var init := changes[..n];
    assert EvictedAt(f, changes, key, n) <==> Evicts(After(f, init), changes[n], key);
    forall i: nat | i < n ensures EvictedAt(f, changes, key, i) == EvictedAt(f, init, key, i) {
      assert init[..i] == changes[..i];
    }
  }

  /** An epoch is what it was, or one if the state was evicted meanwhile, plus the invalidations since. */
  lemma {:induction false} EpochAfter<S>(f: Fence<S>, changes: seq<Change<S>>, key: string)
    ensures EpochOf(After(f, changes).epochs, key)
            == (if EverEvicted(f, changes, key) then 1 else EpochOf(f.epochs, key)) + Invalidations(f, changes, key)
  {
    if |changes| > 0 {
      hide EverEvicted;
      var n := |changes| - 1;
      EvictedBefore(f, changes, key);
      EpochAfter(f, changes[..n], key);
      EpochStep(After(f, changes[..n]), changes[n], key);
    }
  }

  lemma EpochStep<S>(f: Fence<S>, c: Change<S>, key: string)
    ensures EpochOf(Apply(f, c).epochs, key)
            == if Evicts(f, c, key) then 1 else EpochOf(f.epochs, key) + if c == Invalidate(key) then 1 else 0
  {
  }

  /** Exactly when a state of epoch `e` is fenced off after a run: neither the filter in front of the
      store lets it through, nor does the cache take what is computed from it. */
  lemma FencedIff<S>(f: Fence<S>, changes: seq<Change<S>>, r: StateRef)
    requires r.epoch.Some?
    ensures var base := if EverEvicted(f, changes, r.key) then 1 else EpochOf(f.epochs, r.key);
            Stale(After(f, changes).epochs, r) <==> r.epoch.value < base + Invalidations(f, changes, r.key)
    ensures Stale(After(f, changes).epochs, r) ==>
              forall v: Version<S> | v.Ref() == r :: SetTo(After(f, changes), v) == After(f, changes)
  {
    EpochAfter(f, changes, r.key);
  }

  /** As long as the key's state is not evicted meanwhile, a state is fenced off from the start exactly if its
      key was invalidated while it was loaded. If it is evicted, the invalidations since then have to exceed
      those that the state has seen. */
  lemma LoadedMeanwhile<S>(f: Fence<S>, meanwhile: seq<Change<S>>, r: StateRef)
    requires r.epoch == Some(EpochOf(f.epochs, r.key))
    ensures Stale(After(f, meanwhile).epochs, r) <==>
            if EverEvicted(f, meanwhile, r.key)
            then Invalidations(f, meanwhile, r.key) >= EpochOf(f.epochs, r.key)
            else Invalidations(f, meanwhile, r.key) > 0
  {
    hide EverEvicted, Invalidations, After;
    FencedIff(f, meanwhile, r);
  }

  /** An eviction reopens the fence: the conflict moved the key on, the state was loaded again and
      evicted, and the state from before the conflict is good again. */
  lemma EvictionReopens<S>(f: Fence<S>, stale: Version<S>, reloaded: Version<S>)
    requires EpochOf(f.epochs, stale.key) == 1 && stale.epoch == Some(1) && reloaded.key == stale.key
    ensures Stale(After(f, [Invalidate(stale.key)]).epochs, stale.Ref())
    ensures var g := After(f, [Invalidate(stale.key), Load(reloaded), Drop({stale.key})]);
            !Stale(g.epochs, stale.Ref()) && SetTo(g, stale).cache == g.cache[stale.key := stale]
  {
  }

  // ---------- what the coordinator fences off ----------

  lemma KeyLoaded<M, P>(contexts: seq<Context<M, P>>, i: nat, j: nat)
    requires i < |contexts| && j < |contexts[i].loaded|
    ensures contexts[i].loaded[j].key in LoadedKeys(contexts)
  {
  }

  /** When the filters or the store find a conflict (and not the publish sink), all keys that a failed
      context has loaded move on. */
  lemma FailedKeysMoveOn<S, Q, M, P>(sinks: Sinks<S, Q, M, P>, s: S, q: Q, epochs: map<string, nat>,
      contexts: seq<Context<M, P>>, i: nat, j: nat)
    requires var c := CoordinateSpec(sinks, s, q, epochs, contexts);
             && c.result.error.Some? && c.result.error.value.error.SequenceConflict? && c.toPublish != contexts
             && i < |c.result.failed| && j < |c.result.failed[i].loaded|
    ensures var c := CoordinateSpec(sinks, s, q, epochs, contexts);
            c.result.failed[i].loaded[j].key in c.invalidated
  {
    hide HandleSpec, FilterByEpochSpec, FilterNonLinearSpec, GoodCount, LoadedKeys;
    GoodAndBad(epochs, contexts);
    var n := GoodCount(epochs, contexts);
    var good, bad := contexts[..n], contexts[n..];
    SpecFacts(sinks.StoreTarget(), s, good, None);
    var st := HandleSpec(sinks.StoreTarget(), s, good, None).result;
    if st.error.Some? {
      if i < |st.failed| {
        KeyLoaded(st.failed, i, j);
      } else {
        KeyLoaded(bad, i - |st.failed|, j);
      }
    } else {
      KeyLoaded(bad, i, j);
    }
  }

  /** Exactly the keys move on that a filtered context has loaded, or, if the store has found a conflict, a
      context that the store has not taken. */
  lemma InvalidatedIff<S, Q, M, P>(sinks: Sinks<S, Q, M, P>, s: S, q: Q, epochs: map<string, nat>,
      contexts: seq<Context<M, P>>, key: string)
    ensures var n := GoodCount(epochs, contexts);
            var st := HandleSpec(sinks.StoreTarget(), s, contexts[..n], None).result;
            key in CoordinateSpec(sinks, s, q, epochs, contexts).invalidated <==>
              || (exists i | n <= i < |contexts| :: HasLoaded(contexts[i], key))
              || (st.error.Some? && st.error.value.error.SequenceConflict?
                  && exists i | 0 <= i < |st.failed| :: HasLoaded(st.failed[i], key))
  {
    hide HandleSpec, FilterByEpochSpec, FilterNonLinearSpec, GoodCount, LoadedKeys, HasLoaded;
    GoodAndBad(epochs, contexts);
    var n := GoodCount(epochs, contexts);
    var bad := contexts[n..];
    LoadedKeysIff(bad, key);
    LoadedKeysIff(HandleSpec(sinks.StoreTarget(), s, contexts[..n], None).result.failed, key);
    if i :| n <= i < |contexts| && HasLoaded(contexts[i], key) {
      assert bad[i - n] == contexts[i];
    }
  }

  predicate HasLoaded<M, P>(c: Context<M, P>, key: string) {
    exists j | 0 <= j < |c.loaded| :: c.loaded[j].key == key
  }

  lemma LoadedKeysIff<M, P>(contexts: seq<Context<M, P>>, key: string)
    ensures key in LoadedKeys(contexts) <==> exists i | 0 <= i < |contexts| :: HasLoaded(contexts[i], key)
  {
  }

  lemma StaleIsCut<M, P>(epochs: map<string, nat>, contexts: seq<Context<M, P>>, m: nat, j: nat)
    requires m < |contexts| && j < |contexts[m].loaded| && Stale(epochs, contexts[m].loaded[j])
    ensures GoodCount(epochs, contexts) <= m
  {
  }

  /** The filters or the store found a conflict (not the publish sink), and `key` was loaded by a context
      that failed for it. */
  ghost predicate ConflictOn<S, Q, M, P>(c: Coordinated<S, Q, M, P>, contexts: seq<Context<M, P>>, key: string) {
    && c.result.error.Some? && c.result.error.value.error.SequenceConflict? && c.toPublish != contexts
    && exists i, j | 0 <= i < |c.result.failed| && 0 <= j < |c.result.failed[i].loaded| ::
        c.result.failed[i].loaded[j].key == key
  }

  /** A conflict fences off every key that a failed context has loaded: its epoch has moved on and its
      state is gone from the cache; and until that key's state is evicted, whatever else happens, any
      context `inFlight[m]` based on a state `v` from before is cut off in front of the store, together with
      all behind it, and nothing computed from such a state enters the cache. */
  lemma ConflictFences<S, Q, M, P, T>(
      sinks: Sinks<S, Q, M, P>, s: S, q: Q, f: Fence<T>, contexts: seq<Context<M, P>>,
      later: seq<Change<T>>, v: Version<T>, inFlight: seq<Context<M, P>>, m: nat, l: nat)
    requires v.epoch.Some? && v.epoch.value <= EpochOf(f.epochs, v.key)
    requires m < |inFlight| && l < |inFlight[m].loaded| && inFlight[m].loaded[l] == v.Ref()
    ensures var c := CoordinateSpec(sinks, s, q, f.epochs, contexts);
            var g := InvalidatedAll(f, c.invalidated);
            ConflictOn(c, contexts, v.key) ==>
              && EpochOf(g.epochs, v.key) == EpochOf(f.epochs, v.key) + 1 && v.key !in g.cache
              && (!EverEvicted(g, later, v.key) ==>
                    SetTo(After(g, later), v) == After(g, later) && GoodCount(After(g, later).epochs, inFlight) <= m)
  {
    hide CoordinateSpec, EverEvicted, GoodCount, Invalidations, After, SetTo;
    var c := CoordinateSpec(sinks, s, q, f.epochs, contexts);
    var g := InvalidatedAll(f, c.invalidated);
    if ConflictOn(c, contexts, v.key) {
      var i, j :| 0 <= i < |c.result.failed| && 0 <= j < |c.result.failed[i].loaded|
          && c.result.failed[i].loaded[j].key == v.key;
      FailedKeysMoveOn(sinks, s, q, f.epochs, contexts, i, j);
      if !EverEvicted(g, later, v.key) {
        FencedIff(g, later, v.Ref());
        StaleIsCut(After(g, later).epochs, inFlight, m, l);
      }
    }
  }
}
