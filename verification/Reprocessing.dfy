/** The bookkeeping of the output loop: packages/core/src/internal/processor/Batch.ts and
    ReprocessingContext.ts. */
module Reprocessing {
  import opened Wrappers
  import opened Model
  import opened EventSourcing
  import opened StateCache

  // ---------- Batch ----------

  class Batch<T> {
    const min: int
    const max: int
    var items: seq<T>
    var waited: bool

    constructor (min: int, max: int)
      ensures this.min == min && this.max == max && items == [] && !waited
    {
      this.min, this.max, items, waited := min, max, [], false;
    }

    /** Batch.ts:17-19. */
    method Add(item: T)
      modifies this`items
      ensures items == old(items) + [item]
    {
      items := items + [item];
    }

    /** Lines 21-23. */
    predicate IsFull()
      reads this
    {
      |items| == max
    }

    /** Lines 25-32. */
    method ShouldLinger() returns (r: bool)
      modifies this`waited
      ensures r == (!old(waited) && |items| < min)
      ensures waited == (old(waited) || r)
    {
      if !waited && |items| < min {
        waited := true;
        return true;
      }
      return false;
    }

    /** Lines 34-37. */
    method Reset()
      modifies this
      ensures items == [] && !waited
    {
      items := [];
      waited := false;
    }
  }

  // ---------- ReprocessingContext ----------

  datatype Repro = Repro(seen: set<string>, toEvict: seq<string>)

  /** ReprocessingContext.ts:20-25 for each loaded state in turn. */
  function Noted(r: Repro, loaded: seq<StateRef>): Repro {
    if |loaded| == 0 then r
    else
      var q, k := Noted(r, loaded[..|loaded| - 1]), loaded[|loaded| - 1].key;
      if k in q.seen then q else Repro(q.seen + {k}, q.toEvict + [k])
  }

  class ReprocessingContext {
    const atSn: nat
    var seenKeys: set<string>
    var toEvict: seq<string>

    constructor (atSn: nat)
      ensures this.atSn == atSn && View() == Repro({}, [])
    {
      this.atSn, seenKeys, toEvict := atSn, {}, [];
    }

    function View(): Repro
      reads this
    {
      Repro(seenKeys, toEvict)
    }

    method Evict(key: string)
      modifies this
      ensures View() == if key in old(seenKeys) then old(View()) else Repro(old(seenKeys) + {key}, old(toEvict) + [key])
    {
      if key !in seenKeys {
        seenKeys := seenKeys + {key};
        toEvict := toEvict + [key];
      }
    }

    /** Lines 27-34. */
    method Wrap(loadedStates: seq<StateRef>)
      modifies this
      ensures View() == Noted(old(View()), loadedStates)
    {
      for i := 0 to |loadedStates|
        invariant View() == Noted(old(View()), loadedStates[..i])
      {
        assert loadedStates[..i + 1][..i] == loadedStates[..i];
        Evict(loadedStates[i].key);
      }
      assert loadedStates[..|loadedStates|] == loadedStates;
    }

    /** One turn of the generator, lines 36-40. */
    method NextEviction() returns (key: Option<string>)
      modifies this
      ensures key == if |old(toEvict)| > 0 then Some(old(toEvict)[0]) else None
      ensures View() == if |old(toEvict)| > 0 then Repro(old(seenKeys), old(toEvict)[1..]) else old(View())
    {
      if |toEvict| > 0 {
        key := Some(toEvict[0]);
        toEvict := toEvict[1..];
      } else {
        key := None;
      }
    }
  }

  // ---------- what is evicted over a whole round ----------

  /** A round wraps contexts and takes evictions in any order. */
  datatype Use = Wrapped(loaded: seq<StateRef>) | Taken

  /** The state after some uses, and the keys evicted so far. */
  function After(uses: seq<Use>): (Repro, seq<string>) {
    if |uses| == 0 then (Repro({}, []), [])
    else
      var (r, evicted) := After(uses[..|uses| - 1]);
      match uses[|uses| - 1]
      case Wrapped(loaded) => (Noted(r, loaded), evicted)
      case Taken => if |r.toEvict| > 0 then (Repro(r.seen, r.toEvict[1..]), evicted + [r.toEvict[0]]) else (r, evicted)
  }

  /** The keys the wrapped contexts have loaded, in order. */
  function KeysWrapped(uses: seq<Use>): seq<string> {
    if |uses| == 0 then []
    else
      var u := uses[|uses| - 1];
      KeysWrapped(uses[..|uses| - 1]) + if u.Wrapped? then Keys(u.loaded) else []
  }

  function Keys(loaded: seq<StateRef>): seq<string> {
    if |loaded| == 0 then [] else Keys(loaded[..|loaded| - 1]) + [loaded[|loaded| - 1].key]
  }

  /** Every key where it comes up first. */
  function Distinct(keys: seq<string>): seq<string> {
    if |keys| == 0 then []
    else
      var d, k := Distinct(keys[..|keys| - 1]), keys[|keys| - 1];
      if k in d then d else d + [k]
  }

  lemma {:induction false} DistinctOnce(keys: seq<string>)
    ensures forall i, j | 0 <= i < j < |Distinct(keys)| :: Distinct(keys)[i] != Distinct(keys)[j]
    ensures forall k :: k in Distinct(keys) <==> k in keys
  {
    if |keys| > 0 {
      var init := keys[..|keys| - 1];
      DistinctOnce(init);
      assert keys == init + [keys[|keys| - 1]];
    }
  }

  /** The keys noted are those that are evicted or still to be evicted. */
  ghost predicate Tracks(r: Repro, evicted: seq<string>, keys: seq<string>) {
    evicted + r.toEvict == Distinct(keys) && forall k :: k in r.seen <==> k in Distinct(keys)
  }

  lemma {:induction false} NotedTracks(r: Repro, evicted: seq<string>, keys: seq<string>, loaded: seq<StateRef>)
    requires Tracks(r, evicted, keys)
    ensures Tracks(Noted(r, loaded), evicted, keys + Keys(loaded))
  {
    if |loaded| == 0 {
      assert keys + [] == keys;
    } else {
      var init, k := loaded[..|loaded| - 1], loaded[|loaded| - 1].key;
      NotedTracks(r, evicted, keys, init);
      var all := keys + Keys(loaded);
      assert all[..|all| - 1] == keys + Keys(init);
      var q := Noted(r, init);
      assert evicted + (q.toEvict + [k]) == (evicted + q.toEvict) + [k];
    }
  }

  /** However often contexts are wrapped and evictions are taken in between: what is evicted and what is
      still to be evicted are the loaded keys, once each, in the order in which they were first loaded. */
  lemma {:induction false} EvictedOnce(uses: seq<Use>)
    ensures var (r, evicted) := After(uses);
            evicted + r.toEvict == Distinct(KeysWrapped(uses)) && Tracks(r, evicted, KeysWrapped(uses))
  {
    if |uses| > 0 {
      var init, u := uses[..|uses| - 1], uses[|uses| - 1];
      EvictedOnce(init);
      var (r, evicted) := After(init);
      match u
      case Wrapped(loaded) => NotedTracks(r, evicted, KeysWrapped(init), loaded);
      case Taken =>
        assert KeysWrapped(init) + [] == KeysWrapped(init);
        if |r.toEvict| > 0 {
          assert evicted + r.toEvict == (evicted + [r.toEvict[0]]) + r.toEvict[1..];
        }
    }
  }

  // ---------- what a reprocessed message reads ----------

  /** ConcurrentMessageProcessor.ts:224-232, before a message that was sent back is handled again: the
      states it must not see leave the cache. */
  method HandleReprocessingContext<S(!new), N, E(!new)>(context: ReprocessingContext,
      provider: CachingStateProvider<S, N, E>)
    modifies context, provider
    ensures context.View() == Repro(old(context.seenKeys), [])
    ensures provider.cache == old(provider.cache) - set k | k in old(context.toEvict)
  {
    var i := 0;
    ghost var all := context.toEvict;
    var key := context.NextEviction();
    while key.Some?
      invariant i <= |all| && context.seenKeys == old(context.seenKeys)
      invariant key.Some? ==> i < |all| && key.value == all[i] && context.toEvict == all[i + 1..]
      invariant key.None? ==> i == |all| && context.toEvict == []
      invariant provider.cache == old(provider.cache) - set k | k in all[..i]
      decreases |all| - i
    {
      assert all[..i + 1] == all[..i] + [all[i]];
      var evicted := provider.Invalidate(key.value);
      key := context.NextEviction();
      i := i + 1;
    }
    assert all[..|all|] == all;
  }

  /** The cache during a round, with the keys whose states are in it since before the round began. */
  datatype Round<+S> = Round(repro: Repro, cache: Cache<S>, older: set<string>)

  /** A context is sent back, a message sent back is handled again, or the cache changes: a loaded state is
      kept, a computed one replaces an older one, entries are evicted. */
  datatype Happening<+S> =
    | SentBack(loaded: seq<StateRef>) | HandledAgain
    | Kept(version: Version<S>) | Replaced(version: Version<S>) | Lost(keys: set<string>)

  function Happens<S>(r: Round<S>, h: Happening<S>): Round<S> {
    match h
    case SentBack(loaded) => r.(repro := Noted(r.repro, loaded))
    case HandledAgain =>
      var keys := set k | k in r.repro.toEvict;
      Round(Repro(r.repro.seen, []), r.cache - keys, r.older - keys)
    case Kept(v) => r.(cache := Filled(r.cache, v))
    case Replaced(v) =>
      var stays := v.key in r.cache && r.cache[v.key].seqNum >= v.seqNum;
      r.(cache := Updated(r.cache, v), older := if stays then r.older else r.older - {v.key})
    case Lost(keys) => Round(r.repro, r.cache - keys, r.older - keys)
  }

  /** A round begins with a conflict. */
  function Conflicted<S>(cache: Cache<S>): Round<S> {
    Round(Repro({}, []), cache, cache.Keys)
  }

  function AfterAll<S>(cache: Cache<S>, hs: seq<Happening<S>>): Round<S> {
    if |hs| == 0 then Conflicted(cache) else Happens(AfterAll(cache, hs[..|hs| - 1]), hs[|hs| - 1])
  }

  /** The happening takes the entry under `k` out of the cache or puts a newer one in its place. */
  predicate Touches<S>(r: Round<S>, h: Happening<S>, k: string) {
    match h
    case HandledAgain => k in r.repro.toEvict
    case Replaced(v) => v.key == k && (k in r.cache ==> r.cache[k].seqNum < v.seqNum)
    case Lost(keys) => k in keys
    case _ => false
  }

  predicate TouchedAt<S>(cache: Cache<S>, hs: seq<Happening<S>>, k: string, i: nat)
    requires i < |hs|
  {
    Touches(AfterAll(cache, hs[..i]), hs[i], k)
  }

  /** Exactly what was cached when the round began and has not been touched since counts as older, and it is
      still the same. */
  lemma {:induction false} OlderIsUntouched<S>(cache: Cache<S>, hs: seq<Happening<S>>, k: string)
    ensures k in AfterAll(cache, hs).older <==> k in cache && forall i | 0 <= i < |hs| :: !TouchedAt(cache, hs, k, i)
    ensures var r := AfterAll(cache, hs); k in r.older ==> k in r.cache && r.cache[k] == cache[k]
  {
    if |hs| > 0 {
      var n := |hs| - 1;
      var init := hs[..n];
      OlderIsUntouched(cache, init, k);
      assert TouchedAt(cache, hs, k, n) == Touches(AfterAll(cache, init), hs[n], k);
      forall i: nat | i < n ensures TouchedAt(cache, hs, k, i) == TouchedAt(cache, init, k, i) {
        assert init[..i] == hs[..i];
      }
    }
  }

  /** The happening offers `v` to the cache. */
  ghost predicate Offers<S>(h: Happening<S>, v: Version<S>) {
    h == Kept(v) || h == Replaced(v)
  }

  ghost predicate OfferedSince<S>(hs: seq<Happening<S>>, v: Version<S>) {
    exists i | 0 <= i < |hs| :: Offers(hs[i], v)
  }

  /** A cached state that is not older has been put into the cache since the round began. */
  lemma {:induction false} OlderOrNew<S>(cache: Cache<S>, hs: seq<Happening<S>>, k: string)
    requires k in AfterAll(cache, hs).cache
    ensures var r := AfterAll(cache, hs); k in r.older || OfferedSince(hs, r.cache[k])
  {
    if |hs| > 0 {
      var n := |hs| - 1;
      var before, after := AfterAll(cache, hs[..n]), AfterAll(cache, hs);
      if k in before.cache && after.cache[k] == before.cache[k] {
        OlderOrNew(cache, hs[..n], k);
        if OfferedSince(hs[..n], after.cache[k]) {
          var i :| 0 <= i < n && Offers(hs[..n][i], after.cache[k]);
          assert Offers(hs[i], after.cache[k]);
        }
      } else {
        assert Offers(hs[n], after.cache[k]);
      }
    }
  }

  /** What has been loaded by a context sent back and is still as old as that is about to be evicted. */
  ghost predicate OlderIsDue<S>(r: Round<S>) {
    forall k | k in r.repro.seen && k in r.older :: k in r.repro.toEvict
  }

  lemma {:induction false} NotedIsDue(r: Repro, loaded: seq<StateRef>, k: string)
    ensures k in r.seen ==> k in Noted(r, loaded).seen
    ensures k in Noted(r, loaded).seen && k !in r.seen ==> k in Noted(r, loaded).toEvict
    ensures k in r.toEvict ==> k in Noted(r, loaded).toEvict
    ensures k in Keys(loaded) ==> k in Noted(r, loaded).seen
  {
    if |loaded| > 0 {
      NotedIsDue(r, loaded[..|loaded| - 1], k);
    }
  }

  lemma {:induction false} AlwaysDue<S>(cache: Cache<S>, hs: seq<Happening<S>>)
    ensures OlderIsDue(AfterAll(cache, hs))
  {
    if |hs| > 0 {
      var init, h := hs[..|hs| - 1], hs[|hs| - 1];
      AlwaysDue(cache, init);
      var r := AfterAll(cache, init);
      if h.SentBack? {
        forall k ensures k in Noted(r.repro, h.loaded).seen && k in r.older ==> k in Noted(r.repro, h.loaded).toEvict {
          NotedIsDue(r.repro, h.loaded, k);
        }
      }
    }
  }

  /** When a message that was sent back is handled again, the cache has a state under a key that a context
      sent back so far has loaded only if that state was put there since the conflict. */
  lemma NothingOldIsRead<S>(cache: Cache<S>, hs: seq<Happening<S>>, i: nat, j: nat)
    requires i < |hs| && hs[i].SentBack? && j < |hs[i].loaded|
    ensures var r := AfterAll(cache, hs + [HandledAgain]);
            var k := hs[i].loaded[j].key;
            k !in r.older && (k in r.cache ==> OfferedSince(hs, r.cache[k]))
  {
    var r, k := AfterAll(cache, hs), hs[i].loaded[j].key;
    assert (hs + [HandledAgain])[..|hs|] == hs;
    AlwaysDue(cache, hs);
    SeenStays(cache, hs, i, j);
    if k in r.cache && k !in r.repro.toEvict {
      OlderOrNew(cache, hs, k);
    }
  }

  lemma {:induction false} SeenStays<S>(cache: Cache<S>, hs: seq<Happening<S>>, i: nat, j: nat)
    requires i < |hs| && hs[i].SentBack? && j < |hs[i].loaded|
    ensures hs[i].loaded[j].key in AfterAll(cache, hs).repro.seen
  {
    var n := |hs| - 1;
    var k := hs[i].loaded[j].key;
    if i < n {
      SeenStays(cache, hs[..n], i, j);
      if hs[n].SentBack? {
        NotedIsDue(AfterAll(cache, hs[..n]).repro, hs[n].loaded, k);
      }
    } else {
      KeyAt(hs[n].loaded, j);
      NotedIsDue(AfterAll(cache, hs[..n]).repro, hs[n].loaded, k);
    }
  }

  lemma {:induction false} KeyAt(loaded: seq<StateRef>, j: nat)
    requires j < |loaded|
    ensures loaded[j].key in Keys(loaded)
  {
    if j < |loaded| - 1 {
      KeyAt(loaded[..|loaded| - 1], j);
    }
  }
}
