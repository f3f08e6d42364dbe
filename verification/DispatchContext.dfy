/** What one handler invocation leaves behind: packages/core/src/internal/BufferedDispatchContext.ts. */
module DispatchContext {
  import opened Wrappers
  import opened Model
  import opened InMemorySink
  import opened EventSourcing
  import opened StateCache

  /** A stored message together with the version it was stored on. */
  datatype Output<+S, +E> = Output(version: Version<S>, message: E)

  function Refs<S>(loaded: seq<Version<S>>): seq<StateRef> {
    seq(|loaded|, (i: int) requires 0 <= i < |loaded| => loaded[i].Ref())
  }

  function Messages<S, E>(items: seq<Output<S, E>>): seq<StoredMessage<E>> {
    seq(|items|, (i: int) requires 0 <= i < |items| => StoredMessage(items[i].version.Ref(), items[i].message))
  }

  /** Where the loaded version of `key` is, or the end. */
  function Place<S>(loaded: seq<Version<S>>, key: string): (i: nat)
    ensures i <= |loaded| && (i < |loaded| ==> loaded[i].key == key)
    ensures forall j | 0 <= j < i :: loaded[j].key != key
  {
    if |loaded| == 0 || loaded[0].key == key then 0 else 1 + Place(loaded[1..], key)
  }

  /** `Map.set` on a map in insertion order: a key that is there keeps its place. */
  function Put<S>(loaded: seq<Version<S>>, v: Version<S>): seq<Version<S>> {
    var i := Place(loaded, v.key);
    if i < |loaded| then loaded[i := v] else loaded + [v]
  }

  /** A key that is loaded again keeps its place and gets the new version; a new key goes to the end. */
  lemma PutIs<S>(loaded: seq<Version<S>>, v: Version<S>)
    requires KeysOnce(loaded)
    ensures var more := Put(loaded, v);
            && KeysOnce(more) && v in more
            && (forall i | 0 <= i < |loaded| ::
                  i < |more| && more[i] == if loaded[i].key == v.key then v else loaded[i])
            && |more| == |loaded| + if exists i | 0 <= i < |loaded| :: loaded[i].key == v.key then 0 else 1
  {
    var more := Put(loaded, v);
    assert more[Place(loaded, v.key)] == v;
  }

  predicate KeysOnce<S>(loaded: seq<Version<S>>) {
    forall i, j | 0 <= i < j < |loaded| :: loaded[i].key != loaded[j].key
  }

  // ---------- the states the stored events lead to ----------

  /** The keys stored to, in the order of their first event (`new Set(...)`). */
  function KeysOf<S, E>(items: seq<Output<S, E>>): seq<string> {
    if |items| == 0 then []
    else
      var ks, k := KeysOf(items[..|items| - 1]), items[|items| - 1].version.key;
      if k in ks then ks else ks + [k]
  }

  function Matches<S, E>(items: seq<Output<S, E>>, key: string): seq<Output<S, E>> {
    if |items| == 0 then []
    else
      var x := items[|items| - 1];
      Matches(items[..|items| - 1], key) + if x.version.key == key then [x] else []
  }

  function EventsIn<S, E>(items: seq<Output<S, E>>): seq<E> {
    seq(|items|, (i: int) requires 0 <= i < |items| => items[i].message)
  }

  lemma {:induction false} KeysMatch<S, E>(items: seq<Output<S, E>>, key: string)
    ensures key in KeysOf(items) <==> |Matches(items, key)| > 0
  {
    if |items| > 0 {
      KeysMatch(items[..|items| - 1], key);
    }
  }

  /** What the stored events make of the state of `key`. */
  function Computed<S(!new), N, E>(agg: Aggregator<S, N, E>, items: seq<Output<S, E>>, key: string): Version<S>
    requires |Matches(items, key)| > 0
  {
    Compute(agg, Matches(items, key)[0].version, EventsIn(Matches(items, key)))
  }

  function UpdatedAll<S>(cache: Cache<S>, vs: seq<Version<S>>): Cache<S> {
    if |vs| == 0 then cache else Updated(UpdatedAll(cache, vs[..|vs| - 1]), vs[|vs| - 1])
  }

  class BufferedDispatchContext<S(!new), N, E(!new)> {
    const provider: CachingStateProvider<S, N, E>
    var loaded: seq<Version<S>>
    var storedItems: seq<Output<S, E>>
    var completed: bool

    constructor (provider: CachingStateProvider<S, N, E>)
      ensures this.provider == provider && loaded == [] && storedItems == [] && !completed
    {
      this.provider, loaded, storedItems, completed := provider, [], [], false;
    }

    /** Lines 38-42. */
    method Get(storage: Storage<E>, key: string, atSn: Option<nat>, lost: set<string>) returns (v: Version<S>)
      requires provider.agg.SnapRestores() && Coherent(provider.agg, storage, provider.cache) && KeysOnce(loaded)
      modifies this`loaded, provider`cache
      ensures Coherent(provider.agg, storage, provider.cache) && KeysOnce(loaded)
      ensures v.key == key && v.epoch.None? && Replays(provider.agg, Stream(storage, key), v)
      ensures loaded == Put(old(loaded), v)
      ensures atSn.None? && UpToDate(storage, old(provider.cache), key) ==> v.seqNum == |Stream(storage, key)|
      ensures atSn.None? ==>
                forall k :: UpToDate(storage, old(provider.cache), k) ==> UpToDate(storage, provider.cache, k)
    {
      FetchReplays(provider.agg, storage, key, atSn);
      v := provider.Get(storage, key, atSn, lost);
      loaded := Put(loaded, v);
    }

    /** Lines 158-181; `ok` is false where the original throws. */
    method Store(v: Version<S>, message: E) returns (ok: bool)
      modifies this`storedItems
      ensures ok == !completed
      ensures storedItems == if ok then old(storedItems) + [Output(v, message)] else old(storedItems)
    {
      ok := !completed;
      if ok {
        storedItems := storedItems + [Output(v, message)];
      }
    }

    /** Lines 209-214. */
    method Clear()
      modifies this`loaded, this`storedItems
      ensures loaded == [] && storedItems == []
    {
      loaded, storedItems := [], [];
    }

    /** Lines 66-76. */
    method ComputeStates() returns (states: seq<Version<S>>)
      ensures |states| == |KeysOf(storedItems)|
      ensures forall i | 0 <= i < |states| ::
                |Matches(storedItems, KeysOf(storedItems)[i])| > 0
                    && states[i] == Computed(provider.agg, storedItems, KeysOf(storedItems)[i])
    {
      var keys := KeysOf(storedItems);
      states := [];
      for i := 0 to |keys|
        invariant |states| == i
        invariant forall j | 0 <= j < i ::
                    |Matches(storedItems, keys[j])| > 0 && states[j] == Computed(provider.agg, storedItems, keys[j])
      {
        KeysMatch(storedItems, keys[i]);
        var matches := Matches(storedItems, keys[i]);
        states := states + [Compute(provider.agg, matches[0].version, EventsIn(matches))];
      }
    }

    /** Lines 195-203. */
    method Complete(lost: set<string>)
      modifies this`completed, provider`cache
      ensures completed
      ensures exists states ::
                && ComputedStates(provider.agg, storedItems, states)
                && provider.cache == UpdatedAll(old(provider.cache) - lost, states)
    {
      var states := ComputeStates();
      var evicted := provider.Lose(lost);
      for i := 0 to |states|
        invariant provider.cache == UpdatedAll(old(provider.cache) - lost, states[..i])
      {
        assert states[..i + 1][..i] == states[..i];
        evicted := provider.Set(states[i], {});
      }
      assert states[..|states|] == states;
      completed := true;
    }
  }

  /** All of the versions are in the cache, or newer ones under their keys. */
  lemma {:induction false} AllAreCached<S>(cache: Cache<S>, vs: seq<Version<S>>)
    ensures forall i | 0 <= i < |vs| ::
              vs[i].key in UpdatedAll(cache, vs) && UpdatedAll(cache, vs)[vs[i].key].seqNum >= vs[i].seqNum
    ensures forall k | k in cache :: k in UpdatedAll(cache, vs) && UpdatedAll(cache, vs)[k].seqNum >= cache[k].seqNum
  {
    if |vs| > 0 {
      AllAreCached(cache, vs[..|vs| - 1]);
    }
  }

  /** One computed version for each key stored to. */
  ghost predicate ComputedStates<S(!new), N, E>(agg: Aggregator<S, N, E>, items: seq<Output<S, E>>,
      states: seq<Version<S>>) {
    && |states| == |KeysOf(items)|
    && forall i | 0 <= i < |states| ::
         |Matches(items, KeysOf(items)[i])| > 0 && states[i] == Computed(agg, items, KeysOf(items)[i])
  }

  lemma {:induction false} UpdatedAllCoherent<S(!new), N, E>(agg: Aggregator<S, N, E>, storage: Storage<E>,
      cache: Cache<S>, vs: seq<Version<S>>)
    requires Coherent(agg, storage, cache)
    requires forall i | 0 <= i < |vs| :: Replays(agg, Stream(storage, vs[i].key), vs[i])
    ensures Coherent(agg, storage, UpdatedAll(cache, vs))
  {
    if |vs| > 0 {
      UpdatedAllCoherent(agg, storage, cache, vs[..|vs| - 1]);
    }
  }
}
