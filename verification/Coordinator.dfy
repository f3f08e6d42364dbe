/** Filter, store, publish: packages/core/src/internal/batching/SinkCoordinator.ts. */
module Coordinator {
  import opened Wrappers
  import opened Sequences
  import opened Model
  import opened BatchHandling
  import opened Filters

  // ---------- what a context contributes ----------

  function StoredItems<M, P>(ctx: Context<M, P>): seq<Item<M>> {
    seq(|ctx.stored|, (i: int) requires 0 <= i < |ctx.stored| => Stored(ctx.stored[i].state, ctx.stored[i].message))
  }

  predicate Stores<M, P>(ctx: Context<M, P>, key: string) {
    exists i | 0 <= i < |ctx.stored| :: ctx.stored[i].state.key == key
  }

  /** The loaded states whose keys the context does not write: they are only to be verified. */
  function ReadOnly<M, P>(ctx: Context<M, P>, n: nat): seq<StateRef>
    requires n <= |ctx.loaded|
  {
    if n == 0 then []
    else ReadOnly(ctx, n - 1) + if Stores(ctx, ctx.loaded[n - 1].key) then [] else [ctx.loaded[n - 1]]
  }

  function Verifications<M>(states: seq<StateRef>): seq<Item<M>> {
    seq(|states|, (i: int) requires 0 <= i < |states| => Verification(states[i]))
  }

  function StoreTargetItems<M, P>(ctx: Context<M, P>): seq<Item<M>> {
    StoredItems(ctx) + Verifications(ReadOnly(ctx, |ctx.loaded|))
  }

  function StoreItems<M, P>(): Context<M, P> -> seq<Item<M>> {
    (c: Context<M, P>) => StoreTargetItems(c)
  }

  /** `loadedStates` lists the values of a Map, so no key occurs twice. */
  predicate LoadedOnce<M, P>(ctx: Context<M, P>) {
    forall i, j | 0 <= i < j < |ctx.loaded| :: ctx.loaded[i].key != ctx.loaded[j].key
  }

  /** SinkCoordinator.ts:210-228; `items` is the Map's values in insertion order. */
  method CollectStoreTargetItems<M, P>(ctx: Context<M, P>) returns (result: seq<Item<M>>)
    requires LoadedOnce(ctx)
    ensures result == StoreTargetItems(ctx)
  {
    var items: seq<StateRef> := ctx.loaded;
    var unwritten: seq<StateRef> := [];
    for i := 0 to |items|
      invariant unwritten == ReadOnly(ctx, i)
    {
      var written := false;
      for j := 0 to |ctx.stored|
        invariant written <==> exists m | 0 <= m < j :: ctx.stored[m].state.key == items[i].key
      {
        if ctx.stored[j].state.key == items[i].key {
          written := true;
        }
      }
      if !written {
        unwritten := unwritten + [items[i]];
      }
    }
    result := StoredItems(ctx) + Verifications(unwritten);
  }

  /** A loaded state is verified exactly if the context writes nothing to its key. */
  lemma {:induction false} ReadOnlyIff<M, P>(ctx: Context<M, P>, n: nat, s: StateRef)
    requires n <= |ctx.loaded|
    ensures s in ReadOnly(ctx, n) <==> s in ctx.loaded[..n] && !Stores(ctx, s.key)
  {
    if n > 0 {
      ReadOnlyIff(ctx, n - 1, s);
      assert ctx.loaded[..n] == ctx.loaded[..n - 1] + [ctx.loaded[n - 1]];
    }
  }

  // ---------- the sinks ----------

  datatype Sinks<!S, !Q, !M, !P> = Sinks(
    store: (S, seq<Item<M>>) -> SinkReply<S>, storeConsistency: Consistency, storeMax: Option<int>,
        storeIdempotent: bool,
    publish: (Q, seq<P>) -> SinkReply<Q>, publishConsistency: Consistency, publishMax: Option<int>,
        partition: P -> string)
  {
    /** Lines 57-71: only partition-atomic sinks restrict which items may share a chunk. */
    function StoreTarget(): Target<S, Item<M>, Context<M, P>> {
      Target(store, storeConsistency, storeMax, StoreItems<M, P>(),
             if storeConsistency.AtomicPerPartition?
             then (p: Item<M>, c: Item<M>) => p.state.key == c.state.key
             else (p: Item<M>, c: Item<M>) => true)
    }

    /** Lines 75-90. */
    function PublishTarget(): Target<Q, P, Context<M, P>> {
      Target(publish, publishConsistency, publishMax, (c: Context<M, P>) => c.published,
             if publishConsistency.AtomicPerPartition?
             then (p: P, c: P) => partition(p) == partition(c)
             else (p: P, c: P) => true)
    }
  }

  function Loaded<M, P>(): Context<M, P> -> seq<StateRef> {
    (c: Context<M, P>) => c.loaded
  }

  function Branches<M, P>(): Context<M, P> -> (nat, seq<StateRef>) {
    (c: Context<M, P>) => (c.sequence, seq(|c.stored|, (i: int) requires 0 <= i < |c.stored| => c.stored[i].state))
  }

  /** How many leading contexts pass both filters. */
  function GoodCount<M, P>(epochs: map<string, nat>, contexts: seq<Context<M, P>>): nat
    ensures GoodCount(epochs, contexts) <= |contexts|
  {
    LinearPrefix(contexts[..FirstStale(epochs, contexts, Loaded<M, P>())], Branches<M, P>())
  }

  /** The keys the contexts have loaded. */
  function LoadedKeys<M, P>(contexts: seq<Context<M, P>>): set<string> {
    set i, j | 0 <= i < |contexts| && 0 <= j < |contexts[i].loaded| :: contexts[i].loaded[j].key
  }

  /** The outcome, the new sink states, the keys whose epochs were advanced, and a record of the calls. */
  datatype Coordinated<+S, +Q, +M, +P> = Coordinated(
    store: S, publish: Q, result: BatchResult<Context<M, P>>, invalidated: set<string>,
    storeCalls: seq<Call<Item<M>>>, toPublish: seq<Context<M, P>>, publishCalls: seq<Call<P>>)

  function ConflictKeys<M, P>(stored: BatchResult<Context<M, P>>): set<string> {
    if stored.error.Some? && stored.error.value.error.SequenceConflict? then LoadedKeys(stored.failed) else {}
  }

  function CoordinateSpec<S, Q, M, P>(sinks: Sinks<S, Q, M, P>, s: S, q: Q, epochs: map<string, nat>,
      contexts: seq<Context<M, P>>)
      : Coordinated<S, Q, M, P>
  {
    var byEpoch := FilterByEpochSpec(epochs, contexts, Loaded<M, P>());
    var bySequence := FilterNonLinearSpec(byEpoch.successful, Branches<M, P>());
    var good := bySequence.successful;
    var bad := bySequence.failed + byEpoch.failed;
    var st := HandleSpec(sinks.StoreTarget(), s, good, None);
    var badKeys := LoadedKeys(bad) + ConflictKeys(st.result);
    if st.result.error.Some? then
      var pub := HandleSpec(sinks.PublishTarget(), q, st.result.successful, None);
      Coordinated(st.state, pub.state, BatchResult(st.result.successful, st.result.failed + bad, st.result.error),
                  badKeys, st.calls, st.result.successful, pub.calls)
    else if |bad| > 0 then
      Coordinated(st.state, q, BatchResult(good, bad, if byEpoch.error.Some? then byEpoch.error else bySequence.error),
                  badKeys, st.calls, [], [])
    else
      var pub := HandleSpec(sinks.PublishTarget(), q, contexts, None);
      var error := if pub.result.error.Some? && !sinks.storeIdempotent
                   then Some(BatchError(pub.result.error.value.error, false)) else pub.result.error;
      Coordinated(st.state, pub.state, BatchResult(pub.result.successful, pub.result.failed, error),
                  badKeys, st.calls, contexts, pub.calls)
  }

  /** SinkCoordinator.ts:93-190. */
  method Coordinate<S, Q, M, P>(sinks: Sinks<S, Q, M, P>, s: S, q: Q, epochs: map<string, nat>,
      contexts: seq<Context<M, P>>)
      returns (s': S, q': Q, result: BatchResult<Context<M, P>>, badKeys: set<string>)
    ensures var c := CoordinateSpec(sinks, s, q, epochs, contexts);
            s' == c.store && q' == c.publish && result == c.result && badKeys == c.invalidated
  {
    hide HandleSpec, FilterByEpochSpec, FilterNonLinearSpec, LoadedKeys;
    var byEpoch := FilterByEpoch(contexts, Loaded<M, P>(), epochs);
    var bySequenceNumber := FilterNonLinearStateChanges(byEpoch.successful, Branches<M, P>());
    var good := bySequenceNumber.successful;
    var bad := bySequenceNumber.failed + byEpoch.failed;
    var storeResult: BatchResult<Context<M, P>>;
    s', storeResult := Handle(sinks.StoreTarget(), s, good, None);
    badKeys := CollectKeys(bad);
    if storeResult.error.Some? && storeResult.error.value.error.SequenceConflict? {
      var more := CollectKeys(storeResult.failed);
      badKeys := badKeys + more;
    }
    q' := q;
    var publishResult: BatchResult<Context<M, P>>;
    if storeResult.error.Some? {
      q', publishResult := Handle(sinks.PublishTarget(), q, storeResult.successful, None);
      result := BatchResult(storeResult.successful, storeResult.failed + bad, storeResult.error);
      return;
    } else if |bad| > 0 {
      result := BatchResult(good, bad, if byEpoch.error.Some? then byEpoch.error else bySequenceNumber.error);
      return;
    }
    q', publishResult := Handle(sinks.PublishTarget(), q, contexts, None);
    if publishResult.error.Some? && !sinks.storeIdempotent {
      result := publishResult.(error := Some(BatchError(publishResult.error.value.error, false)));
      return;
    }
    result := publishResult;
  }

  /** Lines 115-128: the loaded keys of failed contexts. */
  method CollectKeys<M, P>(contexts: seq<Context<M, P>>) returns (keys: set<string>)
    ensures keys == LoadedKeys(contexts)
  {
    keys := {};
    for i := 0 to |contexts|
      invariant keys == set a, b | 0 <= a < i && 0 <= b < |contexts[a].loaded| :: contexts[a].loaded[b].key
    {
      ghost var before := keys;
      for j := 0 to |contexts[i].loaded|
        invariant keys == before + set b | 0 <= b < j :: contexts[i].loaded[b].key
      {
        keys := keys + {contexts[i].loaded[j].key};
      }
    }
  }

  // ---------- what the protocol promises ----------

  lemma GoodAndBad<M, P>(epochs: map<string, nat>, contexts: seq<Context<M, P>>)
    ensures var byEpoch := FilterByEpochSpec(epochs, contexts, Loaded<M, P>());
            var bySequence := FilterNonLinearSpec(byEpoch.successful, Branches<M, P>());
            var n := GoodCount(epochs, contexts);
            && bySequence.successful == contexts[..n]
            && bySequence.failed + byEpoch.failed == contexts[n..]
            && (n < |contexts| ==> byEpoch.error.Some? || bySequence.error.Some?)
  {
    var i := FirstStale(epochs, contexts, Loaded<M, P>());
    var n := GoodCount(epochs, contexts);
    assert contexts[..i][..n] == contexts[..n];
    assert contexts[..i][n..] + contexts[i..] == contexts[n..];
    if i == |contexts| && n < |contexts| {
      assert contexts[..i] == contexts;
      var w := Flat(contexts, WritesOf(Branches<M, P>()));
      if FirstBreak(w) == |w| {
        FirstBreakIsFirst(w);
        assert w[..|w|] == w;
        NoBreak(contexts, Branches<M, P>());
      }
    }
  }

  lemma SplitFailed<C>(good: seq<C>, bad: seq<C>, a: seq<C>, b: seq<C>)
    requires a + b == good
    ensures a + (b + bad) == good + bad
  {
  }

  /** In every outcome nothing is lost, repeated or reordered, and an error comes with something that failed. */
  lemma CoordinatedPartition<S, Q, M, P>(sinks: Sinks<S, Q, M, P>, s: S, q: Q, epochs: map<string, nat>,
      contexts: seq<Context<M, P>>)
    ensures var r := CoordinateSpec(sinks, s, q, epochs, contexts).result;
            r.successful + r.failed == contexts && (r.error.Some? <==> r.failed != [])
  {
    hide HandleSpec, FilterByEpochSpec, FilterNonLinearSpec, GoodCount, LoadedKeys;
    GoodAndBad(epochs, contexts);
    var n := GoodCount(epochs, contexts);
    var good, bad := contexts[..n], contexts[n..];
    assert good + bad == contexts;
    SpecFacts(sinks.StoreTarget(), s, good, None);
    SpecFacts(sinks.PublishTarget(), q, contexts, None);
    var st := HandleSpec(sinks.StoreTarget(), s, good, None).result;
    SplitFailed(good, bad, st.successful, st.failed);
  }

  /** The store sink is called for the contexts that pass the filters and for nothing else. */
  lemma StoreOutcome<S, Q, M, P>(sinks: Sinks<S, Q, M, P>, s: S, q: Q, epochs: map<string, nat>,
      contexts: seq<Context<M, P>>)
    ensures var c := CoordinateSpec(sinks, s, q, epochs, contexts);
            var h := HandleSpec(sinks.StoreTarget(), s, contexts[..GoodCount(epochs, contexts)], None);
            && c.store == h.state && c.storeCalls == h.calls
            && c.toPublish == (if h.result.error.Some? then h.result.successful
                               else if GoodCount(epochs, contexts) == |contexts| then contexts else [])
  {
    hide HandleSpec, FilterByEpochSpec, FilterNonLinearSpec, GoodCount, LoadedKeys;
    GoodAndBad(epochs, contexts);
  }

  lemma PassedFilters<M, P>(epochs: map<string, nat>, contexts: seq<Context<M, P>>)
    ensures var n := GoodCount(epochs, contexts);
            && (forall i | 0 <= i < n :: !HasStale(epochs, contexts[i].loaded))
            && Linear(Flat(contexts[..n], WritesOf(Branches<M, P>())))
            && (n < |contexts| ==>
                  || HasStale(epochs, contexts[n].loaded)
                  || !Linear(Flat(contexts[..n + 1], WritesOf(Branches<M, P>()))))
  {
    hide Linear, Flat;
    var n := GoodCount(epochs, contexts);
    var i := FirstStale(epochs, contexts, Loaded<M, P>());
    LongestLinearPrefix(contexts[..i], Branches<M, P>(), n);
    assert contexts[..i][..n] == contexts[..n];
    if n < i {
      LongestLinearPrefix(contexts[..i], Branches<M, P>(), n + 1);
      assert contexts[..i][..n + 1] == contexts[..n + 1];
    }
  }

  /** Only contexts in front of the first filtered one reach the store, and that one is either based on
      a stale state or breaks the linear history of a key. */
  lemma NothingBehindTheFilters<S, Q, M, P>(sinks: Sinks<S, Q, M, P>, s: S, q: Q, epochs: map<string, nat>,
      contexts: seq<Context<M, P>>)
    ensures var n := GoodCount(epochs, contexts);
            && Within(CoordinateSpec(sinks, s, q, epochs, contexts).storeCalls, Flat(contexts[..n], StoreItems<M, P>()))
            && (forall i | 0 <= i < n :: !HasStale(epochs, contexts[i].loaded))
            && Linear(Flat(contexts[..n], WritesOf(Branches<M, P>())))
            && (n < |contexts| ==>
                  || HasStale(epochs, contexts[n].loaded)
                  || !Linear(Flat(contexts[..n + 1], WritesOf(Branches<M, P>()))))
  {
    hide CoordinateSpec, HandleSpec, Linear, Flat, Within, GoodCount;
    StoreOutcome(sinks, s, q, epochs, contexts);
    SpecFacts(sinks.StoreTarget(), s, contexts[..GoodCount(epochs, contexts)], None);
    PassedFilters(epochs, contexts);
  }

  /** A context is handed to publish only when all of its store items were accepted. */
  lemma PublishedWereStored<S, Q, M, P>(sinks: Sinks<S, Q, M, P>, s: S, q: Q, epochs: map<string, nat>,
      contexts: seq<Context<M, P>>)
    ensures var c := CoordinateSpec(sinks, s, q, epochs, contexts);
            multiset(Flat(c.toPublish, StoreItems<M, P>())) <= multiset(Accepted(c.storeCalls))
  {
    hide CoordinateSpec, HandleSpec, GoodCount, Within;
    StoreOutcome(sinks, s, q, epochs, contexts);
    var n := GoodCount(epochs, contexts);
    SpecFacts(sinks.StoreTarget(), s, contexts[..n], None);
    var r := HandleSpec(sinks.StoreTarget(), s, contexts[..n], None).result;
    if r.error.None? {
      assert r.successful + [] == r.successful;
      assert contexts[..|contexts|] == contexts;
    }
  }

  /** The publish sink sees the published items of those contexts only. */
  lemma PublishedOnlyThose<S, Q, M, P>(sinks: Sinks<S, Q, M, P>, s: S, q: Q, epochs: map<string, nat>,
      contexts: seq<Context<M, P>>)
    ensures var c := CoordinateSpec(sinks, s, q, epochs, contexts);
            Within(c.publishCalls, Flat(c.toPublish, sinks.PublishTarget().accessor))
  {
    hide HandleSpec, FilterByEpochSpec, FilterNonLinearSpec, GoodCount, LoadedKeys, Flat;
    var c := CoordinateSpec(sinks, s, q, epochs, contexts);
    SpecFacts(sinks.PublishTarget(), q, c.toPublish, None);
  }
}
