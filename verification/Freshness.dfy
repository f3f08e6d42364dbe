/** When a context based on current states commits: lines 93-190 of
    packages/core/src/internal/batching/SinkCoordinator.ts for one context, while nobody else writes. */
module Freshness {
  import opened Wrappers
  import opened Sequences
  import opened Model
  import opened Batching
  import opened Chunking
  import opened ChunkFilling
  import opened BatchHandling
  import opened SinkLimits
  import opened Filters
  import opened InMemorySink
  import opened Coordinator
  import opened Histories
  import opened Publishing
  import opened Commit

  /** Everything the context has loaded or stores on is the current state of its key. */
  ghost predicate Fresh<P>(storage: Storage<Event>, c: Context<Event, P>) {
    && (forall i | 0 <= i < |c.stored| :: IsCurrent(storage, c.stored[i].state))
    && (forall i | 0 <= i < |c.loaded| :: IsCurrent(storage, c.loaded[i]) && c.loaded[i].epoch.None?)
  }

  predicate IsCurrent(storage: Storage<Event>, s: StateRef) {
    s.seqNum == |Stream(storage, s.key)|
  }

  predicate NobodyElse(pending: seq<Storage<Event>>) {
    forall i | 0 <= i < |pending| :: pending[i] == map[]
  }

  predicate StoresOn<M>(batch: seq<Item<M>>, key: string) {
    exists i | 0 <= i < |batch| :: batch[i].Stored? && batch[i].state.key == key
  }

  /** No key has events in two of the first `k` chunks. */
  ghost predicate Whole<M, C>(chunks: seq<Chunk<Item<M>, C>>, k: nat)
    requires k <= |chunks|
  {
    forall i, j, key | 0 <= i < j < k && StoresOn(chunks[i].batch, key) :: !StoresOn(chunks[j].batch, key)
  }

  // ---------- one call ----------

  lemma MergeNothing(storage: Storage<Event>)
    ensures Merge(storage, map[]) == storage
  {
    var merged := Merge(storage, map[]);
    forall k | k in storage ensures merged[k] == storage[k] {
      assert merged[k] == storage[k] + [];
    }
    assert merged.Keys == storage.Keys;
  }

  lemma StepAlone(w: World, batch: seq<Item<Event>>)
    requires NobodyElse(w.pending)
    ensures var r := CommitStep(w, batch);
            && NobodyElse(r.next.pending)
            && r.error == Conflict(w.storage, batch)
            && (r.error.None? ==> r.next.storage == Append(w.storage, batch))
            && (r.error.Some? ==> r.next.storage == w.storage)
  {
    hide Conflict, Append;
    MergeNothing(w.storage);
  }

  lemma {:induction false} AllCurrent(storage: Storage<Event>, batch: seq<Item<Event>>, key: string)
    requires forall i | 0 <= i < |batch| :: IsCurrent(storage, batch[i].state)
    ensures Branched(batch, key, |Stream(storage, key)|) == |Added(batch, key)|
  {
    if |batch| > 0 {
      AllCurrent(storage, batch[..|batch| - 1], key);
    }
  }

  lemma CurrentAccepted(storage: Storage<Event>, batch: seq<Item<Event>>)
    requires forall i | 0 <= i < |batch| :: IsCurrent(storage, batch[i].state)
    ensures Conflict(storage, batch).None?
  {
    hide Conflict, Branched, Added;
    AcceptedIff(storage, batch);
    forall i | 0 <= i < |batch| ensures Admissible(storage, batch[..i], batch[i]) {
      AllCurrent(storage, batch[..i], batch[i].state.key);
      assert IsCurrent(storage, batch[i].state);
    }
  }

  /** An event on a state that its stream has outgrown is refused, whatever else is in the chunk. */
  lemma OutgrownRefused(storage: Storage<Event>, batch: seq<Item<Event>>, i: nat)
    requires i < |batch| && batch[i].Stored? && |Stream(storage, batch[i].state.key)| > batch[i].state.seqNum
    ensures Conflict(storage, batch).Some?
  {
    hide Conflict;
    var f := FirstBranch(batch, i);
    AcceptedIff(storage, batch);
    assert !Admissible(storage, batch[..f], batch[f]);
  }

  // ---------- one pass ----------

  /** Some event of the context is on a state that its stream has outgrown. */
  ghost predicate Outgrown<P>(storage: Storage<Event>, c: Context<Event, P>) {
    exists i | 0 <= i < |c.stored| ::
      |Stream(storage, c.stored[i].state.key)| > c.stored[i].state.seqNum
  }

  /** The streams are those of `before` with what the items add. */
  ghost predicate Appended(before: Storage<Event>, after: Storage<Event>, items: seq<Item<Event>>) {
    forall key :: |Stream(after, key)| == |Stream(before, key)| + |Added(items, key)|
  }

  lemma AppendedMore(before: Storage<Event>, after: Storage<Event>, items: seq<Item<Event>>, batch: seq<Item<Event>>)
    requires Appended(before, after, items)
    ensures Appended(before, Append(after, batch), items + batch)
  {
    hide Added, Append;
    forall key ensures |Stream(Append(after, batch), key)| == |Stream(before, key)| + |Added(items + batch, key)| {
      StreamOfAppend(after, batch, key);
      AddedAppend(items, batch, key);
      assert |Stream(after, key)| == |Stream(before, key)| + |Added(items, key)|;
    }
  }

  lemma {:induction false} AddsIff<M>(batch: seq<Item<M>>, key: string)
    ensures |Added(batch, key)| > 0 <==> StoresOn(batch, key)
  {
    if |batch| > 0 {
      var init, x := batch[..|batch| - 1], batch[|batch| - 1];
      AddsIff(init, key);
      if StoresOn(init, key) {
        var i :| 0 <= i < |init| && init[i].Stored? && init[i].state.key == key;
        assert batch[i] == init[i];
      }
      if StoresOn(batch, key) && !(x.Stored? && x.state.key == key) {
        var i :| 0 <= i < |batch| && batch[i].Stored? && batch[i].state.key == key;
        assert init[i] == batch[i];
      }
    }
  }

  lemma {:induction false} SentAdds<M, C>(chunks: seq<Chunk<Item<M>, C>>, key: string)
    ensures |Added(Sent(chunks), key)| > 0 <==> exists i | 0 <= i < |chunks| :: StoresOn(chunks[i].batch, key)
  {
    if |chunks| > 0 {
      hide StoresOn, Added;
      var init, last := chunks[..|chunks| - 1], chunks[|chunks| - 1];
      SentAdds(init, key);
      AddsIff(last.batch, key);
      AddedAppend(Sent(init), last.batch, key);
      forall i | 0 <= i < |init| ensures init[i] == chunks[i] {
      }
    }
  }

  /** An item of the context is an event of it or verifies a key without any. */
  lemma ItemOf<P>(c: Context<Event, P>, x: Item<Event>)
    requires x in StoreTargetItems(c)
    ensures x.Stored? ==> exists i | 0 <= i < |c.stored| :: x == Stored(c.stored[i].state, c.stored[i].message)
    ensures x.Verification? ==> x.state in c.loaded && !StoresOn(StoreTargetItems(c), x.state.key)
  {
    var items := StoreTargetItems(c);
    var i :| 0 <= i < |items| && items[i] == x;
    if x.Stored? {
      StoredAt(c, i);
    } else {
      var unwritten := ReadOnly(c, |c.loaded|);
      assert x == Verification(unwritten[i - |c.stored|]);
      ReadOnlyIff(c, |c.loaded|, x.state);
      assert c.loaded[..|c.loaded|] == c.loaded;
      forall j | 0 <= j < |items| && items[j].Stored? ensures items[j].state.key != x.state.key {
        StoredAt(c, j);
      }
    }
  }

  lemma ItemCurrent<P>(storage: Storage<Event>, c: Context<Event, P>, x: Item<Event>)
    requires Fresh(storage, c) && x in StoreTargetItems(c)
    ensures IsCurrent(storage, x.state)
  {
    ItemOf(c, x);
  }

  /** All that is sent are items of the one context. */
  ghost predicate OfContext<P>(chunks: seq<Chunk<Item<Event>, Context<Event, P>>>, c: Context<Event, P>) {
    forall k, i | 0 <= k < |chunks| && 0 <= i < |chunks[k].batch| :: chunks[k].batch[i] in StoreTargetItems(c)
  }

  /** After the accepted chunks so far a chunk is accepted exactly if it stores on no key of theirs. */
  lemma NextAccepted<P>(storage: Storage<Event>, now: Storage<Event>, c: Context<Event, P>,
      chunks: seq<Chunk<Item<Event>, Context<Event, P>>>, k: nat)
    requires Fresh(storage, c) && OfContext(chunks, c) && k < |chunks|
    requires Appended(storage, now, Sent(chunks[..k]))
    ensures if forall i, key | 0 <= i < k && StoresOn(chunks[i].batch, key) :: !StoresOn(chunks[k].batch, key)
            then Conflict(now, chunks[k].batch).None?
            else Conflict(now, chunks[k].batch).Some? && Outgrown(now, c)
  {
    hide Conflict, Added, StoresOn, Fresh;
    var batch := chunks[k].batch;
    if i, key :| 0 <= i < k && StoresOn(chunks[i].batch, key) && StoresOn(batch, key) {
      assert chunks[..k][i] == chunks[i];
      SentAdds(chunks[..k], key);
      StaleEvent(storage, now, c, batch, key);
    } else {
      forall i | 0 <= i < |batch| ensures IsCurrent(now, batch[i].state) {
        assert batch[i] in StoreTargetItems(c);
        ItemCurrent(storage, c, batch[i]);
        NotStoredBefore(c, chunks, k, batch[i]);
      }
      CurrentAccepted(now, batch);
    }
  }

  lemma NotStoredBefore<P>(c: Context<Event, P>, chunks: seq<Chunk<Item<Event>, Context<Event, P>>>, k: nat,
      x: Item<Event>)
    requires OfContext(chunks, c) && k < |chunks| && x in chunks[k].batch
    requires forall i, key | 0 <= i < k && StoresOn(chunks[i].batch, key) :: !StoresOn(chunks[k].batch, key)
    ensures |Added(Sent(chunks[..k]), x.state.key)| == 0
  {
    hide Added;
    var key := x.state.key;
    SentAdds(chunks[..k], key);
    assert x in StoreTargetItems(c);
    ItemOf(c, x);
    assert x.Stored? ==> StoresOn(chunks[k].batch, key);
    forall i | 0 <= i < k ensures !StoresOn(chunks[..k][i].batch, key) {
      if StoresOn(chunks[i].batch, key) && x.Verification? {
        SomeStores(c, chunks, i, key);
      }
    }
  }

  lemma SomeStores<P>(c: Context<Event, P>, chunks: seq<Chunk<Item<Event>, Context<Event, P>>>, i: nat, key: string)
    requires OfContext(chunks, c) && i < |chunks| && StoresOn(chunks[i].batch, key)
    ensures StoresOn(StoreTargetItems(c), key)
  {
    var b := chunks[i].batch;
    var j :| 0 <= j < |b| && b[j].Stored? && b[j].state.key == key;
    assert b[j] in StoreTargetItems(c);
  }

  lemma StaleEvent<P>(storage: Storage<Event>, now: Storage<Event>, c: Context<Event, P>, batch: seq<Item<Event>>,
      key: string)
    requires Fresh(storage, c) && (forall i | 0 <= i < |batch| :: batch[i] in StoreTargetItems(c))
    requires |Stream(now, key)| > |Stream(storage, key)| && StoresOn(batch, key)
    ensures Conflict(now, batch).Some? && Outgrown(now, c)
  {
    hide Conflict;
    var j :| 0 <= j < |batch| && batch[j].Stored? && batch[j].state.key == key;
    ItemCurrent(storage, c, batch[j]);
    OutgrownRefused(now, batch, j);
    ItemOf(c, batch[j]);
  }

  /** A pass of fresh chunks goes through exactly if no key has events in two of them, and otherwise has
      outgrown the context. */
  lemma {:induction false} FreshPass<P(!new)>(t: Target<World, Item<Event>, Context<Event, P>>, w: World,
      c: Context<Event, P>, chunks: seq<Chunk<Item<Event>, Context<Event, P>>>, k: nat)
    requires CommitsTo(t) && NobodyElse(w.pending) && Fresh(w.storage, c) && OfContext(chunks, c) && k <= |chunks|
    ensures var p := RunChunks(t, w, chunks[..k]);
            && NobodyElse(p.state.pending)
            && (if Whole(chunks, k)
                then p.error.None? && Appended(w.storage, p.state.storage, Sent(chunks[..k]))
                else p.error.Some? && Outgrown(p.state.storage, c))
  {
    hide StoresOn, Outgrown, Conflict, Appended, CommitStep, RunChunks, Fresh, OfContext;
    if k == 0 {
      NothingRun(t, w);
      assert chunks[..0] == [];
    } else {
      var init, last := chunks[..k - 1], chunks[k - 1];
      assert chunks[..k] == init + [last];
      FreshPass(t, w, c, chunks, k - 1);
      RunSnoc(t, w, init, last);
      WholeSnoc(chunks, k - 1);
      var q := RunChunks(t, w, init);
      if q.error.None? {
        NextAccepted(w.storage, q.state.storage, c, chunks, k - 1);
        StepAlone(q.state, last.batch);
        AppendedMore(w.storage, q.state.storage, Sent(init), last.batch);
        SentSnoc(init, last);
      }
    }
  }

  lemma NothingRun<P(!new)>(t: Target<World, Item<Event>, Context<Event, P>>, w: World)
    ensures RunChunks(t, w, []) == Pass(w, [], 0, None) && Appended(w.storage, w.storage, Sent<Item<Event>, ()>([]))
    ensures Sent<Item<Event>, Context<Event, P>>([]) == []
  {
  }

  lemma WholeSnoc<M, C>(chunks: seq<Chunk<Item<M>, C>>, k: nat)
    requires k < |chunks|
    ensures Whole(chunks, k + 1) <==>
            Whole(chunks, k) && forall i, key | 0 <= i < k && StoresOn(chunks[i].batch, key) ::
              !StoresOn(chunks[k].batch, key)
  {
    hide StoresOn;
  }

  /** A pass over an outgrown context fails. */
  lemma {:induction false} OutgrownPass<P(!new)>(t: Target<World, Item<Event>, Context<Event, P>>, w: World,
      c: Context<Event, P>, i: nat, chunks: seq<Chunk<Item<Event>, Context<Event, P>>>, k: nat)
    requires CommitsTo(t) && NobodyElse(w.pending) && k <= |chunks| && i < |c.stored|
    requires |Stream(w.storage, c.stored[i].state.key)| > c.stored[i].state.seqNum
    ensures var p := RunChunks(t, w, chunks[..k]);
            && NobodyElse(p.state.pending)
            && |Stream(p.state.storage, c.stored[i].state.key)| > c.stored[i].state.seqNum
            && (p.error.None? ==> Stored(c.stored[i].state, c.stored[i].message) !in Sent(chunks[..k]))
  {
    hide Conflict, CommitStep, RunChunks;
    var x := Stored(c.stored[i].state, c.stored[i].message);
    if k == 0 {
      NothingRun(t, w);
      assert chunks[..0] == [];
    } else {
      var init, last := chunks[..k - 1], chunks[k - 1];
      assert chunks[..k] == init + [last];
      OutgrownPass(t, w, c, i, chunks, k - 1);
      RunSnoc(t, w, init, last);
      SentSnoc(init, last);
      var q := RunChunks(t, w, init);
      if q.error.None? {
        StepAlone(q.state, last.batch);
        StreamOfAppend(q.state.storage, last.batch, x.state.key);
        if x in last.batch {
          var j :| 0 <= j < |last.batch| && last.batch[j] == x;
          OutgrownRefused(q.state.storage, last.batch, j);
        }
      }
    }
  }

  // ---------- one delivery ----------

  lemma ItemsOfOne<P>(c: Context<Event, P>)
    ensures Flat([c], StoreItems<Event, P>()) == StoreTargetItems(c)
  {
    FlatSnoc([], c, StoreItems<Event, P>());
    assert [] + [c] == [c] && Flat([], StoreItems<Event, P>()) + StoreTargetItems(c) == StoreTargetItems(c);
  }

  lemma ChunksOfOne<P>(cfg: Config<Item<Event>, Context<Event, P>>, c: Context<Event, P>)
    requires cfg.Valid() && cfg.accessor == StoreItems<Event, P>()
    ensures OfContext(Chunks(cfg, [c]), c) && Sent(Chunks(cfg, [c])) == StoreTargetItems(c)
  {
    hide Chunks, StoreTargetItems, Flat;
    var chunks := Chunks(cfg, [c]);
    ItemsOfOne(c);
    ChunksAreFaithful(cfg, [c]);
    forall k, i | 0 <= k < |chunks| && 0 <= i < |chunks[k].batch| ensures chunks[k].batch[i] in StoreTargetItems(c) {
      NextChunk(cfg, chunks, [c], k);
      assert chunks[k].batch[i] == StoreTargetItems(c)[|Sent(chunks[..k])| + i];
    }
  }

  lemma {:induction false} OutgrownFails<P(!new)>(t: Target<World, Item<Event>, Context<Event, P>>, w: World,
      c: Context<Event, P>, i: nat, size: int)
    requires CommitsTo(t) && NobodyElse(w.pending) && i < |c.stored|
    requires |Stream(w.storage, c.stored[i].state.key)| > c.stored[i].state.seqNum
    ensures var h := HandleAt(t, w, [c], size);
            && h.result.error.Some?
            && |Stream(h.state.storage, c.stored[i].state.key)| > c.stored[i].state.seqNum
    decreases if size > 0 then size else 0
  {
    hide HandleAt, RunChunks, CommitStep, Flat, StoreTargetItems;
    HandleCases(t, w, [c], size);
    EventIsItem(c, i);
    if size > 0 {
      var chunks := Chunks(t.Config(size), [c]);
      ChunksOfOne(t.Config(size), c);
      OutgrownPass(t, w, c, i, chunks, |chunks|);
      assert chunks[..|chunks|] == chunks;
      var p := Attempt(t, w, [c], size);
      if size > 1 {
        assert [c][0..] == [c];
        OutgrownFails(t, p.state, c, i, size / 2);
      }
    }
  }

  lemma EventIsItem<P>(c: Context<Event, P>, i: nat)
    requires i < |c.stored|
    ensures Stored(c.stored[i].state, c.stored[i].message) in StoreTargetItems(c)
    ensures |Flat([c], StoreItems<Event, P>())| > 0
  {
    ItemsOfOne(c);
    assert StoreTargetItems(c)[i] == Stored(c.stored[i].state, c.stored[i].message);
  }

  /** A fresh context is stored exactly if no key has events in two of the chunks it is cut into. If some key
      has, its second chunk is refused after the first has been stored: the context has outgrown itself, and
      nothing of it will be accepted any more. */
  lemma FreshStoredIff<P(!new)>(t: Target<World, Item<Event>, Context<Event, P>>, w: World, c: Context<Event, P>,
      size: nat)
    requires CommitsTo(t) && NobodyElse(w.pending) && Fresh(w.storage, c) && size > 0
    ensures var chunks, h := Chunks(t.Config(size), [c]), HandleAt(t, w, [c], size);
            && (h.result.error.None? <==> Whole(chunks, |chunks|))
            && (h.result.error.Some? ==> Outgrown(h.state.storage, c))
  {
    hide HandleAt, RunChunks, CommitStep, Flat, StoreTargetItems, Whole, Fresh, OfContext;
    var chunks := Chunks(t.Config(size), [c]);
    HandleCases(t, w, [c], size);
    ItemsOfOne(c);
    ChunksOfOne(t.Config(size), c);
    FreshPass(t, w, c, chunks, |chunks|);
    assert chunks[..|chunks|] == chunks;
    var p := Attempt(t, w, [c], size);
    if |Flat([c], t.accessor)| == 0 {
      NoChunksOfNothing(t.Config(size), [c]);
      WholeNothing<Event, Context<Event, P>>();
    } else if p.error.Some? && size > 1 {
      assert [c][0..] == [c];
      var i :| 0 <= i < |c.stored| && |Stream(p.state.storage, c.stored[i].state.key)| > c.stored[i].state.seqNum;
      OutgrownFails(t, p.state, c, i, size / 2);
    }
  }

  lemma WholeNothing<M, C>()
    ensures Whole<M, C>([], 0)
  {
  }

  lemma NoChunksOfNothing<T, C>(cfg: Config<T, C>, cs: seq<C>)
    requires cfg.Valid() && |Flat(cs, cfg.accessor)| == 0
    ensures Chunks(cfg, cs) == []
  {
    hide Chunks, Flat;
    ChunksAreFaithful(cfg, cs);
    if |Chunks(cfg, cs)| > 0 {
      ItemsLeft(cfg, Chunks(cfg, cs), cs, 0);
    }
  }

  // ---------- one call of the coordinator ----------

  ghost predicate PublishesAll<Q(!new), P(!new)>(sinks: Sinks<World, Q, Event, P>) {
    Publishable(sinks) && forall q, b :: sinks.publish(q, b).error.None?
  }

  lemma {:induction false} NeverRefused<S(!new), T(!new), C>(t: Target<S, T, C>, s: S, chunks: seq<Chunk<T, C>>)
    requires forall s, b :: t.sink(s, b).error.None?
    ensures RunChunks(t, s, chunks).error.None?
  {
    if |chunks| > 0 {
      NeverRefused(t, s, chunks[..|chunks| - 1]);
    }
  }

  lemma PublishedFine<Q(!new), P(!new)>(sinks: Sinks<World, Q, Event, P>, q: Q, due: seq<Context<Event, P>>)
    requires Publishable(sinks) && forall q, b :: sinks.publish(q, b).error.None?
    ensures HandleSpec(sinks.PublishTarget(), q, due, None).result.error.None?
  {
    hide Flat, RunChunks, Chunks;
    var t := sinks.PublishTarget();
    var b := EffectiveSize(None, t.maxBatchSize, |Flat(due, t.accessor)|);
    HandleCases(t, q, due, b);
    if b > 0 {
      NeverRefused(t, q, Chunks(t.Config(b), due));
    }
  }

  /** A context without epochs gets through the filters on its own. */
  lemma AlonePasses<P>(epochs: map<string, nat>, c: Context<Event, P>)
    requires forall i | 0 <= i < |c.loaded| :: c.loaded[i].epoch.None?
    ensures GoodCount(epochs, [c]) == 1
  {
    hide Linear, LinearPrefix, Flat;
    assert [c][..1] == [c] && [c][..0] == [];
    GoodIff(epochs, [c], 1);
  }

  /** The size of the chunks a context of `total` items is cut into. */
  predicate ChunkSize(max: Option<int>, total: nat, size: nat) {
    size > 0 && (Limits(max, size) || (Unlimited(max) && size == total))
  }

  /** A fresh context commits, while nobody else writes and publishing does not fail, exactly if no key has
      events in two of the chunks it is cut into; otherwise a part of it is stored. */
  lemma FreshCommitsIff<Q(!new), P(!new)>(sinks: Sinks<World, Q, Event, P>, w: World, q: Q, epochs: map<string, nat>,
      c: Context<Event, P>, size: nat)
    requires (forall w, b :: sinks.store(w, b) == CommitStep(w, b)) && PublishesAll(sinks)
    requires NobodyElse(w.pending) && Fresh(w.storage, c) && ChunkSize(sinks.storeMax, |StoreTargetItems(c)|, size)
    ensures var chunks, r := Chunks(sinks.StoreTarget().Config(size), [c]), CoordinateSpec(sinks, w, q, epochs, [c]);
            && (r.result.error.None? <==> Whole(chunks, |chunks|))
            && (r.result.error.Some? ==> Outgrown(r.store.storage, c))
  {
    hide CoordinateSpec, HandleAt, Chunks, Whole, CommitStep, Flat, GoodCount, StoreTargetItems, Outgrown;
    AlonePasses(epochs, c);
    ItemsOfOne(c);
    assert [c][..1] == [c];
    StoreOutcome(sinks, w, q, epochs, [c]);
    PublishOutcome(sinks, w, q, epochs, [c]);
    PublishedFine(sinks, q, Due(sinks, w, epochs, [c]));
    FreshStoredIff(sinks.StoreTarget(), w, c, size);
  }

  /** If `key` has events in one chunk at most, they are no more than a chunk takes. */
  lemma {:induction false} WholeIsSmall<M, C>(chunks: seq<Chunk<Item<M>, C>>, k: nat, key: string, size: nat)
    requires k <= |chunks| && Whole(chunks, k) && forall i | 0 <= i < k :: |chunks[i].batch| <= size
    ensures |Added(Sent(chunks[..k]), key)| <= size
  {
    if k > 0 {
      var init, last := chunks[..k - 1], chunks[k - 1];
      assert chunks[..k] == init + [last];
      WholeIsSmall(chunks, k - 1, key, size);
      hide Added, StoresOn;
      SentSnoc(init, last);
      AddedAppend(Sent(init), last.batch, key);
      AddedFew(last.batch, key);
      AddsIff(last.batch, key);
      SentAdds(init, key);
    }
  }

  lemma {:induction false} AddedFew<M>(batch: seq<Item<M>>, key: string)
    ensures |Added(batch, key)| <= |batch|
  {
    if |batch| > 0 {
      AddedFew(batch[..|batch| - 1], key);
    }
  }

  /** A context with more events on one key than a chunk takes never commits, however fresh it is. */
  lemma TooManyNeverCommit<Q(!new), P(!new)>(sinks: Sinks<World, Q, Event, P>, w: World, q: Q,
      epochs: map<string, nat>, c: Context<Event, P>, size: nat, key: string)
    requires (forall w, b :: sinks.store(w, b) == CommitStep(w, b)) && PublishesAll(sinks)
    requires NobodyElse(w.pending) && Fresh(w.storage, c) && ChunkSize(sinks.storeMax, |StoreTargetItems(c)|, size)
    requires |Added(StoreTargetItems(c), key)| > size
    ensures CoordinateSpec(sinks, w, q, epochs, [c]).result.error.Some?
  {
    hide CoordinateSpec, Chunks, Whole, CommitStep, StoreTargetItems, Added, Fresh;
    var cfg := sinks.StoreTarget().Config(size);
    var chunks := Chunks(cfg, [c]);
    FreshCommitsIff(sinks, w, q, epochs, c, size);
    ChunksOfOne(cfg, c);
    ChunksAreFaithful(cfg, [c]);
    forall i | 0 <= i < |chunks| ensures |chunks[i].batch| <= size {
      NextChunk(cfg, chunks, [c], i);
    }
    assert chunks[..|chunks|] == chunks;
    if Whole(chunks, |chunks|) {
      WholeIsSmall(chunks, |chunks|, key, size);
    }
  }

  /** The chunk that holds position `x` of what is sent. */
  lemma {:induction false} ChunkAt<M, C>(chunks: seq<Chunk<Item<M>, C>>, x: nat) returns (k: nat)
    requires x < |Sent(chunks)|
    ensures k < |chunks|
    ensures var from := |Sent(chunks[..k])|;
            && from <= x < from + |chunks[k].batch| && chunks[k].batch[x - from] == Sent(chunks)[x]
            && from + |chunks[k].batch| <= |Sent(chunks)|
            && forall y | from <= y < from + |chunks[k].batch| :: chunks[k].batch[y - from] == Sent(chunks)[y]
  {
    var init, last := chunks[..|chunks| - 1], chunks[|chunks| - 1];
    assert chunks == init + [last];
    SentSnoc(init, last);
    if x < |Sent(init)| {
      k := ChunkAt(init, x);
      assert init[..k] == chunks[..k];
    } else {
      k := |init|;
    }
  }

  /** A sink that is atomic per partition cannot commit a context that stores on a key, on another one, and
      on the first again. */
  lemma InterleavedNeverCommit<Q(!new), P(!new)>(sinks: Sinks<World, Q, Event, P>, w: World, q: Q,
      epochs: map<string, nat>, c: Context<Event, P>, size: nat, i: nat, j: nat, l: nat)
    requires (forall w, b :: sinks.store(w, b) == CommitStep(w, b)) && PublishesAll(sinks)
    requires NobodyElse(w.pending) && Fresh(w.storage, c) && ChunkSize(sinks.storeMax, |StoreTargetItems(c)|, size)
    requires sinks.storeConsistency.AtomicPerPartition? && i < j < l < |c.stored|
    requires c.stored[i].state.key == c.stored[l].state.key != c.stored[j].state.key
    ensures CoordinateSpec(sinks, w, q, epochs, [c]).result.error.Some?
  {
    hide CoordinateSpec, Chunks, CommitStep, Fresh, Sent, Whole, StoreTargetItems, Flat;
    var cfg := sinks.StoreTarget().Config(size);
    var chunks := Chunks(cfg, [c]);
    FreshCommitsIff(sinks, w, q, epochs, c, size);
    ChunksOfOne(cfg, c);
    ChunksAreFaithful(cfg, [c]);
    forall k | 0 <= k < |chunks| ensures Homogeneous(chunks[k].batch, cfg.grouping) {
      assert Fair(cfg, chunks[k].batch);
    }
    StoredFirst(c, i);
    StoredFirst(c, j);
    StoredFirst(c, l);
    InterleavedSplit(chunks, cfg.grouping, i, j, l);
  }

  lemma StoredFirst<P>(c: Context<Event, P>, i: nat)
    requires i < |c.stored|
    ensures i < |StoreTargetItems(c)| && StoreTargetItems(c)[i] == Stored(c.stored[i].state, c.stored[i].message)
  {
  }

  lemma InterleavedSplit<M, C>(chunks: seq<Chunk<Item<M>, C>>, grouping: (Item<M>, Item<M>) -> bool,
      i: nat, j: nat, l: nat)
    requires forall k | 0 <= k < |chunks| :: Homogeneous(chunks[k].batch, grouping)
    requires forall x, y :: grouping(x, y) == (x.state.key == y.state.key)
    requires var items := Sent(chunks);
             && i < j < l < |items| && items[i].Stored? && items[l].Stored?
             && items[i].state.key == items[l].state.key != items[j].state.key
    ensures !Whole(chunks, |chunks|)
  {
    hide Sent, Homogeneous, StoresOn, Whole;
    var key := Sent(chunks)[i].state.key;
    var a := ChunkAt(chunks, i);
    var b := ChunkAt(chunks, l);
    HoldsEvent(chunks, a, i);
    HoldsEvent(chunks, b, l);
    if a == b {
      var from := |Sent(chunks[..a])|;
      OneKeyAt(chunks[a].batch, grouping, i - from, j - from);
    } else {
      NotWhole(chunks, a, b, key);
    }
  }

  lemma HoldsEvent<M, C>(chunks: seq<Chunk<Item<M>, C>>, k: nat, x: nat)
    requires k < |chunks| && x < |Sent(chunks)| && Sent(chunks)[x].Stored?
    requires var from := |Sent(chunks[..k])|;
             from <= x < from + |chunks[k].batch| && chunks[k].batch[x - from] == Sent(chunks)[x]
    ensures StoresOn(chunks[k].batch, Sent(chunks)[x].state.key)
  {
  }

  lemma NotWhole<M, C>(chunks: seq<Chunk<Item<M>, C>>, a: nat, b: nat, key: string)
    requires a < |chunks| && b < |chunks| && a != b
    requires StoresOn(chunks[a].batch, key) && StoresOn(chunks[b].batch, key)
    ensures !Whole(chunks, |chunks|)
  {
    hide StoresOn;
  }

  lemma {:induction false} OneKeyAt<M>(batch: seq<Item<M>>, grouping: (Item<M>, Item<M>) -> bool, a: nat, b: nat)
    requires Homogeneous(batch, grouping) && a <= b < |batch|
    requires forall x, y :: grouping(x, y) == (x.state.key == y.state.key)
    ensures batch[a].state.key == batch[b].state.key
  {
    if a < b {
      OneKeyAt(batch, grouping, a, b - 1);
      assert grouping(batch[b - 1], batch[b]);
    }
  }

  /** All items may share a chunk: the sink is not atomic per partition only, or there is one key only. */
  ghost predicate OneGroup<Q, P>(sinks: Sinks<World, Q, Event, P>, c: Context<Event, P>) {
    Homogeneous(StoreTargetItems(c), sinks.StoreTarget().grouping)
  }

  /** In particular it commits if it goes out in one chunk. */
  lemma FreshCommits<Q(!new), P(!new)>(sinks: Sinks<World, Q, Event, P>, w: World, q: Q, epochs: map<string, nat>,
      c: Context<Event, P>)
    requires (forall w, b :: sinks.store(w, b) == CommitStep(w, b)) && PublishesAll(sinks)
    requires NobodyElse(w.pending) && Fresh(w.storage, c)
    requires OneGroup(sinks, c) && (forall n | Limits(sinks.storeMax, n) :: |StoreTargetItems(c)| <= n)
    ensures CoordinateSpec(sinks, w, q, epochs, [c]).result.error.None?
  {
    hide CoordinateSpec, HandleAt, Chunks, CommitStep, Flat, GoodCount, StoreTargetItems, Homogeneous;
    var total := |StoreTargetItems(c)|;
    ItemsOfOne(c);
    if total == 0 {
      NothingToStore(sinks, w, q, epochs, c);
    } else {
      var size := if Unlimited(sinks.storeMax) then total else sinks.storeMax.value;
      assert Unlimited(sinks.storeMax) || Limits(sinks.storeMax, sinks.storeMax.value);
      FreshCommitsIff(sinks, w, q, epochs, c, size);
      OneChunk(sinks.StoreTarget().Config(size), [c]);
    }
  }

  lemma NothingToStore<Q(!new), P(!new)>(sinks: Sinks<World, Q, Event, P>, w: World, q: Q, epochs: map<string, nat>,
      c: Context<Event, P>)
    requires PublishesAll(sinks) && Fresh(w.storage, c) && |StoreTargetItems(c)| == 0
    ensures CoordinateSpec(sinks, w, q, epochs, [c]).result.error.None?
  {
    hide CoordinateSpec, HandleAt, Flat, GoodCount, StoreTargetItems;
    AlonePasses(epochs, c);
    ItemsOfOne(c);
    assert [c][..1] == [c];
    PublishOutcome(sinks, w, q, epochs, [c]);
    PublishedFine(sinks, q, Due(sinks, w, epochs, [c]));
    HandleCases(sinks.StoreTarget(), w, [c], EffectiveSize(None, sinks.storeMax, 0));
  }
}
