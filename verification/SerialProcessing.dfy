/** One message at a time, retried until it does not conflict:
    packages/core/src/internal/processor/SerialMessageProcessor.ts over the state cache, the coordinator
    and the in-memory store. */
module SerialProcessing {
  import opened Wrappers
  import opened Sequences
  import opened Model
  import opened BatchHandling
  import opened Filters
  import opened InMemorySink
  import opened Coordinator
  import opened Commit
  import opened EventSourcing
  import opened StateCache
  import opened DispatchContext
  import opened Freshness
  import opened SinkLimits

  // ---------- what reaches the store stays in it ----------

  /** Streams only got longer, and every event of an accepted call is in its stream. */
  ghost predicate Kept(w: World, w': World, calls: seq<Call<Item<Event>>>) {
    && Grows(w.storage, w'.storage)
    && forall i | 0 <= i < |Accepted(calls)| && Accepted(calls)[i].Stored? ::
         Accepted(calls)[i].message in Stream(w'.storage, Accepted(calls)[i].state.key)
  }

  lemma {:induction false} AddedHolds(items: seq<Item<Event>>, i: nat)
    requires i < |items| && items[i].Stored?
    ensures items[i].message in Added(items, items[i].state.key)
  {
    AddedAt(items, i);
  }

  lemma StepKept(w: World, batch: seq<Item<Event>>)
    ensures var r := CommitStep(w, batch);
            Kept(w, r.next, [Call(batch, r.error.None?)])
  {
    var r := CommitStep(w, batch);
    var st := if |w.pending| > 0 then Merge(w.storage, w.pending[0]) else w.storage;
    forall k ensures Stream(w.storage, k) <= Stream(r.next.storage, k) {
      StreamOfAppend(st, batch, k);
    }
    AcceptedSnoc([], Call(batch, r.error.None?));
    if r.error.None? {
      forall i | 0 <= i < |batch| && batch[i].Stored?
        ensures batch[i].message in Stream(r.next.storage, batch[i].state.key)
      {
        AddedHolds(batch, i);
        StreamOfAppend(st, batch, batch[i].state.key);
      }
    }
  }

  lemma KeptTrans(w0: World, w1: World, w2: World, a: seq<Call<Item<Event>>>, b: seq<Call<Item<Event>>>)
    requires Kept(w0, w1, a) && Kept(w1, w2, b)
    ensures Kept(w0, w2, a + b)
  {
    AcceptedAppend(a, b);
    forall k ensures Stream(w0.storage, k) <= Stream(w2.storage, k) {
      assert Stream(w0.storage, k) <= Stream(w1.storage, k) <= Stream(w2.storage, k);
    }
    forall i | 0 <= i < |Accepted(a + b)| && Accepted(a + b)[i].Stored?
      ensures Accepted(a + b)[i].message in Stream(w2.storage, Accepted(a + b)[i].state.key)
    {
      if i < |Accepted(a)| {
        var k := Accepted(a)[i].state.key;
        assert Stream(w1.storage, k) <= Stream(w2.storage, k);
      } else {
        assert Accepted(a + b)[i] == Accepted(b)[i - |Accepted(a)|];
      }
    }
  }

  lemma {:induction false} ChunksKept<P(!new)>(
      t: Target<World, Item<Event>, Context<Event, P>>, w: World, chunks: seq<Batching.Chunk<Item<Event>,
          Context<Event, P>>>)
    requires CommitsTo(t)
    ensures var p := RunChunks(t, w, chunks); Kept(w, p.state, p.calls)
  {
    hide Kept, CommitStep;
    if |chunks| == 0 {
      NothingKept(w);
    } else {
      var init := chunks[..|chunks| - 1];
      ChunksKept(t, w, init);
      var p := RunChunks(t, w, init);
      if p.error.None? {
        StepKept(p.state, chunks[|chunks| - 1].batch);
        var call := Call(chunks[|chunks| - 1].batch, CommitStep(p.state, chunks[|chunks| - 1].batch).error.None?);
        KeptTrans(w, p.state, RunChunks(t, w, chunks).state, p.calls, [call]);
      }
    }
  }

  lemma NothingKept(w: World)
    ensures Kept(w, w, [])
  {
  }

  lemma {:induction false} HandleKept<P(!new)>(t: Target<World, Item<Event>, Context<Event, P>>, w: World,
      items: seq<Context<Event, P>>, size: int)
    requires CommitsTo(t)
    ensures var h := HandleAt(t, w, items, size); Kept(w, h.state, h.calls)
    decreases if size > 0 then size else 0
  {
    hide Kept, CommitStep, RunChunks;
    NothingKept(w);
    if |Flat(items, t.accessor)| > 0 {
      if size > 0 {
        ChunksKept(t, w, Batching.Chunks(t.Config(size), items));
      }
      var p := Attempt(t, w, items, size);
      if p.error.Some? && t.MayRetry(items) && size > 1 {
        HandleKept(t, p.state, Drop(items, p.completed), size / 2);
        var r := HandleAt(t, p.state, Drop(items, p.completed), size / 2);
        KeptTrans(w, p.state, r.state, p.calls, r.calls);
      }
    }
  }

  // ---------- one call of the sink ----------

  ghost predicate StoresInMemory<Q, P>(sinks: Sinks<World, Q, Event, P>) {
    forall w, b :: sinks.store(w, b) == CommitStep(w, b)
  }

  lemma NoErrorMeansAll<Q, P>(sinks: Sinks<World, Q, Event, P>, w: World, q: Q, epochs: map<string, nat>,
      contexts: seq<Context<Event, P>>)
    requires CoordinateSpec(sinks, w, q, epochs, contexts).result.error.None?
    ensures CoordinateSpec(sinks, w, q, epochs, contexts).toPublish == contexts
  {
    hide HandleSpec, FilterByEpochSpec, FilterNonLinearSpec, GoodCount, LoadedKeys;
    GoodAndBad(epochs, contexts);
  }

  lemma InAccepted<P>(ctx: Context<Event, P>, calls: seq<Call<Item<Event>>>, i: nat)
    requires multiset(Flat([ctx], StoreItems<Event, P>())) <= multiset(Accepted(calls)) && i < |ctx.stored|
    ensures Stored(ctx.stored[i].state, ctx.stored[i].message) in Accepted(calls)
  {
    var x := Stored(ctx.stored[i].state, ctx.stored[i].message);
    FlatSnoc([], ctx, StoreItems<Event, P>());
    assert [] + [ctx] == [ctx];
    assert StoreTargetItems(ctx)[i] == x;
    assert x in Flat([ctx], StoreItems<Event, P>());
    assert x in multiset(Accepted(calls));
  }

  /** Whatever happens to a delivered context, nothing in the store is lost or changed; if there is no
      error, all its events are in the store. */
  lemma Delivery<Q, P(!new)>(sinks: Sinks<World, Q, Event, P>, w: World, q: Q, epochs: map<string, nat>,
      ctx: Context<Event, P>)
    requires StoresInMemory(sinks) && SafeWorld(w) && Tagged(ctx) && OneRefPerKey(ctx)
    ensures var c := CoordinateSpec(sinks, w, q, epochs, [ctx]);
            && SafeWorld(c.store) && Grows(w.storage, c.store.storage)
            && (c.result.error.None? ==>
                  forall i | 0 <= i < |ctx.stored| ::
                      ctx.stored[i].message in Stream(c.store.storage, ctx.stored[i].state.key))
  {
    hide CoordinateSpec, HandleAt, SafeWorld, GoodCount, Tagged, OneRefPerKey, CommitStep, Flat, Grows;
    var t := sinks.StoreTarget();
    var good := [ctx][..GoodCount(epochs, [ctx])];
    RoundSafe(sinks, w, q, epochs, [ctx]);
    StoreOutcome(sinks, w, q, epochs, [ctx]);
    HandleKept(t, w, good, EffectiveSize(None, t.maxBatchSize, |Flat(good, t.accessor)|));
    var c := CoordinateSpec(sinks, w, q, epochs, [ctx]);
    if c.result.error.None? {
      NoErrorMeansAll(sinks, w, q, epochs, [ctx]);
      PublishedWereStored(sinks, w, q, epochs, [ctx]);
      forall i | 0 <= i < |ctx.stored|
        ensures ctx.stored[i].message in Stream(c.store.storage, ctx.stored[i].state.key)
      {
        InAccepted(ctx, c.storeCalls, i);
      }
    }
  }

  // ---------- from stored events to computed states ----------

  lemma {:induction false} MatchOwn<S, P>(items: seq<Output<S, Event>>, c: Context<Event, P>, n: nat, key: string)
    requires c.stored == Messages(items) && n <= |items|
    ensures |Matches(items[..n], key)| == OwnIndex(c.stored, n, key)
  {
    if n > 0 {
      assert items[..n][..n - 1] == items[..n - 1];
      MatchOwn(items, c, n - 1, key);
    }
  }

  /** Where the `j`-th match is among all items. */
  lemma {:induction false} MatchAt<S>(items: seq<Output<S, Event>>, key: string, j: nat) returns (i: nat)
    requires j < |Matches(items, key)|
    ensures i < |items| && items[i].version.key == key && Matches(items, key)[j] == items[i]
    ensures |Matches(items[..i], key)| == j
  {
    var n := |items| - 1;
    if j < |Matches(items[..n], key)| {
      i := MatchAt(items[..n], key, j);
      assert items[..n][..i] == items[..i];
    } else {
      i := n;
    }
  }

  lemma TagsOf<S, P>(items: seq<Output<S, Event>>, c: Context<Event, P>, i: nat, i0: nat)
    requires c.stored == Messages(items) && Tagged(c) && OneRefPerKey(c)
    requires i < |items| && i0 < |items| && items[i0].version.key == items[i].version.key
    ensures var e := items[i].message;
            e.Ours? && e.sn == items[i0].version.seqNum && e.own == OwnIndex(c.stored, i, items[i].version.key)
  {
    assert c.stored[i].state == items[i].version.Ref() && c.stored[i0].state == items[i0].version.Ref();
    assert c.stored[i].message == items[i].message;
  }

  lemma FoundInPlace(storage: Storage<Event>, key: string, e: Event)
    requires Sound(storage) && e in Stream(storage, key) && e.Ours?
    ensures e.sn + e.own < |Stream(storage, key)| && Stream(storage, key)[e.sn + e.own] == e
  {
    var p :| 0 <= p < |Stream(storage, key)| && Stream(storage, key)[p] == e;
    assert InPlace(storage[key], key, p);
  }

  /** The context's `j`-th event for `key` sits `j` places behind the state the first was stored on. */
  lemma MatchInPlace<S, P>(storage: Storage<Event>, items: seq<Output<S, Event>>, c: Context<Event, P>, key: string,
      j: nat)
    requires Sound(storage) && c.stored == Messages(items) && Tagged(c) && OneRefPerKey(c)
    requires forall i | 0 <= i < |c.stored| :: c.stored[i].message in Stream(storage, c.stored[i].state.key)
    requires j < |Matches(items, key)|
    ensures var p := Matches(items, key)[0].version.seqNum + j;
            p < |Stream(storage, key)| && Stream(storage, key)[p] == Matches(items, key)[j].message
    ensures Matches(items, key)[0].version.key == key
  {
    hide Sound, Matches, Tagged, OneRefPerKey;
    var i0 := MatchAt(items, key, 0);
    var i := MatchAt(items, key, j);
    MatchOwn(items, c, i, key);
    TagsOf(items, c, i, i0);
    assert c.stored[i].message == items[i].message;
    FoundInPlace(storage, key, items[i].message);
  }

  /** Once its events are stored, what a context computes is what a full replay of the stream gives. */
  lemma ComputedReplays<S(!new), N, P>(agg: Aggregator<S, N, Event>, storage: Storage<Event>,
      items: seq<Output<S, Event>>, c: Context<Event, P>, key: string)
    requires agg.SnapRestores()
    requires Sound(storage) && c.stored == Messages(items) && Tagged(c) && OneRefPerKey(c)
    requires forall i | 0 <= i < |c.stored| :: c.stored[i].message in Stream(storage, c.stored[i].state.key)
    requires forall i | 0 <= i < |items| :: Replays(agg, Stream(storage, items[i].version.key), items[i].version)
    requires |Matches(items, key)| > 0
    ensures Computed(agg, items, key).key == key && Replays(agg, Stream(storage, key), Computed(agg, items, key))
  {
    hide Sound, Tagged, OneRefPerKey, Matches;
    var m := Matches(items, key);
    var stream := Stream(storage, key);
    var n := m[0].version.seqNum;
    var i0 := MatchAt(items, key, 0);
    forall j | 0 <= j < |m| ensures n + j < |stream| && stream[n + j] == m[j].message {
      MatchInPlace(storage, items, c, key, j);
    }
    MatchInPlace(storage, items, c, key, |m| - 1);
    assert stream[n..n + |m|] == EventsIn(m);
    ComputeReplays(agg, stream, m[0].version, EventsIn(m));
  }

  // ---------- the processor ----------

  /** What a handler does next: load a state (`lost` and `others` are what leaves the cache and what
      others have stored by then), or store an event on the version that its `read`-th action loaded. */
  datatype Action =
    | Read(key: string, atSn: Option<nat>, lost: set<string>, others: Storage<Event>)
    | Write(read: nat, payload: int)

  predicate WritesWhatItRead(actions: seq<Action>, j: nat)
    requires j < |actions|
  {
    actions[j].Write? ==> actions[j].read < j && actions[actions[j].read].Read?
  }

  /** A handler uses one StateRef per key, and only those it has loaded. */
  predicate OneReadPerKey(actions: seq<Action>) {
    && (forall j | 0 <= j < |actions| :: WritesWhatItRead(actions, j))
    && forall i, j | 0 <= i < |actions| && 0 <= j < |actions| && actions[i].Write? && actions[j].Write?
           && WritesWhatItRead(actions, i) && WritesWhatItRead(actions, j) ::
         actions[actions[i].read].key == actions[actions[j].read].key ==> actions[i].read == actions[j].read
  }

  /** One call of the sink: what others store right before each of its chunks, and the epochs by then. */
  datatype SinkCall = SinkCall(pending: seq<Storage<Event>>, epochs: map<string, nat>)

  /** One round of the loop: the runs of the handler that fail and are retried, the last run, whether that
      fails too (or the message or its outputs are invalid), what is published, the calls of the sink, of
      which all but the last fail in a way that is retried, and what leaves the cache on completion. */
  datatype Try<+P> = Try(
    failedRuns: seq<seq<Action>>, actions: seq<Action>, fails: bool, published: seq<P>, sinkCalls: seq<SinkCall>,
        lost: set<string>)

  predicate ProperRun(actions: seq<Action>) {
    OneReadPerKey(actions) && forall j | 0 <= j < |actions| && actions[j].Read? :: AllForeign(actions[j].others)
  }

  predicate ProperTry<P>(t: Try<P>) {
    && ProperRun(t.actions) && (forall i | 0 <= i < |t.failedRuns| :: ProperRun(t.failedRuns[i]))
    && |t.sinkCalls| > 0 && forall i | 0 <= i < |t.sinkCalls| :: OthersOnly(t.sinkCalls[i].pending)
  }

  datatype Message<+P> = Message(id: nat, sequence: nat, isEvicted: bool, tries: seq<Try<P>>)

  datatype Outcome = Done | Failed | StillConflicting

  // ---------- what dispatching leaves behind ----------

  /** What the handler writes, in order. */
  function Written(actions: seq<Action>): seq<int> {
    if |actions| == 0 then []
    else
      var a := actions[|actions| - 1];
      Written(actions[..|actions| - 1]) + if a.Write? then [a.payload] else []
  }

  function Payloads<S>(items: seq<Output<S, Event>>): seq<int> {
    seq(|items|, (i: int) requires 0 <= i < |items| => items[i].message.payload)
  }

  ghost predicate Known<S(!new), N>(agg: Aggregator<S, N, Event>, storage: Storage<Event>, actions: seq<Action>,
      j: nat, returned: map<int, Version<S>>) {
    forall a | 0 <= a < j && a < |actions| && actions[a].Read? ::
      a in returned && returned[a].key == actions[a].key && Replays(agg, Stream(storage, returned[a].key), returned[a])
  }

  /** The `m`-th stored item is the work of action `from[m]`, and its tags say so. */
  ghost predicate Traced<S>(actions: seq<Action>, j: nat, returned: map<int, Version<S>>,
      items: seq<Output<S, Event>>, from: seq<int>) {
    |from| == |items| && forall m | 0 <= m < |from| ::
      && 0 <= from[m] < j <= |actions| && actions[from[m]].Write? && WritesWhatItRead(actions, from[m])
      && actions[from[m]].read in returned && items[m].version == returned[actions[from[m]].read]
  }

  predicate TaggedItem<S>(id: nat, items: seq<Output<S, Event>>, m: nat)
    requires m < |items|
  {
    var e, v := items[m].message, items[m].version;
    e.Ours? && e.cid == id && e.key == v.key && e.sn == v.seqNum && e.own == |Matches(items[..m], v.key)|
  }

  ghost predicate TaggedItems<S>(id: nat, items: seq<Output<S, Event>>) {
    forall m | 0 <= m < |items| :: TaggedItem(id, items, m)
  }

  /** Every version stored on is a replay of its stream, and there is one per key. */
  ghost predicate Prepared<S(!new), N>(agg: Aggregator<S, N, Event>, storage: Storage<Event>, id: nat,
      items: seq<Output<S, Event>>) {
    && TaggedItems(id, items)
    && (forall m | 0 <= m < |items| :: Replays(agg, Stream(storage, items[m].version.key), items[m].version))
    && forall l, m | 0 <= l < |items| && 0 <= m < |items| ::
         items[l].version.key == items[m].version.key ==> items[l].version.seqNum == items[m].version.seqNum
  }

  lemma KnownGrows<S(!new), N>(agg: Aggregator<S, N, Event>, storage: Storage<Event>, later: Storage<Event>,
      actions: seq<Action>, j: nat, returned: map<int, Version<S>>)
    requires Known(agg, storage, actions, j, returned) && Grows(storage, later)
    ensures Known(agg, later, actions, j, returned)
  {
    forall a | 0 <= a < j && a < |actions| && actions[a].Read?
      ensures Replays(agg, Stream(later, returned[a].key), returned[a])
    {
      StillReplays(agg, Stream(storage, returned[a].key), Stream(later, returned[a].key), returned[a]);
    }
  }

  lemma KnownRead<S(!new), N>(agg: Aggregator<S, N, Event>, storage: Storage<Event>, actions: seq<Action>, j: nat,
      returned: map<int, Version<S>>, v: Version<S>)
    requires Known(agg, storage, actions, j, returned) && j < |actions| && actions[j].Read?
    requires v.key == actions[j].key && Replays(agg, Stream(storage, v.key), v)
    ensures Known(agg, storage, actions, j + 1, returned[j := v])
  {
  }

  lemma TracedRead<S>(actions: seq<Action>, j: nat, returned: map<int, Version<S>>, items: seq<Output<S, Event>>,
      from: seq<int>, v: Version<S>)
    requires Traced(actions, j, returned, items, from) && j < |actions|
    ensures Traced(actions, j + 1, returned[j := v], items, from)
  {
  }

  lemma WriteTraced<S(!new), N>(agg: Aggregator<S, N, Event>, storage: Storage<Event>, actions: seq<Action>, j: nat,
      returned: map<int, Version<S>>,
                                items: seq<Output<S, Event>>, from: seq<int>, id: nat)
    requires OneReadPerKey(actions) && j < |actions| && actions[j].Write?
    requires Known(agg, storage, actions, j, returned) && Traced(actions, j, returned, items, from)
        && TaggedItems(id, items)
    ensures actions[j].read in returned
    ensures Known(agg, storage, actions, j + 1, returned)
    ensures var v := returned[actions[j].read];
            var more := items + [Output(v, Ours(id, v.key, v.seqNum, |Matches(items, v.key)|, actions[j].payload))];
            Traced(actions, j + 1, returned, more, from + [j]) && TaggedItems(id, more)
  {
    assert WritesWhatItRead(actions, j);
    var v := returned[actions[j].read];
    var x := Output(v, Ours(id, v.key, v.seqNum, |Matches(items, v.key)|, actions[j].payload));
    assert (items + [x])[..|items|] == items;
    TaggedSnoc(id, items, x);
  }

  lemma TaggedSnoc<S>(id: nat, items: seq<Output<S, Event>>, x: Output<S, Event>)
    requires TaggedItems(id, items) && TaggedItem(id, items + [x], |items|)
    ensures TaggedItems(id, items + [x])
  {
    forall m | 0 <= m < |items| + 1 ensures TaggedItem(id, items + [x], m) {
      if m < |items| {
        assert TaggedItem(id, items, m);
        assert (items + [x])[..m] == items[..m];
      }
    }
  }

  lemma PreparedBy<S(!new), N>(agg: Aggregator<S, N, Event>, storage: Storage<Event>, id: nat, actions: seq<Action>,
      returned: map<int, Version<S>>,
                               items: seq<Output<S, Event>>, from: seq<int>)
    requires OneReadPerKey(actions) && Known(agg, storage, actions, |actions|, returned)
    requires Traced(actions, |actions|, returned, items, from) && TaggedItems(id, items)
    ensures Prepared(agg, storage, id, items)
  {
  }

  lemma TagsCarryOver<S, P>(items: seq<Output<S, Event>>, c: Context<Event, P>, i: nat)
    requires c.stored == Messages(items) && i < |items| && TaggedItem(c.id, items, i)
    ensures var m, s := c.stored[i].message, c.stored[i].state;
            m.Ours? && m.cid == c.id && m.key == s.key && m.sn == s.seqNum && m.own == OwnIndex(c.stored, i, s.key)
  {
    MatchOwn(items, c, i, items[i].version.key);
  }

  lemma PreparedContext<S(!new), N, P>(agg: Aggregator<S, N, Event>, storage: Storage<Event>,
      items: seq<Output<S, Event>>, c: Context<Event, P>)
    requires Prepared(agg, storage, c.id, items) && c.stored == Messages(items)
    ensures Tagged(c) && OneRefPerKey(c)
  {
    hide TaggedItem, OwnIndex, Replays, Matches;
    forall i | 0 <= i < |c.stored|
      ensures var m, s := c.stored[i].message, c.stored[i].state;
              m.Ours? && m.cid == c.id && m.key == s.key && m.sn == s.seqNum && m.own == OwnIndex(c.stored, i, s.key)
    {
      TagsCarryOver(items, c, i);
    }
    assert forall i | 0 <= i < |c.stored| :: c.stored[i].state == items[i].version.Ref();
  }

  /** Others only ever append, which leaves our events where they are. */
  lemma OthersAppended(storage: Storage<Event>, others: Storage<Event>)
    requires Sound(storage) && AllForeign(others)
    ensures Sound(Merge(storage, others)) && Grows(storage, Merge(storage, others))
  {
    MergeSound(storage, others, [], 0);
  }

  lemma NothingGrew<E>(storage: Storage<E>)
    ensures Grows(storage, storage)
  {
  }

  lemma GrowsTrans<E>(a: Storage<E>, b: Storage<E>, c: Storage<E>)
    requires Grows(a, b) && Grows(b, c)
    ensures Grows(a, c)
  {
  }

  /** The events for a key lie one behind the other, from the state that the first was stored on. */
  ghost predicate Committed<S>(storage: Storage<Event>, items: seq<Output<S, Event>>) {
    forall key, j | 0 <= j < |Matches(items, key)| ::
      var p := Matches(items, key)[0].version.seqNum + j;
      p < |Stream(storage, key)| && Stream(storage, key)[p] == Matches(items, key)[j].message
  }

  lemma CommittedBy<S(!new), N>(agg: Aggregator<S, N, Event>, storage: Storage<Event>, items: seq<Output<S, Event>>,
      id: nat)
    requires Sound(storage) && Prepared(agg, storage, id, items) && AllStored(storage, items)
    ensures Committed(storage, items)
  {
    hide Sound, Prepared, Tagged, OneRefPerKey, Matches;
    var c: Context<Event, ()> := Context(id, 0, [], Messages(items), []);
    PreparedContext(agg, storage, items, c);
    forall key, j | 0 <= j < |Matches(items, key)|
      ensures var p := Matches(items, key)[0].version.seqNum + j;
              p < |Stream(storage, key)| && Stream(storage, key)[p] == Matches(items, key)[j].message
    {
      MatchInPlace(storage, items, c, key, j);
    }
  }

  ghost predicate AllStored<S>(storage: Storage<Event>, items: seq<Output<S, Event>>) {
    forall i | 0 <= i < |items| :: items[i].message in Stream(storage, items[i].version.key)
  }

  lemma AllStoredBy<S, P>(storage: Storage<Event>, items: seq<Output<S, Event>>, c: Context<Event, P>)
    requires c.stored == Messages(items)
    requires forall i | 0 <= i < |c.stored| :: c.stored[i].message in Stream(storage, c.stored[i].state.key)
    ensures AllStored(storage, items)
  {
    forall i | 0 <= i < |items| ensures items[i].message in Stream(storage, items[i].version.key) {
      assert c.stored[i].message == items[i].message;
    }
  }

  lemma NothingDispatched<S(!new), N>(agg: Aggregator<S, N, Event>, storage: Storage<Event>, actions: seq<Action>,
      returned: map<int, Version<S>>, id: nat)
    ensures Known(agg, storage, actions, 0, returned) && Traced<S>(actions, 0, returned, [], [])
    ensures TaggedItems<S>(id, []) && Grows(storage, storage)
  {
  }

  lemma StillPrepared<S(!new), N>(agg: Aggregator<S, N, Event>, storage: Storage<Event>, later: Storage<Event>,
      id: nat, items: seq<Output<S, Event>>)
    requires Prepared(agg, storage, id, items) && Grows(storage, later)
    ensures Prepared(agg, later, id, items)
  {
    forall m | 0 <= m < |items| ensures Replays(agg, Stream(later, items[m].version.key), items[m].version) {
      StillReplays(agg, Stream(storage, items[m].version.key), Stream(later, items[m].version.key), items[m].version);
    }
  }

  /** Completing a delivered context puts nothing but replays into the cache. */
  lemma CompletedCoherent<S(!new), N>(
      agg: Aggregator<S, N, Event>, storage: Storage<Event>, cache: Cache<S>, items: seq<Output<S, Event>>, id: nat,
          states: seq<Version<S>>)
    requires agg.SnapRestores() && Sound(storage) && Coherent(agg, storage, cache)
    requires Prepared(agg, storage, id, items) && AllStored(storage, items) && ComputedStates(agg, items, states)
    ensures Coherent(agg, storage, UpdatedAll(cache, states))
  {
    var c: Context<Event, ()> := Context(id, 0, [], Messages(items), []);
    PreparedContext(agg, storage, items, c);
    forall i | 0 <= i < |states| ensures Replays(agg, Stream(storage, states[i].key), states[i]) {
      ComputedReplays(agg, storage, items, c, KeysOf(items)[i]);
    }
    UpdatedAllCoherent(agg, storage, cache, states);
  }

  // ---------- rounds that nobody disturbs ----------

  /** The run loads current states only, and nobody else writes meanwhile. */
  predicate Quiet(actions: seq<Action>) {
    forall j | 0 <= j < |actions| && actions[j].Read? :: actions[j].atSn.None? && actions[j].others == map[]
  }

  predicate Reads(actions: seq<Action>, key: string) {
    exists j | 0 <= j < |actions| && actions[j].Read? :: actions[j].key == key
  }

  /** What the run reads is not cached, or cached in its current state. */
  ghost predicate ReadsUpToDate<S>(storage: Storage<Event>, cache: Cache<S>, actions: seq<Action>) {
    forall j | 0 <= j < |actions| && actions[j].Read? :: UpToDate(storage, cache, actions[j].key)
  }

  /** No state that the run reads is cached. */
  ghost predicate NoneCached<S>(cache: Cache<S>, actions: seq<Action>) {
    forall j | 0 <= j < |actions| && actions[j].Read? :: actions[j].key !in cache
  }

  ghost predicate AllLoaded<S>(actions: seq<Action>, n: nat, loaded: seq<Version<S>>) {
    forall j | 0 <= j < n && j < |actions| && actions[j].Read? ::
      exists i | 0 <= i < |loaded| :: loaded[i].key == actions[j].key
  }

  predicate CurrentVersion<S>(storage: Storage<Event>, v: Version<S>) {
    v.epoch.None? && v.seqNum == |Stream(storage, v.key)|
  }

  ghost predicate AllCurrentVersions<S>(storage: Storage<Event>, loaded: seq<Version<S>>,
      items: seq<Output<S, Event>>) {
    && (forall i | 0 <= i < |loaded| :: CurrentVersion(storage, loaded[i]))
    && (forall i | 0 <= i < |items| :: CurrentVersion(storage, items[i].version))
  }

  ghost predicate StaysUpToDate<S>(storage: Storage<Event>, before: Cache<S>, after: Cache<S>) {
    forall k :: UpToDate(storage, before, k) ==> UpToDate(storage, after, k)
  }

  /** After `j` quiet actions the store is as before, and all that was loaded or written on is current. */
  ghost predicate Undisturbed<S>(storage0: Storage<Event>, cache0: Cache<S>, actions: seq<Action>, j: nat,
      storage: Storage<Event>, cache: Cache<S>, loaded: seq<Version<S>>, items: seq<Output<S, Event>>,
      returned: map<int, Version<S>>) {
    Quiet(actions) ==>
      && storage == storage0 && StaysUpToDate(storage, cache0, cache)
      && (ReadsUpToDate(storage, cache0, actions) ==>
            && AllCurrentVersions(storage, loaded, items)
            && forall a | a in returned :: CurrentVersion(storage, returned[a]))
  }

  lemma UndisturbedRead<S>(storage0: Storage<Event>, cache0: Cache<S>, actions: seq<Action>, j: nat,
      storage: Storage<Event>, later: Storage<Event>, cache: Cache<S>, cache': Cache<S>, loaded: seq<Version<S>>,
      items: seq<Output<S, Event>>, returned: map<int, Version<S>>, v: Version<S>)
    requires Undisturbed(storage0, cache0, actions, j, storage, cache, loaded, items, returned)
    requires j < |actions| && actions[j].Read? && v.key == actions[j].key && v.epoch.None?
    requires later == Merge(storage, actions[j].others)
    requires actions[j].atSn.None? ==> StaysUpToDate(later, cache, cache')
    requires actions[j].atSn.None? && UpToDate(later, cache, v.key) ==> v.seqNum == |Stream(later, v.key)|
    ensures Undisturbed(storage0, cache0, actions, j + 1, later, cache', Put(loaded, v), items, returned[j := v])
  {
    if Quiet(actions) {
      MergeNothing(storage);
      if ReadsUpToDate(storage, cache0, actions) {
        assert UpToDate(storage, cache0, actions[j].key);
        assert CurrentVersion(later, v);
      }
    }
  }

  lemma UndisturbedWrite<S>(storage0: Storage<Event>, cache0: Cache<S>, actions: seq<Action>, j: nat,
      storage: Storage<Event>, cache: Cache<S>, loaded: seq<Version<S>>, items: seq<Output<S, Event>>,
      returned: map<int, Version<S>>, a: int, e: Event)
    requires Undisturbed(storage0, cache0, actions, j, storage, cache, loaded, items, returned) && a in returned
    ensures Undisturbed(storage0, cache0, actions, j + 1, storage, cache, loaded, items + [Output(returned[a], e)],
        returned)
  {
  }

  /** The first `n` failed runs of a round are quiet. */
  predicate QuietRuns<P>(t: Try<P>, n: nat) {
    forall i | 0 <= i < n && i < |t.failedRuns| :: Quiet(t.failedRuns[i])
  }

  lemma StaysTrans<S>(storage: Storage<Event>, a: Cache<S>, b: Cache<S>, c: Cache<S>)
    requires StaysUpToDate(storage, a, b) && StaysUpToDate(storage, b, c)
    ensures StaysUpToDate(storage, a, c)
  {
  }

  lemma StillReads<S>(storage: Storage<Event>, a: Cache<S>, b: Cache<S>, actions: seq<Action>)
    requires StaysUpToDate(storage, a, b)
    ensures ReadsUpToDate(storage, a, actions) ==> ReadsUpToDate(storage, b, actions)
  {
  }

  lemma NothingDisturbed<S>(storage: Storage<Event>, cache: Cache<S>, actions: seq<Action>)
    ensures Undisturbed(storage, cache, actions, 0, storage, cache, [], [], map[])
    ensures StaysUpToDate(storage, cache, cache)
  {
  }

  lemma UndisturbedRun<S>(storage0: Storage<Event>, cache0: Cache<S>, actions: seq<Action>,
      storage: Storage<Event>, cache: Cache<S>, loaded: seq<Version<S>>, items: seq<Output<S, Event>>,
      returned: map<int, Version<S>>)
    requires Undisturbed(storage0, cache0, actions, |actions|, storage, cache, loaded, items, returned)
    ensures Quiet(actions) ==>
              && storage == storage0 && StaysUpToDate(storage, cache0, cache)
              && (ReadsUpToDate(storage, cache0, actions) ==> AllCurrentVersions(storage, loaded, items))
  {
  }

  lemma StaysBy<S>(storage: Storage<Event>, before: Cache<S>, after: Cache<S>, atSn: Option<nat>)
    requires atSn.None? ==> forall k :: UpToDate(storage, before, k) ==> UpToDate(storage, after, k)
    ensures atSn.None? ==> StaysUpToDate(storage, before, after)
  {
  }

  lemma NothingLoaded<S>(actions: seq<Action>)
    ensures AllLoaded<S>(actions, 0, [])
  {
  }

  lemma LoadedAlike<S>(actions: seq<Action>, j: nat, loaded: seq<Version<S>>)
    requires AllLoaded(actions, j, loaded) && j < |actions| && actions[j].Write?
    ensures AllLoaded(actions, j + 1, loaded)
  {
  }

  lemma LoadedMore<S>(actions: seq<Action>, j: nat, loaded: seq<Version<S>>, v: Version<S>)
    requires AllLoaded(actions, j, loaded) && (j < |actions| && actions[j].Read? ==> v.key == actions[j].key)
    ensures j < |actions| && actions[j].Read? ==> AllLoaded(actions, j + 1, Put(loaded, v))
    ensures |Put(loaded, v)| <= |loaded| + 1
  {
    var more := Put(loaded, v);
    assert exists i | 0 <= i < |more| :: more[i].key == v.key by {
      assert more[Place(loaded, v.key)].key == v.key;
    }
    forall i | 0 <= i < |loaded| ensures more[i].key == loaded[i].key {
    }
  }

  /** Where a run of the handler stands: what is stored, cached, loaded and written, what the actions so far
      have returned, and which of them have written. */
  datatype Moment<+S> = Moment(storage: Storage<Event>, cache: Cache<S>, loaded: seq<Version<S>>,
    items: seq<Output<S, Event>>, returned: map<int, Version<S>>, from: seq<int>)

  /** All that holds after the first `j` actions. */
  ghost predicate Running<S(!new), N>(agg: Aggregator<S, N, Event>, id: nat, actions: seq<Action>, j: nat,
      start: Moment<S>, m: Moment<S>) {
    && j <= |actions| && Known(agg, m.storage, actions, j, m.returned)
    && Traced(actions, j, m.returned, m.items, m.from) && TaggedItems(id, m.items)
    && Payloads(m.items) == Written(actions[..j])
    && AllLoaded(actions, j, m.loaded) && |m.loaded| + |m.items| <= j
    && Undisturbed(start.storage, start.cache, actions, j, m.storage, m.cache, m.loaded, m.items, m.returned)
  }

  lemma NothingRan<S(!new), N>(agg: Aggregator<S, N, Event>, id: nat, actions: seq<Action>, start: Moment<S>)
    requires start.loaded == [] && start.items == [] && start.returned == map[] && start.from == []
    ensures Running(agg, id, actions, 0, start, start)
  {
    hide Known, Traced, TaggedItems, AllLoaded, Undisturbed;
    NothingDispatched(agg, start.storage, actions, start.returned, id);
    NothingDisturbed(start.storage, start.cache, actions);
    NothingLoaded<S>(actions);
  }

  lemma RanRead<S(!new), N>(agg: Aggregator<S, N, Event>, id: nat, actions: seq<Action>, j: nat, start: Moment<S>,
      m: Moment<S>, storage: Storage<Event>, cache: Cache<S>, v: Version<S>)
    requires Running(agg, id, actions, j, start, m) && j < |actions| && actions[j].Read?
    requires storage == Merge(m.storage, actions[j].others) && Grows(m.storage, storage)
    requires v.key == actions[j].key && v.epoch.None? && Replays(agg, Stream(storage, v.key), v)
    requires actions[j].atSn.None? && UpToDate(storage, m.cache, v.key) ==> v.seqNum == |Stream(storage, v.key)|
    requires actions[j].atSn.None? ==> forall k :: UpToDate(storage, m.cache, k) ==> UpToDate(storage, cache, k)
    ensures Running(agg, id, actions, j + 1, start,
                    Moment(storage, cache, Put(m.loaded, v), m.items, m.returned[j := v], m.from))
  {
    hide Known, Traced, TaggedItems, AllLoaded, Undisturbed, StaysUpToDate, Merge, Grows, Replays, Put, Payloads;
    KnownGrows(agg, m.storage, storage, actions, j, m.returned);
    KnownRead(agg, storage, actions, j, m.returned, v);
    TracedRead(actions, j, m.returned, m.items, m.from, v);
    LoadedMore(actions, j, m.loaded, v);
    StaysBy(storage, m.cache, cache, actions[j].atSn);
    UndisturbedRead(start.storage, start.cache, actions, j, m.storage, storage, m.cache, cache, m.loaded, m.items,
                    m.returned, v);
    assert actions[..j + 1][..j] == actions[..j];
    assert Written(actions[..j]) + [] == Written(actions[..j]);
  }

  lemma RanWrite<S(!new), N>(agg: Aggregator<S, N, Event>, id: nat, actions: seq<Action>, j: nat, start: Moment<S>,
      m: Moment<S>)
    requires Running(agg, id, actions, j, start, m) && j < |actions| && actions[j].Write? && OneReadPerKey(actions)
    ensures actions[j].read in m.returned
    ensures var v := m.returned[actions[j].read];
            var x := Output(v, Ours(id, v.key, v.seqNum, |Matches(m.items, v.key)|, actions[j].payload));
            Running(agg, id, actions, j + 1, start, m.(items := m.items + [x], from := m.from + [j]))
  {
    hide Known, Traced, TaggedItems, AllLoaded, Undisturbed, Matches, OneReadPerKey, Payloads;
    WriteTraced(agg, m.storage, actions, j, m.returned, m.items, m.from, id);
    var v := m.returned[actions[j].read];
    var e := Ours(id, v.key, v.seqNum, |Matches(m.items, v.key)|, actions[j].payload);
    LoadedAlike(actions, j, m.loaded);
    UndisturbedWrite(start.storage, start.cache, actions, j, m.storage, m.cache, m.loaded, m.items, m.returned,
                     actions[j].read, e);
    assert actions[..j + 1][..j] == actions[..j];
    PayloadsSnoc(m.items, Output(v, e));
  }

  lemma PayloadsSnoc<S>(items: seq<Output<S, Event>>, x: Output<S, Event>)
    ensures Payloads(items + [x]) == Payloads(items) + [x.message.payload]
  {
  }

  lemma RanAll<S(!new), N>(agg: Aggregator<S, N, Event>, id: nat, actions: seq<Action>, start: Moment<S>, m: Moment<S>)
    requires Running(agg, id, actions, |actions|, start, m) && OneReadPerKey(actions)
    ensures Prepared(agg, m.storage, id, m.items) && Payloads(m.items) == Written(actions)
    ensures AllLoaded(actions, |actions|, m.loaded) && |m.loaded| + |m.items| <= |actions|
    ensures Quiet(actions) ==>
              && m.storage == start.storage && StaysUpToDate(m.storage, start.cache, m.cache)
              && (ReadsUpToDate(m.storage, start.cache, actions) ==> AllCurrentVersions(m.storage, m.loaded, m.items))
  {
    hide Known, Traced, TaggedItems, AllLoaded, Undisturbed, OneReadPerKey, Payloads, Written, Prepared;
    assert actions[..|actions|] == actions;
    PreparedBy(agg, m.storage, id, actions, m.returned, m.items, m.from);
    UndisturbedRun(start.storage, start.cache, actions, m.storage, m.cache, m.loaded, m.items, m.returned);
  }

  /** The context that goes to the sink is fresh. */
  lemma FreshContext<S, P>(storage: Storage<Event>, loaded: seq<Version<S>>, items: seq<Output<S, Event>>,
      c: Context<Event, P>)
    requires AllCurrentVersions(storage, loaded, items) && c.loaded == Refs(loaded) && c.stored == Messages(items)
    ensures Fresh(storage, c) && |StoreTargetItems(c)| <= |loaded| + |items|
  {
    forall i | 0 <= i < |c.stored| ensures IsCurrent(storage, c.stored[i].state) {
      assert c.stored[i].state == items[i].version.Ref() && CurrentVersion(storage, items[i].version);
    }
    forall i | 0 <= i < |c.loaded| ensures IsCurrent(storage, c.loaded[i]) && c.loaded[i].epoch.None? {
      assert c.loaded[i] == loaded[i].Ref() && CurrentVersion(storage, loaded[i]);
    }
    FewReadOnly(c, |c.loaded|);
  }

  lemma {:induction false} FewReadOnly<P>(c: Context<Event, P>, n: nat)
    requires n <= |c.loaded|
    ensures |ReadOnly(c, n)| <= n
  {
    if n > 0 {
      FewReadOnly(c, n - 1);
    }
  }

  /** A chunk has room for the actions of a run, and may mix keys. */
  predicate Roomy<Q, P>(sinks: Sinks<World, Q, Event, P>, actions: seq<Action>) {
    !sinks.storeConsistency.AtomicPerPartition?
    && (sinks.storeMax.Some? && sinks.storeMax.value != 0 ==> |actions| <= sinks.storeMax.value)
  }

  /** Neither the handler nor the publish sink fails in this round, nobody else writes from its start to its
      first call of the sink, and what it does goes out in one chunk. */
  ghost predicate CalmRound<Q(!new), P(!new)>(sinks: Sinks<World, Q, Event, P>, t: Try<P>) {
    && !t.fails && Quiet(t.actions) && (forall i | 0 <= i < |t.failedRuns| :: Quiet(t.failedRuns[i]))
    && |t.sinkCalls| > 0 && NobodyElse(t.sinkCalls[0].pending)
    && PublishesAll(sinks) && Roomy(sinks, t.actions)
  }

  /** Round `r` is calm and reads only what the round before it has read. */
  ghost predicate Settles<Q(!new), P(!new)>(sinks: Sinks<World, Q, Event, P>, tries: seq<Try<P>>, r: nat) {
    && 0 < r < |tries| && CalmRound(sinks, tries[r])
    && forall j | 0 <= j < |tries[r].actions| && tries[r].actions[j].Read? ::
         Reads(tries[r - 1].actions, tries[r].actions[j].key)
  }

  lemma UncachedIsUpToDate<S, P>(storage: Storage<Event>, cache: Cache<S>, before: seq<Action>, actions: seq<Action>)
    requires NoneCached(cache, before)
    requires forall j | 0 <= j < |actions| && actions[j].Read? :: Reads(before, actions[j].key)
    ensures ReadsUpToDate(storage, cache, actions)
  {
  }

  // ---------- calling the sink ----------

  /** The store, the topic and the result after these calls of the sink with one context. */
  function Sunk<Q, P>(sinks: Sinks<World, Q, Event, P>, storage: Storage<Event>, q: Q, c: Context<Event, P>,
      calls: seq<SinkCall>): (Storage<Event>, Q, BatchResult<Context<Event, P>>)
    requires |calls| > 0
  {
    var n := |calls| - 1;
    var before := if n == 0 then (storage, q, BatchResult([], [], None)) else Sunk(sinks, storage, q, c, calls[..n]);
    var k := CoordinateSpec(sinks, World(before.0, calls[n].pending), before.1, calls[n].epochs, [c]);
    (k.store.storage, k.publish, k.result)
  }

  /** The sink is not called again after success, a conflict, or an error that must not be retried. */
  predicate IsFinal<C>(r: BatchResult<C>) {
    r.error.None? || r.error.value.error.SequenceConflict? || !r.error.value.retryable
  }

  /** The first `n` calls have been made, all but the last without a final result. */
  ghost predicate Called<Q, P>(sinks: Sinks<World, Q, Event, P>, storage: Storage<Event>, q: Q, c: Context<Event, P>,
      calls: seq<SinkCall>, n: nat, after: (Storage<Event>, Q, BatchResult<Context<Event, P>>)) {
    && 0 < n <= |calls| && after == Sunk(sinks, storage, q, c, calls[..n])
    && forall m | 0 < m < n :: !IsFinal(Sunk(sinks, storage, q, c, calls[..m]).2)
  }

  lemma CalledFirst<Q, P>(sinks: Sinks<World, Q, Event, P>, storage: Storage<Event>, q: Q, c: Context<Event, P>,
      calls: seq<SinkCall>)
    requires |calls| > 0
    ensures Called(sinks, storage, q, c, calls, 1, Sunk(sinks, storage, q, c, [calls[0]]))
  {
    hide Sunk;
    assert calls[..1] == [calls[0]];
  }

  lemma CalledAgain<Q, P>(sinks: Sinks<World, Q, Event, P>, storage: Storage<Event>, q: Q, c: Context<Event, P>,
      calls: seq<SinkCall>, n: nat, after: (Storage<Event>, Q, BatchResult<Context<Event, P>>))
    requires Called(sinks, storage, q, c, calls, n, after) && n < |calls| && !IsFinal(after.2)
    ensures Called(sinks, storage, q, c, calls, n + 1, Sunk(sinks, after.0, after.1, c, [calls[n]]))
  {
    hide CoordinateSpec, IsFinal;
    assert calls[..n + 1][..n] == calls[..n];
    assert [calls[n]][..0] == [];
  }

  // ---------- what is left when a message is done ----------

  /** What the events led to is cached, unless something newer is. */
  ghost predicate Remembered<S(!new), N>(agg: Aggregator<S, N, Event>, cache: Cache<S>, items: seq<Output<S, Event>>) {
    forall key | |Matches(items, key)| > 0 ::
      key in cache && cache[key].seqNum >= Matches(items, key)[0].version.seqNum + |Matches(items, key)|
  }

  lemma RememberedBy<S(!new), N>(agg: Aggregator<S, N, Event>, before: Cache<S>, items: seq<Output<S, Event>>,
      states: seq<Version<S>>)
    requires ComputedStates(agg, items, states)
    requires forall key | |Matches(items, key)| > 0 :: Matches(items, key)[0].version.key == key
    ensures Remembered(agg, UpdatedAll(before, states), items)
  {
    AllAreCached(before, states);
    hide UpdatedAll;
    forall key | |Matches(items, key)| > 0
      ensures var cache := UpdatedAll(before, states);
              key in cache && cache[key].seqNum >= Matches(items, key)[0].version.seqNum + |Matches(items, key)|
    {
      KeysMatch(items, key);
      var i :| 0 <= i < |KeysOf(items)| && KeysOf(items)[i] == key;
      assert states[i] == Computed(agg, items, key);
    }
  }

  lemma {:induction false} MatchesKey<S>(items: seq<Output<S, Event>>, key: string)
    ensures |Matches(items, key)| > 0 ==> Matches(items, key)[0].version.key == key
  {
    if |items| > 0 {
      MatchesKey(items[..|items| - 1], key);
    }
  }

  lemma StillCommitted<S>(storage: Storage<Event>, later: Storage<Event>, items: seq<Output<S, Event>>)
    requires Committed(storage, items) && Grows(storage, later)
    ensures Committed(later, items)
  {
    hide Matches;
    forall key, j | 0 <= j < |Matches(items, key)|
      ensures var p := Matches(items, key)[0].version.seqNum + j;
              p < |Stream(later, key)| && Stream(later, key)[p] == Matches(items, key)[j].message
    {
      var p := Matches(items, key)[0].version.seqNum + j;
      var x := Matches(items, key)[j];
      assert p < |Stream(storage, key)| && Stream(storage, key)[p] == x.message;
      assert Stream(storage, key) <= Stream(later, key);
    }
  }

  /** How the processor has dealt with a message. */
  datatype Dealt<+S> = Skipped | Handled(outcome: Outcome, round: nat, output: seq<Output<S, Event>>)

  /** Marked messages are skipped; what a finished one has written is in the store. */
  ghost predicate DealtWith<S, P>(storage: Storage<Event>, message: Message<P>, d: Dealt<S>) {
    && (d.Skipped? <==> message.isEvicted)
    && (d.Handled? && d.outcome.Done? ==>
          && d.round < |message.tries| && Payloads(d.output) == Written(message.tries[d.round].actions)
          && Committed(storage, d.output))
    && (d.Handled? && d.round < |message.tries| && message.tries[d.round].fails ==> d.outcome.Failed?)
  }

  lemma StillDealtWith<S, P>(storage: Storage<Event>, later: Storage<Event>, message: Message<P>, d: Dealt<S>)
    requires DealtWith(storage, message, d) && Grows(storage, later)
    ensures DealtWith(later, message, d)
  {
    hide Committed, Grows, Payloads, Written;
    if d.Handled? && d.outcome.Done? {
      StillCommitted(storage, later, d.output);
    }
  }

  lemma AllGone<S>(cache: Cache<S>, actions: seq<Action>, loaded: seq<Version<S>>)
    requires AllLoaded(actions, |actions|, loaded) && forall i | 0 <= i < |loaded| :: loaded[i].key !in cache
    ensures NoneCached(cache, actions)
  {
  }

  lemma MixedKeys<Q, P>(sinks: Sinks<World, Q, Event, P>, c: Context<Event, P>)
    requires !sinks.storeConsistency.AtomicPerPartition?
    ensures OneGroup(sinks, c)
  {
  }

  class SerialMessageProcessor<S(!new), N, Q(!new), P(!new)> {
    const provider: CachingStateProvider<S, N, Event>
    const sinks: Sinks<World, Q, Event, P>
    var storage: Storage<Event>
    var topic: Q

    constructor (provider: CachingStateProvider<S, N, Event>, sinks: Sinks<World, Q, Event, P>,
        storage: Storage<Event>, topic: Q)
      requires provider.agg.SnapRestores() && StoresInMemory(sinks) && Sound(storage) && provider.cache == map[]
      ensures Valid()
      ensures this.provider == provider && this.sinks == sinks && this.storage == storage && this.topic == topic
    {
      this.provider, this.sinks, this.storage, this.topic := provider, sinks, storage, topic;
    }

    ghost predicate Valid()
      reads this, provider
    {
      provider.agg.SnapRestores() && StoresInMemory(sinks)
      && Sound(storage) && Coherent(provider.agg, storage, provider.cache)
    }

    /** BaseMessageProcessor.dispatchToHandler: a failed run leaves nothing but states in the cache. */
    method DispatchToHandler(context: BufferedDispatchContext<S, N, Event>, id: nat, t: Try<P>)
      requires Valid() && context.provider == provider && context.loaded == [] && context.storedItems == []
          && !context.completed
      requires ProperTry(t)
      modifies this`storage, provider`cache, context`loaded, context`storedItems
      ensures Valid() && Grows(old(storage), storage) && KeysOnce(context.loaded)
      ensures Prepared(provider.agg, storage, id, context.storedItems)
      ensures Payloads(context.storedItems) == Written(t.actions)
      ensures AllLoaded(t.actions, |t.actions|, context.loaded)
      ensures |context.loaded| + |context.storedItems| <= |t.actions|
      ensures (QuietRuns(t, |t.failedRuns|) && Quiet(t.actions)
               && ReadsUpToDate(old(storage), old(provider.cache), t.actions)) ==>
                storage == old(storage) && AllCurrentVersions(storage, context.loaded, context.storedItems)
    {
      hide Coherent, Sound, Grows, Prepared, ProperRun, Payloads, Written, AllLoaded, Quiet, ReadsUpToDate,
        AllCurrentVersions, StaysUpToDate;
      NothingGrew(storage);
      NothingDisturbed(storage, provider.cache, t.actions);
      for i := 0 to |t.failedRuns|
        invariant Valid() && Grows(old(storage), storage)
        invariant context.loaded == [] && context.storedItems == [] && !context.completed
        invariant QuietRuns(t, i) ==>
                    storage == old(storage) && StaysUpToDate(storage, old(provider.cache), provider.cache)
      {
        ghost var before, cache := storage, provider.cache;
        Dispatch(context, id, t.failedRuns[i]);
        GrowsTrans(old(storage), before, storage);
        if QuietRuns(t, i + 1) {
          StaysTrans(storage, old(provider.cache), cache, provider.cache);
        }
        context.Clear();
      }
      ghost var before := storage;
      if QuietRuns(t, |t.failedRuns|) {
        StillReads(storage, old(provider.cache), provider.cache, t.actions);
      }
      Dispatch(context, id, t.actions);
      GrowsTrans(old(storage), before, storage);
    }

    /** One run of the handler, interleaved with other writers. */
    method Dispatch(context: BufferedDispatchContext<S, N, Event>, id: nat, actions: seq<Action>)
      requires Valid() && context.provider == provider && context.loaded == [] && context.storedItems == []
          && !context.completed
      requires ProperRun(actions)
      modifies this`storage, provider`cache, context`loaded, context`storedItems
      ensures Valid() && Grows(old(storage), storage) && KeysOnce(context.loaded)
      ensures Prepared(provider.agg, storage, id, context.storedItems)
      ensures Payloads(context.storedItems) == Written(actions)
      ensures AllLoaded(actions, |actions|, context.loaded)
      ensures |context.loaded| + |context.storedItems| <= |actions|
      ensures Quiet(actions) ==>
                && storage == old(storage) && StaysUpToDate(storage, old(provider.cache), provider.cache)
                && (ReadsUpToDate(storage, old(provider.cache), actions) ==>
                      AllCurrentVersions(storage, context.loaded, context.storedItems))
    {
      hide Running, Coherent, Sound, Grows, Replays, Merge, OneReadPerKey, Put, Matches, Prepared, AllLoaded, Quiet,
        ReadsUpToDate, AllCurrentVersions, StaysUpToDate, Payloads, Written;
      var returned: map<int, Version<S>> := map[];
      ghost var from: seq<int> := [];
      ghost var start := Moment(storage, provider.cache, [], [], returned, from);
      NothingGrew(storage);
      NothingRan(provider.agg, id, actions, start);
      for j := 0 to |actions|
        invariant Valid() && Grows(old(storage), storage) && KeysOnce(context.loaded) && !context.completed
        invariant Running(provider.agg, id, actions, j, start,
                          Moment(storage, provider.cache, context.loaded, context.storedItems, returned, from))
      {
        ghost var now := Moment(storage, provider.cache, context.loaded, context.storedItems, returned, from);
        match actions[j]
        case Read(key, atSn, lost, others) =>
          AppendOthers(others);
          GrowsTrans(old(storage), now.storage, storage);
          var v := context.Get(storage, key, atSn, lost);
          RanRead(provider.agg, id, actions, j, start, now, storage, provider.cache, v);
          returned := returned[j := v];
        case Write(read, payload) =>
          RanWrite(provider.agg, id, actions, j, start, now);
          var v := returned[read];
          var own := |Matches(context.storedItems, v.key)|;
          var _ := context.Store(v, Ours(id, v.key, v.seqNum, own, payload));
          from := from + [j];
      }
      RanAll(provider.agg, id, actions, start,
             Moment(storage, provider.cache, context.loaded, context.storedItems, returned, from));
    }

    /** Another writer appends to the store. */
    method AppendOthers(others: Storage<Event>)
      requires Valid() && AllForeign(others)
      modifies this`storage
      ensures Valid() && Grows(old(storage), storage) && storage == Merge(old(storage), others)
    {
      OthersAppended(storage, others);
      StillCoherent(provider.agg, storage, Merge(storage, others), provider.cache);
      storage := Merge(storage, others);
    }

    /** BaseMessageProcessor.dispatchToSink with CompositeOutputSink.sink: the sink is called again after an
        error that may be retried, unless it is a conflict. */
    method DispatchToSink(context: BufferedDispatchContext<S, N, Event>, id: nat, sequence: nat,
        t: Try<P>) returns (result: BatchResult<Context<Event, P>>, ghost used: nat)
      requires Valid() && ProperTry(t) && Prepared(provider.agg, storage, id, context.storedItems)
      modifies this`storage, this`topic
      ensures used < |t.sinkCalls| ==> IsFinal(result)
      ensures var c := Context(id, sequence, Refs(context.loaded), Messages(context.storedItems), t.published);
              Called(sinks, old(storage), old(topic), c, t.sinkCalls, used, (storage, topic, result))
      ensures Valid() && Grows(old(storage), storage)
      ensures Prepared(provider.agg, storage, id, context.storedItems)
      ensures result.error.None? ==> AllStored(storage, context.storedItems)
      ensures (AllCurrentVersions(old(storage), context.loaded, context.storedItems)
               && NobodyElse(t.sinkCalls[0].pending) && PublishesAll(sinks) && Roomy(sinks, t.actions)
               && |context.loaded| + |context.storedItems| <= |t.actions|) ==> result.error.None?
    {
      hide Coherent, Sound, Grows, Prepared, AllStored, AllCurrentVersions, PublishesAll, Fresh, StoreTargetItems,
        Called, Sunk;
      var c := Context(id, sequence, Refs(context.loaded), Messages(context.storedItems), t.published);
      if AllCurrentVersions(storage, context.loaded, context.storedItems) {
        FreshContext(storage, context.loaded, context.storedItems, c);
      }
      result := CallSink(c, context.storedItems, t.sinkCalls[0]);
      ghost var first := result;
      CalledFirst(sinks, old(storage), old(topic), c, t.sinkCalls);
      var i := 1;
      while i < |t.sinkCalls| && result.error.Some? && !result.error.value.error.SequenceConflict?
          && result.error.value.retryable
        invariant 0 < i <= |t.sinkCalls|
        invariant Called(sinks, old(storage), old(topic), c, t.sinkCalls, i, (storage, topic, result))
        invariant Valid() && Grows(old(storage), storage)
        invariant Prepared(provider.agg, storage, id, context.storedItems)
        invariant result.error.None? ==> AllStored(storage, context.storedItems)
        invariant first.error.None? ==> result.error.None?
      {
        ghost var before := storage;
        CalledAgain(sinks, old(storage), old(topic), c, t.sinkCalls, i, (storage, topic, result));
        result := CallSink(c, context.storedItems, t.sinkCalls[i]);
        GrowsTrans(old(storage), before, storage);
        i := i + 1;
      }
      used := i;
    }

    /** Without an error all events of the context are stored. */
    method CallSink(c: Context<Event, P>, ghost items: seq<Output<S, Event>>,
        call: SinkCall) returns (result: BatchResult<Context<Event, P>>)
      requires Valid() && OthersOnly(call.pending) && Prepared(provider.agg, storage, c.id, items)
          && c.stored == Messages(items)
      modifies this`storage, this`topic
      ensures Valid() && Grows(old(storage), storage)
      ensures Prepared(provider.agg, storage, c.id, items)
      ensures result.error.None? ==> AllStored(storage, items)
      ensures (storage, topic, result) == Sunk(sinks, old(storage), old(topic), c, [call])
      ensures (Fresh(old(storage), c) && NobodyElse(call.pending) && PublishesAll(sinks)
               && !sinks.storeConsistency.AtomicPerPartition?
               && forall n | Limits(sinks.storeMax, n) :: |StoreTargetItems(c)| <= n) ==> result.error.None?
    {
      hide Coherent, Sound, Grows, Prepared, CoordinateSpec, Tagged, OneRefPerKey, AllStored, Fresh, StoreTargetItems;
      if Fresh(storage, c) && NobodyElse(call.pending) && PublishesAll(sinks)
         && !sinks.storeConsistency.AtomicPerPartition?
         && forall n | Limits(sinks.storeMax, n) :: |StoreTargetItems(c)| <= n {
        MixedKeys(sinks, c);
        FreshCommits(sinks, World(storage, call.pending), topic, call.epochs, c);
      }
      PreparedContext(provider.agg, storage, items, c);
      Delivery(sinks, World(storage, call.pending), topic, call.epochs, c);
      var w, q, badKeys;
      w, q, result, badKeys := Coordinate(sinks, World(storage, call.pending), topic, call.epochs, [c]);
      StillCoherent(provider.agg, storage, w.storage, provider.cache);
      StillPrepared(provider.agg, storage, w.storage, c.id, items);
      storage, topic := w.storage, q;
      if result.error.None? {
        AllStoredBy(storage, items, c);
      }
    }

    /** Lines 182-184. */
    method InvalidateLoaded(context: BufferedDispatchContext<S, N, Event>)
      requires Valid() && context.provider == provider
      modifies provider
      ensures Valid() && provider.callbacksDisabledFor <= old(provider.callbacksDisabledFor)
      ensures forall i | 0 <= i < |context.loaded| :: context.loaded[i].key !in provider.cache
    {
      for i := 0 to |context.loaded|
        invariant Valid() && provider.callbacksDisabledFor <= old(provider.callbacksDisabledFor)
        invariant forall j | 0 <= j < i :: context.loaded[j].key !in provider.cache
      {
        var evicted := provider.Invalidate(context.loaded[i].key);
      }
    }

    /** Line 190. */
    method Complete(context: BufferedDispatchContext<S, N, Event>, id: nat, lost: set<string>)
      requires Valid() && context.provider == provider
      requires Prepared(provider.agg, storage, id, context.storedItems) && AllStored(storage, context.storedItems)
      modifies provider`cache, context`completed
      ensures Valid() && Remembered(provider.agg, provider.cache, context.storedItems)
    {
      hide Sound, Prepared, AllStored, Matches, ComputedStates, UpdatedAll;
      ghost var cache := provider.cache;
      context.Complete(lost);
      ghost var states :| ComputedStates(provider.agg, context.storedItems, states)
          && provider.cache == UpdatedAll(cache - lost, states);
      CompletedCoherent(provider.agg, storage, cache - lost, context.storedItems, id, states);
      forall key ensures |Matches(context.storedItems, key)| > 0 ==>
          Matches(context.storedItems, key)[0].version.key == key {
        MatchesKey(context.storedItems, key);
      }
      RememberedBy(provider.agg, cache - lost, context.storedItems, states);
    }

    /** SerialMessageProcessor.ts:84-237. The loop has no bound of its own; it is followed for as long as
        `tries` goes on, so what holds afterwards holds after every round. When it is done, all that the
        handler wrote in its last round (`output`) is in the store in one piece, right behind the events
        that make up the states it saw. */
    method HandleMessage(id: nat, sequence: nat, tries: seq<Try<P>>) returns (outcome: Outcome, round: nat,
        output: seq<Output<S, Event>>)
      requires Valid() && forall i | 0 <= i < |tries| :: ProperTry(tries[i])
      modifies this`storage, this`topic, provider
      ensures Valid() && Grows(old(storage), storage)
      ensures outcome.Done? ==> round < |tries| && Payloads(output) == Written(tries[round].actions)
      ensures outcome.Done? ==> Prepared(provider.agg, storage, id, output) && Committed(storage, output)
      ensures outcome.Done? ==> Remembered(provider.agg, provider.cache, output)
      ensures round < |tries| && tries[round].fails ==> outcome.Failed?
      ensures |tries| > 0 && tries[0].fails ==> topic == old(topic)
      ensures outcome.StillConflicting? && |tries| > 0 ==> NoneCached(provider.cache, tries[|tries| - 1].actions)
      ensures forall r: nat | Settles(sinks, tries, r) :: round <= r && (round == r ==> outcome.Done?)
      ensures (|tries| > 0 && CalmRound(sinks, tries[0])
               && ReadsUpToDate(old(storage), old(provider.cache), tries[0].actions)) ==> outcome.Done? && round == 0
    {
      hide Coherent, Sound, Grows, Prepared, Committed, AllStored, ProperTry, Payloads, Written, NoneCached,
        ReadsUpToDate, AllLoaded, AllCurrentVersions, Quiet, Reads, PublishesAll, NobodyElse, Roomy, Remembered, Sunk;
      output, round := [], 0;
      NothingGrew(storage);
      while round < |tries|
        invariant round <= |tries| && Valid() && Grows(old(storage), storage)
        invariant round > 0 ==> NoneCached(provider.cache, tries[round - 1].actions)
        invariant forall r: nat | r < round :: !Settles(sinks, tries, r)
        invariant round == 0 ==>
                    storage == old(storage) && provider.cache == old(provider.cache) && topic == old(topic)
        invariant round > 0 ==> !tries[0].fails
        invariant round > 0 ==> !(CalmRound(sinks, tries[0])
                                  && ReadsUpToDate(old(storage), old(provider.cache), tries[0].actions))
      {
        if Settles(sinks, tries, round) {
          UncachedIsUpToDate<S, P>(storage, provider.cache, tries[round - 1].actions, tries[round].actions);
        }
        ghost var before := storage;
        var context := new BufferedDispatchContext(provider);
        DispatchToHandler(context, id, tries[round]);
        GrowsTrans(old(storage), before, storage);
        before := storage;
        if tries[round].fails {
          return Failed, round, output;
        }
        var result, used := DispatchToSink(context, id, sequence, tries[round]);
        GrowsTrans(old(storage), before, storage);
        output := context.storedItems;
        if result.error.None? {
          CommittedBy(provider.agg, storage, output, id);
          Complete(context, id, tries[round].lost);
          return Done, round, output;
        } else if result.error.value.error.SequenceConflict? {
          InvalidateLoaded(context);
          AllGone(provider.cache, tries[round].actions, context.loaded);
        } else {
          return Failed, round, output;
        }
        round := round + 1;
      }
      outcome := StillConflicting;
    }

    /** Lines 62-81: whatever messages come and however handling them ends, the cache stays coherent. */
    method Run(messages: seq<Message<P>>) returns (dealt: seq<Dealt<S>>)
      requires Valid()
      requires forall m | 0 <= m < |messages| :: forall i | 0 <= i < |messages[m].tries| ::
          ProperTry(messages[m].tries[i])
      modifies this`storage, this`topic, provider
      ensures Valid() && Grows(old(storage), storage)
      ensures |dealt| == |messages| && forall m | 0 <= m < |messages| :: DealtWith(storage, messages[m], dealt[m])
    {
      hide Coherent, Sound, Grows, ProperTry, Committed, Payloads, Written, Settles, CalmRound, Remembered, Prepared,
        NoneCached, ReadsUpToDate;
      NothingGrew(storage);
      dealt := [];
      for m := 0 to |messages|
        invariant Valid() && Grows(old(storage), storage)
        invariant |dealt| == m && forall i | 0 <= i < m :: DealtWith(storage, messages[i], dealt[i])
      {
        if messages[m].isEvicted {
          dealt := dealt + [Skipped];
          continue;
        }
        ghost var before := storage;
        var outcome, round, output := HandleMessage(messages[m].id, messages[m].sequence, messages[m].tries);
        GrowsTrans(old(storage), before, storage);
        forall i | 0 <= i < m ensures DealtWith(storage, messages[i], dealt[i]) {
          StillDealtWith(before, storage, messages[i], dealt[i]);
        }
        dealt := dealt + [Dealt.Handled(outcome, round, output)];
      }
    }
  }
}
