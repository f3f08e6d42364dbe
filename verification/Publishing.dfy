/** What the coordinator publishes, and what it says about it: lines 134-189 of
    packages/core/src/internal/batching/SinkCoordinator.ts. */
module Publishing {
  import opened Wrappers
  import opened Sequences
  import opened Model
  import opened Batching
  import Chunking
  import opened BatchHandling
  import opened SinkLimits
  import opened Filters
  import opened Coordinator

  /** What the store sink makes of the contexts that pass the filters. */
  function StoreResult<S, Q, M, P>(sinks: Sinks<S, Q, M, P>, s: S, epochs: map<string, nat>,
      contexts: seq<Context<M, P>>): BatchResult<Context<M, P>> {
    HandleSpec(sinks.StoreTarget(), s, contexts[..GoodCount(epochs, contexts)], None).result
  }

  /** Some context is filtered, and the store takes all that are not. */
  predicate OnlyFiltersReject<S, Q, M, P>(sinks: Sinks<S, Q, M, P>, s: S, epochs: map<string, nat>,
      contexts: seq<Context<M, P>>) {
    StoreResult(sinks, s, epochs, contexts).error.None? && GoodCount(epochs, contexts) < |contexts|
  }

  /** The contexts whose messages are due: those the store has taken, unless only the filters reject some. */
  function Due<S, Q, M, P>(sinks: Sinks<S, Q, M, P>, s: S, epochs: map<string, nat>, contexts: seq<Context<M, P>>)
      : seq<Context<M, P>> {
    if OnlyFiltersReject(sinks, s, epochs, contexts) then [] else StoreResult(sinks, s, epochs, contexts).successful
  }

  lemma StoreTakesAll<S, Q, M, P>(sinks: Sinks<S, Q, M, P>, s: S, epochs: map<string, nat>,
      contexts: seq<Context<M, P>>)
    ensures var st, n := StoreResult(sinks, s, epochs, contexts), GoodCount(epochs, contexts);
            && (st.error.None? ==> st.successful == contexts[..n])
            && (st.error.None? && n == |contexts| ==> st.successful == contexts)
  {
    hide HandleSpec, GoodCount, Flat, Within;
    var n := GoodCount(epochs, contexts);
    SpecFacts(sinks.StoreTarget(), s, contexts[..n], None);
    var st := StoreResult(sinks, s, epochs, contexts);
    assert st.successful + [] == st.successful;
    assert contexts[..|contexts|] == contexts;
  }

  /** The publish sink is handed what is due, and nothing else happens to it. */
  lemma PublishOutcome<S, Q, M, P>(sinks: Sinks<S, Q, M, P>, s: S, q: Q, epochs: map<string, nat>,
      contexts: seq<Context<M, P>>)
    ensures var c := CoordinateSpec(sinks, s, q, epochs, contexts);
            var h := HandleSpec(sinks.PublishTarget(), q, Due(sinks, s, epochs, contexts), None);
            && c.publish == h.state && c.publishCalls == h.calls
            && (OnlyFiltersReject(sinks, s, epochs, contexts) ==>
                  && c.result.successful == contexts[..GoodCount(epochs, contexts)]
                  && c.result.error.Some? && !c.result.error.value.retryable)
            && (StoreResult(sinks, s, epochs, contexts).error.Some? ==>
                  && c.result.successful == Due(sinks, s, epochs, contexts)
                  && c.result.error == StoreResult(sinks, s, epochs, contexts).error)
            && (StoreResult(sinks, s, epochs, contexts).error.None? && GoodCount(epochs, contexts) == |contexts| ==>
                  && Due(sinks, s, epochs, contexts) == contexts
                  && c.result.successful == h.result.successful
                  && (c.result.error.Some? <==> h.result.error.Some?)
                  && (c.result.error.Some? ==>
                        && c.result.error.value.error == h.result.error.value.error
                        && c.result.error.value.retryable
                            == (sinks.storeIdempotent && h.result.error.value.retryable)))
  {
    hide HandleAt, FilterByEpochSpec, FilterNonLinearSpec, GoodCount, LoadedKeys;
    GoodAndBad(epochs, contexts);
    StoreTakesAll(sinks, s, epochs, contexts);
    FilterErrors(epochs, contexts);
    assert Flat([], sinks.PublishTarget().accessor) == [];
    HandleCases(sinks.PublishTarget(), q, [], EffectiveSize(None, sinks.publishMax, 0));
  }

  lemma FilterErrors<M, P>(epochs: map<string, nat>, contexts: seq<Context<M, P>>)
    ensures var byEpoch := FilterByEpochSpec(epochs, contexts, Loaded<M, P>());
            var bySequence := FilterNonLinearSpec(byEpoch.successful, Branches<M, P>());
            && (byEpoch.error.Some? ==> !byEpoch.error.value.retryable)
            && (bySequence.error.Some? ==> !bySequence.error.value.retryable)
  {
    hide Linear, Flat, LinearPrefix, FirstBreak, FirstStale;
  }

  /** The size of the publish sink's chunks is not negative, which `batch` refuses. */
  predicate Publishable<S, Q, M, P>(sinks: Sinks<S, Q, M, P>) {
    sinks.publishMax.Some? ==> sinks.publishMax.value >= 0
  }

  /** What the first `k` contexts publish has been accepted; if these are not all, a call was refused. */
  ghost predicate PublishedUpTo<S, Q, M, P>(sinks: Sinks<S, Q, M, P>, calls: seq<Call<P>>,
      contexts: seq<Context<M, P>>, k: nat) {
    && k <= |contexts|
    && multiset(Flat(contexts[..k], sinks.PublishTarget().accessor)) <= multiset(Accepted(calls))
    && (k < |contexts| && Publishable(sinks) ==> calls != [] && !Last(calls).accepted)
  }

  lemma HandedOver<S, Q, M, P>(sinks: Sinks<S, Q, M, P>, q: Q, due: seq<Context<M, P>>)
    ensures var h := HandleSpec(sinks.PublishTarget(), q, due, None);
            && PublishedUpTo(sinks, h.calls, due, |h.result.successful|)
            && due[..|h.result.successful|] == h.result.successful
            && (h.calls != [] <==> Publishable(sinks) && Flat(due, sinks.PublishTarget().accessor) != [])
  {
    hide HandleAt, Flat, Within;
    var t := sinks.PublishTarget();
    var b := EffectiveSize(None, t.maxBatchSize, |Flat(due, t.accessor)|);
    SpecFacts(t, q, due, None);
    if b > 0 {
      HandledCalls(t, q, due, b);
    } else {
      HandleCases(t, q, due, b);
    }
  }

  /** What is published follows from what is reported.
      If the store fails, the messages of the contexts that are stored are offered to the publish sink before
      the store's error is reported. If only the filters reject contexts, nothing is published, although the
      contexts in front are stored and reported successful. Otherwise contexts are reported successful only
      if their messages are published. */
  lemma PublishedIfReported<S, Q, M, P>(sinks: Sinks<S, Q, M, P>, s: S, q: Q, epochs: map<string, nat>,
      contexts: seq<Context<M, P>>)
    ensures var c := CoordinateSpec(sinks, s, q, epochs, contexts);
            if StoreResult(sinks, s, epochs, contexts).error.Some? then
              && c.result.error == StoreResult(sinks, s, epochs, contexts).error
              && exists k: nat :: PublishedUpTo(sinks, c.publishCalls, c.result.successful, k)
            else if GoodCount(epochs, contexts) < |contexts| then
              && c.publishCalls == [] && c.result.successful == contexts[..GoodCount(epochs, contexts)]
            else
              && PublishedUpTo(sinks, c.publishCalls, contexts, |c.result.successful|)
              && c.result.successful <= contexts
  {
    hide HandleSpec, CoordinateSpec, GoodCount, StoreResult, Flat, PublishedUpTo;
    PublishOutcome(sinks, s, q, epochs, contexts);
    HandedOver(sinks, q, Due(sinks, s, epochs, contexts));
    var h := HandleSpec(sinks.PublishTarget(), q, Due(sinks, s, epochs, contexts), None);
    if OnlyFiltersReject(sinks, s, epochs, contexts) {
      NothingFlat(sinks);
    } else if StoreResult(sinks, s, epochs, contexts).error.Some? {
      assert PublishedUpTo(sinks, h.calls, Due(sinks, s, epochs, contexts), |h.result.successful|);
    } else {
      SpecFacts(sinks.PublishTarget(), q, contexts, None);
    }
  }

  lemma NothingFlat<S, Q, M, P>(sinks: Sinks<S, Q, M, P>)
    ensures Flat([], sinks.PublishTarget().accessor) == []
  {
  }

  /** The publish sink is called exactly if there is something to publish, unless only the filters reject. */
  lemma PublishCalledIff<S, Q, M, P>(sinks: Sinks<S, Q, M, P>, s: S, q: Q, epochs: map<string, nat>,
      contexts: seq<Context<M, P>>)
    ensures var c := CoordinateSpec(sinks, s, q, epochs, contexts);
            var stored := StoreResult(sinks, s, epochs, contexts).successful;
            c.publishCalls != [] <==>
              && !OnlyFiltersReject(sinks, s, epochs, contexts) && Publishable(sinks)
              && Flat(stored, sinks.PublishTarget().accessor) != []
  {
    hide HandleSpec, CoordinateSpec, GoodCount, StoreResult, Flat, PublishedUpTo;
    PublishOutcome(sinks, s, q, epochs, contexts);
    HandedOver(sinks, q, Due(sinks, s, epochs, contexts));
    NothingFlat(sinks);
  }

  /** Every call carries messages of one partition. */
  ghost predicate OnePartition<S, Q, M, P>(sinks: Sinks<S, Q, M, P>, calls: seq<Call<P>>) {
    forall k, i, j | 0 <= k < |calls| && 0 <= i < |calls[k].batch| && 0 <= j < |calls[k].batch| ::
      sinks.partition(calls[k].batch[i]) == sinks.partition(calls[k].batch[j])
  }

  lemma {:induction false} OnePartitionOf<P>(batch: seq<P>, grouping: (P, P) -> bool, partition: P -> string, i: nat)
    requires Homogeneous(batch, grouping) && i < |batch|
    requires forall a, b | 0 <= a < |batch| && 0 <= b < |batch| ::
               grouping(batch[a], batch[b]) == (partition(batch[a]) == partition(batch[b]))
    ensures partition(batch[i]) == partition(batch[0])
  {
    if i > 0 {
      OnePartitionOf(batch, grouping, partition, i - 1);
      assert grouping(batch[i - 1], batch[i]);
    }
  }

  lemma AllOnePartition<P>(batch: seq<P>, grouping: (P, P) -> bool, partition: P -> string)
    requires Homogeneous(batch, grouping)
    requires forall a, b | 0 <= a < |batch| && 0 <= b < |batch| ::
               grouping(batch[a], batch[b]) == (partition(batch[a]) == partition(batch[b]))
    ensures forall i, j | 0 <= i < |batch| && 0 <= j < |batch| :: partition(batch[i]) == partition(batch[j])
  {
    forall i: nat | i < |batch| ensures partition(batch[i]) == partition(batch[0]) {
      OnePartitionOf(batch, grouping, partition, i);
    }
  }

  lemma PassPartitions<S, Q, M, P>(sinks: Sinks<S, Q, M, P>, q: Q, due: seq<Context<M, P>>, size: int)
    requires sinks.publishConsistency.AtomicPerPartition?
    ensures OnePartition(sinks, Attempt(sinks.PublishTarget(), q, due, size).calls)
  {
    var t := sinks.PublishTarget();
    if size > 0 {
      var chunks := Chunks(t.Config(size), due);
      Chunking.ChunksAreFaithful(t.Config(size), due);
      RunShape(t, q, chunks);
      hide Chunks, RunChunks, Homogeneous;
      var calls := Attempt(t, q, due, size).calls;
      forall k | 0 <= k < |calls|
        ensures forall i, j | 0 <= i < |calls[k].batch| && 0 <= j < |calls[k].batch| ::
                  sinks.partition(calls[k].batch[i]) == sinks.partition(calls[k].batch[j])
      {
        assert Chunking.Fair(t.Config(size), chunks[k].batch);
        AllOnePartition(calls[k].batch, t.grouping, sinks.partition);
      }
    }
  }

  lemma {:induction false} HandledPartitions<S, Q, M, P>(sinks: Sinks<S, Q, M, P>, q: Q, due: seq<Context<M, P>>,
      size: int)
    requires sinks.publishConsistency.AtomicPerPartition?
    ensures OnePartition(sinks, HandleAt(sinks.PublishTarget(), q, due, size).calls)
    decreases if size > 0 then size else 0
  {
    hide HandleAt, Attempt, Flat;
    var t := sinks.PublishTarget();
    HandleCases(t, q, due, size);
    if |Flat(due, t.accessor)| > 0 {
      PassPartitions(sinks, q, due, size);
      var p := Attempt(t, q, due, size);
      if p.error.Some? && t.MayRetry(due) && size > 1 {
        HandledPartitions(sinks, p.state, due[p.completed..], size / 2);
      }
    }
  }

  /** Both sinks get what they can take: no call is larger than the sink's maximum; one that is atomic per
      partition gets one partition at a time, any other gets everything that is due at once unless it has a
      maximum. */
  lemma SinksAreRespected<S(!new), Q(!new), M, P>(sinks: Sinks<S, Q, M, P>, s: S, q: Q, epochs: map<string, nat>,
      contexts: seq<Context<M, P>>)
    ensures var c := CoordinateSpec(sinks, s, q, epochs, contexts);
            var all := Flat(Due(sinks, s, epochs, contexts), sinks.PublishTarget().accessor);
            && (forall n | Limits(sinks.storeMax, n) :: NoneLarger(c.storeCalls, n))
            && (forall n | Limits(sinks.publishMax, n) :: NoneLarger(c.publishCalls, n))
            && (sinks.publishConsistency.AtomicPerPartition? ==> OnePartition(sinks, c.publishCalls))
            && (!sinks.publishConsistency.AtomicPerPartition? && Unlimited(sinks.publishMax) && all != [] ==>
                  c.publishCalls != [] && c.publishCalls[0].batch == all)
  {
    hide CoordinateSpec, HandleAt, GoodCount, ErrorOk, OnlyLastRefused, NoneLarger, Flat, OnePartition;
    PublishOutcome(sinks, s, q, epochs, contexts);
    StoreOutcome(sinks, s, q, epochs, contexts);
    var store, publish, n := sinks.StoreTarget(), sinks.PublishTarget(), GoodCount(epochs, contexts);
    var due := Due(sinks, s, epochs, contexts);
    KeepsToGuarantees(store, s, contexts[..n], None);
    KeepsToGuarantees(publish, q, due, None);
    if sinks.publishConsistency.AtomicPerPartition? {
      HandledPartitions(sinks, q, due, EffectiveSize(None, publish.maxBatchSize, |Flat(due, publish.accessor)|));
    }
  }

  /** The calls on record are those the two sinks have got, with their own answers. */
  lemma CallsAreGenuine<S, Q, M, P>(sinks: Sinks<S, Q, M, P>, s: S, q: Q, epochs: map<string, nat>,
      contexts: seq<Context<M, P>>)
    ensures var c := CoordinateSpec(sinks, s, q, epochs, contexts);
            && c.store == Fed(sinks.store, s, c.storeCalls) && Genuine(sinks.store, s, c.storeCalls)
            && c.publish == Fed(sinks.publish, q, c.publishCalls) && Genuine(sinks.publish, q, c.publishCalls)
  {
    hide CoordinateSpec, HandleAt, GoodCount, Fed, Genuine;
    PublishOutcome(sinks, s, q, epochs, contexts);
    StoreOutcome(sinks, s, q, epochs, contexts);
    var store, publish, n := sinks.StoreTarget(), sinks.PublishTarget(), GoodCount(epochs, contexts);
    var due := Due(sinks, s, epochs, contexts);
    HandledGenuine(store, s, contexts[..n],
        EffectiveSize(None, store.maxBatchSize, |Flat(contexts[..n], store.accessor)|));
    HandledGenuine(publish, q, due, EffectiveSize(None, publish.maxBatchSize, |Flat(due, publish.accessor)|));
  }

  /** If only the filters reject, the batch fails with a conflict: that of the first context based on a stale
      state if there is one, which carries two epochs, and else that of the first break in a history. */
  lemma RejectionIsReported<S, Q, M, P>(sinks: Sinks<S, Q, M, P>, s: S, q: Q, epochs: map<string, nat>,
      contexts: seq<Context<M, P>>)
    requires OnlyFiltersReject(sinks, s, epochs, contexts)
    ensures var e := CoordinateSpec(sinks, s, q, epochs, contexts).result.error;
            && e.Some? && e.value.error.SequenceConflict?
            && (e.value.error.details.actualEpoch.Some? <==>
                  exists i | 0 <= i < |contexts| :: HasStale(epochs, contexts[i].loaded))
  {
    hide HandleAt, FilterNonLinearSpec, GoodCount, LoadedKeys, HasStale;
    GoodAndBad(epochs, contexts);
    FilteredError(epochs, contexts);
  }

  lemma FilteredError<M, P>(epochs: map<string, nat>, contexts: seq<Context<M, P>>)
    ensures var byEpoch := FilterByEpochSpec(epochs, contexts, Loaded<M, P>());
            var bySequence := FilterNonLinearSpec(byEpoch.successful, Branches<M, P>());
            && (byEpoch.error.Some? <==> exists i | 0 <= i < |contexts| :: HasStale(epochs, contexts[i].loaded))
            && (byEpoch.error.Some? ==>
                  && byEpoch.error.value.error.SequenceConflict?
                  && byEpoch.error.value.error.details.actualEpoch.Some?)
            && (bySequence.error.Some? ==>
                  && bySequence.error.value.error.SequenceConflict?
                  && bySequence.error.value.error.details.actualEpoch.None?)
  {
    hide Linear, Flat, FirstBreak, LinearPrefix, HasStale;
    var i := FirstStale(epochs, contexts, Loaded<M, P>());
    if i < |contexts| {
      SomeStale(epochs, contexts[i].loaded);
    }
  }

  predicate AtomicSink(consistency: Consistency) {
    consistency.Atomic? || consistency.AtomicPerPartition?
  }

  /** A failed batch may be handed over again exactly if the failure is the store's and is a conflict, or the
      store is atomic or has been given one context only; or if it is the publish sink's, the same holds of
      that, and storing everything again would do no harm. What the filters reject is never retried. */
  lemma RetryableIff<S(!new), Q(!new), M, P>(sinks: Sinks<S, Q, M, P>, s: S, q: Q, epochs: map<string, nat>,
      contexts: seq<Context<M, P>>)
    requires CoordinateSpec(sinks, s, q, epochs, contexts).result.error.Some?
    ensures var e := CoordinateSpec(sinks, s, q, epochs, contexts).result.error.value;
            var n := GoodCount(epochs, contexts);
            e.retryable <==>
              if StoreResult(sinks, s, epochs, contexts).error.Some?
              then e.error.SequenceConflict? || AtomicSink(sinks.storeConsistency) || n == 1
              else
                && n == |contexts| && sinks.storeIdempotent
                && (e.error.SequenceConflict? || AtomicSink(sinks.publishConsistency) || n == 1)
  {
    hide CoordinateSpec, HandleAt, GoodCount, Answered, Flat;
    PublishOutcome(sinks, s, q, epochs, contexts);
    var store, publish, n := sinks.StoreTarget(), sinks.PublishTarget(), GoodCount(epochs, contexts);
    var due := Due(sinks, s, epochs, contexts);
    HandledErrorOk(store, s, contexts[..n],
        EffectiveSize(None, store.maxBatchSize, |Flat(contexts[..n], store.accessor)|));
    HandledErrorOk(publish, q, due, EffectiveSize(None, publish.maxBatchSize, |Flat(due, publish.accessor)|));
  }
}
