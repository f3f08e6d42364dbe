/** Delivery to a sink with bisection on failure: packages/core/src/internal/batching/BatchHandler.ts. */
module BatchHandling {
  import opened Wrappers
  import opened Sequences
  import opened Model
  import opened Batching
  import opened Chunking

  /** A sink answers a chunk with its next state and possibly an error. `S` is any type: it may hold
      the store, what other writers will do to it, or a script of network failures, so a claim about
      every `sink` and every first state covers every behaviour the sink's surroundings allow. */
  datatype SinkReply<+S> = SinkReply(next: S, error: Option<Error>)

  datatype Target<!S, !T, !C> = Target(
    sink: (S, seq<T>) -> SinkReply<S>, consistency: Consistency, maxBatchSize: Option<int>,
    accessor: C -> seq<T>, grouping: (T, T) -> bool)
  {
    predicate MayRetry(items: seq<C>) {
      consistency.Atomic? || consistency.AtomicPerPartition? || |items| == 1
    }

    function Config(size: int): Config<T, C>
      requires size > 0
    {
      Batching.Config(accessor, grouping, Some(size as nat))
    }
  }

  /** One call of the sink, for the record. */
  datatype Call<+T> = Call(batch: seq<T>, accepted: bool)

  /** One pass of `handle` over the chunks, ended by the first rejected one. */
  datatype Pass<+S, +T> = Pass(state: S, calls: seq<Call<T>>, completed: nat, error: Option<Error>)

  function RunChunks<S, T, C>(t: Target<S, T, C>, s: S, chunks: seq<Chunk<T, C>>): Pass<S, T> {
    if |chunks| == 0 then Pass(s, [], 0, None)
    else
      var p := RunChunks(t, s, chunks[..|chunks| - 1]);
      if p.error.Some? then p
      else
        var chunk := chunks[|chunks| - 1];
        var r := t.sink(p.state, chunk.batch);
        if r.error.None?
        then Pass(r.next, p.calls + [Call(chunk.batch, true)], p.completed + |chunk.completed|, None)
        else Pass(r.next, p.calls + [Call(chunk.batch, false)], p.completed, r.error)
  }

  function Attempt<S, T, C>(t: Target<S, T, C>, s: S, items: seq<C>, size: int): Pass<S, T> {
    if size <= 0 then Pass(s, [], 0, Some(InvalidBatchSize(size)))
    else RunChunks(t, s, Chunks(t.Config(size), items))
  }

  /** What `handle` returns, with the sink's last state, all its calls and the number of passes. */
  datatype Handled<+S, +T, +C> = Handled(state: S, result: BatchResult<C>, calls: seq<Call<T>>, passes: nat)

  function HandleAt<S, T, C>(t: Target<S, T, C>, s: S, items: seq<C>, size: int): Handled<S, T, C>
    decreases if size > 0 then size else 0
  {
    if |Flat(items, t.accessor)| == 0 then Handled(s, BatchResult(items, [], None), [], 0)
    else
      var p := Attempt(t, s, items, size);
      if p.error.None? then Handled(p.state, BatchResult(items, [], None), p.calls, 1)
      else if t.MayRetry(items) && size > 1 then
        var r := HandleAt(t, p.state, Drop(items, p.completed), size / 2);
        Handled(r.state,
                BatchResult(Take(items, p.completed) + r.result.successful, r.result.failed, r.result.error),
                p.calls + r.calls, 1 + r.passes)
      else
        var e := p.error.value;
        Handled(p.state,
                BatchResult(Take(items, p.completed), Drop(items, p.completed),
                            Some(BatchError(e, e.SequenceConflict? || t.MayRetry(items)))),
                p.calls, 1)
  }

  /** `batchSize || maxBatchSize || total`: zero counts as absent. */
  function EffectiveSize(size: Option<int>, max: Option<int>, total: nat): int {
    if size.Some? && size.value != 0 then size.value
    else if max.Some? && max.value != 0 then max.value
    else total
  }

  function HandleSpec<S, T, C>(t: Target<S, T, C>, s: S, items: seq<C>, size: Option<int>): Handled<S, T, C> {
    HandleAt(t, s, items, EffectiveSize(size, t.maxBatchSize, |Flat(items, t.accessor)|))
  }

  /** BatchHandler.ts:33-43: one pass over the chunks, which the first error ends. */
  method RunPass<S, T, C>(t: Target<S, T, C>, s: S, items: seq<C>, batchSize: int)
      returns (state: S, completedContexts: nat, error: Option<Error>)
    ensures var p := Attempt(t, s, items, batchSize);
            state == p.state && completedContexts == p.completed && error == p.error
  {
    state, completedContexts, error := s, 0, None;
    var chunks := Batch(items, t.accessor, t.grouping, Some(batchSize));
    if chunks.None? {
      error := Some(InvalidBatchSize(batchSize));
      return;
    }
    hide Chunks;
    var i := 0;
    while i < |chunks.value| && error.None?
      invariant i <= |chunks.value|
      invariant var p := RunChunks(t, s, chunks.value[..i]);
                state == p.state && completedContexts == p.completed && error == p.error
    {
      assert chunks.value[..i + 1][..i] == chunks.value[..i];
      var reply := t.sink(state, chunks.value[i].batch);
      state := reply.next;
      if reply.error.Some? {
        error := reply.error;
      } else {
        completedContexts := completedContexts + |chunks.value[i].completed|;
      }
      i := i + 1;
    }
    StopsAtError(t, s, chunks.value, i);
  }

  /** BatchHandler.ts:21-64. */
  method Handle<S, T, C>(t: Target<S, T, C>, s: S, items: seq<C>, size: Option<int>)
      returns (state: S, result: BatchResult<C>)
    ensures state == HandleSpec(t, s, items, size).state
    ensures result == HandleSpec(t, s, items, size).result
    decreases var b := EffectiveSize(size, t.maxBatchSize, |Flat(items, t.accessor)|); if b > 0 then b else 0
  {
    hide Attempt, Flat;
    var total := |Flat(items, t.accessor)|;
    if total == 0 {
      return s, BatchResult(items, [], None);
    }
    var batchSize := EffectiveSize(size, t.maxBatchSize, total);
    var completedContexts, error;
    state, completedContexts, error := RunPass(t, s, items, batchSize);
    if error.None? {
      return state, BatchResult(items, [], None);
    }
    if t.MayRetry(items) && batchSize > 1 {
      var rest: BatchResult<C>;
      state, rest := Handle(t, state, Drop(items, completedContexts), Some(batchSize / 2));
      return state, BatchResult(Take(items, completedContexts) + rest.successful, rest.failed, rest.error);
    }
    result := BatchResult(Take(items, completedContexts), Drop(items, completedContexts),
                          Some(BatchError(error.value, error.value.SequenceConflict? || t.MayRetry(items))));
  }

  lemma {:induction false} StopsAtError<S, T, C>(t: Target<S, T, C>, s: S, chunks: seq<Chunk<T, C>>, i: nat)
    requires i <= |chunks|
    requires i == |chunks| || RunChunks(t, s, chunks[..i]).error.Some?
    ensures RunChunks(t, s, chunks) == RunChunks(t, s, chunks[..i])
  {
    if i == |chunks| {
      assert chunks[..i] == chunks;
    } else {
      var init := chunks[..|chunks| - 1];
      assert init[..i] == chunks[..i];
      StopsAtError(t, s, init, i);
    }
  }

  // ---------- one pass ----------

  function Accepted<T>(calls: seq<Call<T>>): seq<T> {
    if |calls| == 0 then []
    else
      var c := calls[|calls| - 1];
      Accepted(calls[..|calls| - 1]) + if c.accepted then c.batch else []
  }

  lemma AcceptedSnoc<T>(calls: seq<Call<T>>, c: Call<T>)
    ensures Accepted(calls + [c]) == Accepted(calls) + if c.accepted then c.batch else []
  {
  }

  lemma {:induction false} AcceptedAppend<T>(a: seq<Call<T>>, b: seq<Call<T>>)
    ensures Accepted(a + b) == Accepted(a) + Accepted(b)
  {
    if b == [] {
      assert a + b == a;
    } else {
      var n := |b| - 1;
      assert a + b == (a + b[..n]) + [b[n]];
      AcceptedSnoc(a + b[..n], b[n]);
      AcceptedAppend(a, b[..n]);
    }
  }

  /** How many chunks of the pass were accepted. */
  function Good<S, T>(p: Pass<S, T>): nat {
    if p.error.Some? && |p.calls| > 0 then |p.calls| - 1 else |p.calls|
  }

  /** The pass sent exactly the first chunks, in order, and only the last one may have been rejected. */
  ghost predicate Shape<S, T, C>(t: Target<S, T, C>, p: Pass<S, T>, chunks: seq<Chunk<T, C>>) {
    && Good(p) <= |chunks|
    && |p.calls| == Good(p) + (if p.error.Some? then 1 else 0)
    && (forall i | 0 <= i < Good(p) :: p.calls[i] == Call(chunks[i].batch, true))
    && (p.error.None? ==> Good(p) == |chunks|)
    && (p.error.Some? ==> Good(p) < |chunks| && p.calls[Good(p)] == Call(chunks[Good(p)].batch, false))
  }

  lemma {:induction false} RunShape<S, T, C>(t: Target<S, T, C>, s: S, chunks: seq<Chunk<T, C>>)
    ensures Shape(t, RunChunks(t, s, chunks), chunks)
  {
    if |chunks| > 0 {
      RunShape(t, s, chunks[..|chunks| - 1]);
    }
  }

  ghost predicate Counts<S, T, C>(p: Pass<S, T>, chunks: seq<Chunk<T, C>>, k: nat) {
    k <= |chunks| && Accepted(p.calls) == Sent(chunks[..k]) && p.completed == |Completed(chunks[..k])|
  }

  lemma RunSnoc<S, T, C>(t: Target<S, T, C>, s: S, init: seq<Chunk<T, C>>, c: Chunk<T, C>)
    ensures var q := RunChunks(t, s, init);
            var p := RunChunks(t, s, init + [c]);
            (q.error.Some? ==> p == q)
            && (q.error.None? ==> var r := t.sink(q.state, c.batch);
                  p == Pass(r.next, q.calls + [Call(c.batch, r.error.None?)],
                            q.completed + (if r.error.None? then |c.completed| else 0), r.error))
  {
  }

  lemma CountsSnoc<S, T, C>(t: Target<S, T, C>, s: S, init: seq<Chunk<T, C>>, c: Chunk<T, C>)
    requires Counts(RunChunks(t, s, init), init, Good(RunChunks(t, s, init)))
    requires RunChunks(t, s, init).error.None?
    ensures var p := RunChunks(t, s, init + [c]); Counts(p, init + [c], Good(p))
  {
    RunShape(t, s, init);
    RunSnoc(t, s, init, c);
    hide RunChunks, Accepted, Sent, Completed;
    var q := RunChunks(t, s, init);
    AcceptedSnoc(q.calls, Call(c.batch, t.sink(q.state, c.batch).error.None?));
    SentSnoc(init, c);
    assert init[..|init|] == init == (init + [c])[..|init|];
    assert (init + [c])[..|init| + 1] == init + [c];
  }

  lemma {:induction false} RunCounts<S, T, C>(t: Target<S, T, C>, s: S, chunks: seq<Chunk<T, C>>)
    ensures Counts(RunChunks(t, s, chunks), chunks, Good(RunChunks(t, s, chunks)))
  {
    if |chunks| > 0 {
      hide Accepted, Sent, Completed;
      var init, c := chunks[..|chunks| - 1], chunks[|chunks| - 1];
      assert chunks == init + [c];
      RunCounts(t, s, init);
      var q := RunChunks(t, s, init);
      if q.error.Some? {
        assert init[..Good(q)] == chunks[..Good(q)];
      } else {
        CountsSnoc(t, s, init, c);
      }
    } else {
      NoChunks(t, s);
    }
  }

  lemma NoChunks<S, T, C>(t: Target<S, T, C>, s: S)
    ensures Counts<S, T, C>(RunChunks(t, s, []), [], 0)
  {
  }

  /** How many containers `FullyWithin` reports, and that they do lie within. */
  lemma {:induction false} FullyWithinBounds<T, C>(accessor: C -> seq<T>, cs: seq<C>, n: nat)
    requires n <= |Flat(cs, accessor)|
    ensures var m := |FullyWithin(accessor, cs, n)|;
            && m <= |cs| && |Flat(cs[..m], accessor)| <= n
            && (n < |Flat(cs, accessor)| ==> m < |cs|)
  {
    if |cs| > 0 {
      var init := cs[..|cs| - 1];
      var m := |FullyWithin(accessor, cs, n)|;
      if n <= |Flat(init, accessor)| {
        FullyWithinBounds(accessor, init, n);
        if m <= |init| {
          assert init[..m] == cs[..m];
        }
      } else {
        FullyWithinAll(accessor, init, n);
        FullyWithinBounds(accessor, init, |Flat(init, accessor)|);
        if m <= |init| {
          assert init[..m] == cs[..m];
          FlatPrefix(init, m, accessor);
        }
      }
      assert cs[..|cs|] == cs;
    }
  }

  /** Without empty containers the count is exact. */
  lemma {:induction false} FullyWithinExact<T, C>(accessor: C -> seq<T>, cs: seq<C>, n: nat)
    requires n < |Flat(cs, accessor)| && AllNonEmpty(accessor, cs)
    ensures var m := |FullyWithin(accessor, cs, n)|;
            m < |cs| && n < |Flat(cs[..m + 1], accessor)|
  {
    var init := cs[..|cs| - 1];
    FullyWithinBounds(accessor, cs, n);
    var m := |FullyWithin(accessor, cs, n)|;
    if n < |Flat(init, accessor)| {
      FullyWithinExact(accessor, init, n);
      assert init[..m + 1] == cs[..m + 1];
    } else {
      AllWithin(accessor, init, n);
      assert cs[..|cs|] == cs;
    }
  }

  lemma {:induction false} AllWithin<T, C>(accessor: C -> seq<T>, cs: seq<C>, n: nat)
    requires n >= |Flat(cs, accessor)| && AllNonEmpty(accessor, cs)
    ensures |FullyWithin(accessor, cs, n)| == |cs|
  {
    if |cs| > 0 {
      AllWithin(accessor, cs[..|cs| - 1], n);
    }
  }

  predicate AllNonEmpty<T, C>(accessor: C -> seq<T>, cs: seq<C>) {
    forall i | 0 <= i < |cs| :: |accessor(cs[i])| > 0
  }

  /** `n` items were accepted, and the first `p.completed` contexts are among them. */
  ghost predicate Progress<S, T, C>(t: Target<S, T, C>, p: Pass<S, T>, items: seq<C>, n: nat) {
    var all := Flat(items, t.accessor);
    && n <= |all| && Accepted(p.calls) == all[..n]
    && (p.error.None? ==> n == |all|)
    && p.completed <= |items| && |Flat(items[..p.completed], t.accessor)| <= n
  }

  /** The pass broke off at a chunk that starts right behind the accepted items. */
  ghost predicate BrokeOff<S, T, C>(t: Target<S, T, C>, p: Pass<S, T>, items: seq<C>, size: nat, n: nat) {
    && p.completed < |items|
    && |p.calls| > 0 && !p.calls[|p.calls| - 1].accepted
    && Slice(Flat(items, t.accessor), n, p.calls[|p.calls| - 1].batch)
    && |p.calls[|p.calls| - 1].batch| <= size
    && (AllNonEmpty(t.accessor, items) ==> n < |Flat(items[..p.completed + 1], t.accessor)|)
  }

  ghost predicate Slice<T>(all: seq<T>, n: nat, batch: seq<T>) {
    n + |batch| <= |all| && batch == all[n..n + |batch|]
  }

  lemma PassProgress<S, T, C>(t: Target<S, T, C>, s: S, items: seq<C>, cfg: Config<T, C>, chunks: seq<Chunk<T, C>>)
    requires cfg.accessor == t.accessor && Faithful(cfg, chunks, items)
    ensures var p := RunChunks(t, s, chunks);
            Progress(t, p, items, |Accepted(p.calls)|)
  {
    var p := RunChunks(t, s, chunks);
    var k := Good(p);
    RunShape(t, s, chunks);
    RunCounts(t, s, chunks);
    assert Boundary(cfg, chunks, items, k);
    FullyWithinBounds(t.accessor, items, |Sent(chunks[..k])|);
    if p.error.None? {
      assert chunks[..k] == chunks;
    }
  }

  lemma NextChunk<T, C>(cfg: Config<T, C>, chunks: seq<Chunk<T, C>>, items: seq<C>, k: nat)
    requires Faithful(cfg, chunks, items) && k < |chunks|
    ensures |Sent(chunks[..k])| < |Flat(items, cfg.accessor)|
    ensures Slice(Flat(items, cfg.accessor), |Sent(chunks[..k])|, chunks[k].batch) && cfg.Fits(|chunks[k].batch|)
  {
    assert Useful(cfg, chunks, items, k);
    assert Boundary(cfg, chunks, items, k + 1);
    assert chunks[..k + 1] == chunks[..k] + [chunks[k]];
    SentSnoc(chunks[..k], chunks[k]);
    assert Fair(cfg, chunks[k].batch);
  }

  lemma PassBrokeOff<S, T, C>(t: Target<S, T, C>, s: S, items: seq<C>, cfg: Config<T, C>, chunks: seq<Chunk<T, C>>,
      size: nat)
    requires cfg.accessor == t.accessor && Faithful(cfg, chunks, items) && cfg.max == Some(size)
    requires RunChunks(t, s, chunks).error.Some?
    ensures var p := RunChunks(t, s, chunks);
            BrokeOff(t, p, items, size, |Accepted(p.calls)|)
  {
    var p := RunChunks(t, s, chunks);
    var k := Good(p);
    RunShape(t, s, chunks);
    RunCounts(t, s, chunks);
    NextChunk(cfg, chunks, items, k);
    assert Boundary(cfg, chunks, items, k);
    FullyWithinBounds(t.accessor, items, |Sent(chunks[..k])|);
    if AllNonEmpty(t.accessor, items) {
      FullyWithinExact(t.accessor, items, |Sent(chunks[..k])|);
    }
  }

  lemma AttemptFacts<S, T, C>(t: Target<S, T, C>, s: S, items: seq<C>, size: nat)
    requires size > 0
    ensures var p := Attempt(t, s, items, size);
            && Progress(t, p, items, |Accepted(p.calls)|)
            && (p.error.Some? ==> BrokeOff(t, p, items, size, |Accepted(p.calls)|))
  {
    var cfg := t.Config(size);
    var chunks := Chunks(cfg, items);
    ChunksAreFaithful(cfg, items);
    PassProgress(t, s, items, cfg, chunks);
    if RunChunks(t, s, chunks).error.Some? {
      PassBrokeOff(t, s, items, cfg, chunks, size);
    }
  }

  // ---------- the whole call ----------

  /** The ways `handle` ends: without items, or in one of three ways after a pass. */
  lemma HandleCases<S, T, C>(t: Target<S, T, C>, s: S, items: seq<C>, size: int)
    ensures |Flat(items, t.accessor)| == 0 ==>
              HandleAt(t, s, items, size) == Handled(s, BatchResult(items, [], None), [], 0)
    ensures |Flat(items, t.accessor)| > 0 ==>
            var p := Attempt(t, s, items, size);
            var h := HandleAt(t, s, items, size);
            && (p.completed < |items| || p.error.None?)
            && (p.error.None? ==> h == Handled(p.state, BatchResult(items, [], None), p.calls, 1))
            && (p.error.Some? && t.MayRetry(items) && size > 1 ==>
                  var r := HandleAt(t, p.state, items[p.completed..], size / 2);
                  h == Handled(r.state, BatchResult(items[..p.completed] + r.result.successful, r.result.failed,
                      r.result.error),
                               p.calls + r.calls, 1 + r.passes))
            && (p.error.Some? && !(t.MayRetry(items) && size > 1) ==>
                  && h.state == p.state && h.calls == p.calls && h.passes == 1
                  && h.result.successful == items[..p.completed] && h.result.failed == items[p.completed..]
                  && h.result.error.Some? && h.result.error.value.error == p.error.value)
  {
    if size > 0 {
      AttemptFacts(t, s, items, size);
    }
  }

  lemma Reassemble<C>(items: seq<C>, m: nat, good: seq<C>, bad: seq<C>)
    requires m <= |items| && good + bad == items[m..]
    ensures (items[..m] + good) + bad == items
  {
  }

  /** `successful ++ failed` is the input in order, and there is an error iff something failed. */
  lemma {:induction false} HandledPartition<S, T, C>(t: Target<S, T, C>, s: S, items: seq<C>, size: int)
    ensures var r := HandleAt(t, s, items, size).result;
            r.successful + r.failed == items && (r.error.Some? <==> r.failed != [])
    decreases if size > 0 then size else 0
  {
    hide HandleAt, Attempt;
    HandleCases(t, s, items, size);
    if |Flat(items, t.accessor)| > 0 {
      var p := Attempt(t, s, items, size);
      var m := p.completed;
      if p.error.Some? && t.MayRetry(items) && size > 1 {
        HandledPartition(t, p.state, items[m..], size / 2);
        var r := HandleAt(t, p.state, items[m..], size / 2).result;
        Reassemble(items, m, r.successful, r.failed);
      } else if p.error.Some? {
        Reassemble(items, m, [], items[m..]);
        assert items[..m] + [] == items[..m];
      }
    }
  }

  lemma AttemptSound<S, T, C>(t: Target<S, T, C>, s: S, items: seq<C>, size: int)
    requires |Flat(items, t.accessor)| > 0
    ensures var p := Attempt(t, s, items, size);
            && p.completed <= |items|
            && multiset(Flat(items[..p.completed], t.accessor)) <= multiset(Accepted(p.calls))
            && (p.error.None? ==> Accepted(p.calls) == Flat(items, t.accessor))
  {
    var p := Attempt(t, s, items, size);
    if size > 0 {
      AttemptFacts(t, s, items, size);
      var all, n := Flat(items, t.accessor), |Accepted(p.calls)|;
      var done := Flat(items[..p.completed], t.accessor);
      FlatPrefix(items, p.completed, t.accessor);
      PrefixMultiset(done, all[..n]);
      assert all[..|all|] == all;
    }
  }

  lemma PrefixMultiset<T>(a: seq<T>, b: seq<T>)
    requires a <= b
    ensures multiset(a) <= multiset(b)
  {
    assert b == a + b[|a|..];
  }

  /** For any sink and any contexts, with or without items: all items of the contexts reported
      successful were in accepted chunks. */
  lemma {:induction false} HandledSound<S, T, C>(t: Target<S, T, C>, s: S, items: seq<C>, size: int)
    ensures var h := HandleAt(t, s, items, size);
            multiset(Flat(h.result.successful, t.accessor)) <= multiset(Accepted(h.calls))
    decreases if size > 0 then size else 0
  {
    hide HandleAt, Attempt;
    HandleCases(t, s, items, size);
    if |Flat(items, t.accessor)| > 0 {
      AttemptSound(t, s, items, size);
      var p := Attempt(t, s, items, size);
      var m := p.completed;
      if p.error.Some? && t.MayRetry(items) && size > 1 {
        var r := HandleAt(t, p.state, items[m..], size / 2);
        HandledSound(t, p.state, items[m..], size / 2);
        FlatAppend(items[..m], r.result.successful, t.accessor);
        AcceptedAppend(p.calls, r.calls);
      }
    }
  }

  /** Every call sends items of the given contexts and of nobody else. */
  ghost predicate Within<T>(calls: seq<Call<T>>, all: seq<T>) {
    forall i, j | 0 <= i < |calls| && 0 <= j < |calls[i].batch| :: calls[i].batch[j] in all
  }

  lemma WithinSent<S, T, C>(t: Target<S, T, C>, p: Pass<S, T>, cfg: Config<T, C>, chunks: seq<Chunk<T, C>>,
      items: seq<C>)
    requires Shape(t, p, chunks) && Faithful(cfg, chunks, items)
    ensures Within(p.calls, Flat(items, cfg.accessor))
  {
    var all := Flat(items, cfg.accessor);
    forall i, j | 0 <= i < |p.calls| && 0 <= j < |p.calls[i].batch| ensures p.calls[i].batch[j] in all {
      NextChunk(cfg, chunks, items, i);
      assert p.calls[i].batch[j] == all[|Sent(chunks[..i])| + j];
    }
  }

  lemma WithinAttempt<S, T, C>(t: Target<S, T, C>, s: S, items: seq<C>, size: int)
    ensures Within(Attempt(t, s, items, size).calls, Flat(items, t.accessor))
  {
    if size > 0 {
      var cfg := t.Config(size);
      var chunks := Chunks(cfg, items);
      ChunksAreFaithful(cfg, items);
      RunShape(t, s, chunks);
      WithinSent(t, RunChunks(t, s, chunks), cfg, chunks, items);
    }
  }

  lemma WithinAppend<T>(a: seq<Call<T>>, b: seq<Call<T>>, all: seq<T>, part: seq<T>)
    requires Within(a, all) && Within(b, part) && forall x | x in part :: x in all
    ensures Within(a + b, all)
  {
  }

  lemma {:induction false} HandledWithin<S, T, C>(t: Target<S, T, C>, s: S, items: seq<C>, size: int)
    ensures Within(HandleAt(t, s, items, size).calls, Flat(items, t.accessor))
    decreases if size > 0 then size else 0
  {
    hide HandleAt, Attempt;
    HandleCases(t, s, items, size);
    if |Flat(items, t.accessor)| > 0 {
      WithinAttempt(t, s, items, size);
      var p := Attempt(t, s, items, size);
      if p.error.Some? && t.MayRetry(items) && size > 1 {
        var m := p.completed;
        HandledWithin(t, p.state, items[m..], size / 2);
        assert items == items[..m] + items[m..];
        FlatAppend(items[..m], items[m..], t.accessor);
        WithinAppend(p.calls, HandleAt(t, p.state, items[m..], size / 2).calls, Flat(items, t.accessor),
            Flat(items[m..], t.accessor));
      }
    }
  }

  /** The three facts above for a call with the source's own parameters. */
  lemma SpecFacts<S, T, C>(t: Target<S, T, C>, s: S, items: seq<C>, size: Option<int>)
    ensures var h := HandleSpec(t, s, items, size);
            && h.result.successful + h.result.failed == items
            && (h.result.error.Some? <==> h.result.failed != [])
            && multiset(Flat(h.result.successful, t.accessor)) <= multiset(Accepted(h.calls))
            && Within(h.calls, Flat(items, t.accessor))
  {
    var b := EffectiveSize(size, t.maxBatchSize, |Flat(items, t.accessor)|);
    HandledPartition(t, s, items, b);
    HandledSound(t, s, items, b);
    HandledWithin(t, s, items, b);
  }

  /** When every context has exactly one item, the items accepted are exactly those of the
      successful contexts, once each and in order. */
  lemma {:induction false} OneItemLog<S, T, C>(t: Target<S, T, C>, s: S, items: seq<C>, size: int)
    requires forall i | 0 <= i < |items| :: |t.accessor(items[i])| == 1
    ensures var h := HandleAt(t, s, items, size);
            Accepted(h.calls) == Flat(h.result.successful, t.accessor)
    decreases if size > 0 then size else 0
  {
    if |Flat(items, t.accessor)| > 0 && size > 0 {
      AttemptFacts(t, s, items, size);
      var p := Attempt(t, s, items, size);
      var all, n := Flat(items, t.accessor), |Accepted(p.calls)|;
      var m := p.completed;
      FlatPrefix(items, m, t.accessor);
      if p.error.Some? {
        assert items[..m + 1] == items[..m] + [items[m]];
        FlatSnoc(items[..m], items[m], t.accessor);
        assert all[..n] == Flat(items[..m], t.accessor);
        if t.MayRetry(items) && size > 1 {
          var r := HandleAt(t, p.state, items[m..], size / 2);
          OneItemLog(t, p.state, items[m..], size / 2);
          FlatAppend(items[..m], r.result.successful, t.accessor);
          AcceptedAppend(p.calls, r.calls);
        }
      }
    }
  }

  // ---------- isolating the culprit ----------

  ghost predicate Poisoned<T(!new)>(poison: T -> bool, items: seq<T>) {
    exists x :: x in items && poison(x)
  }

  /** The sink rejects a chunk exactly when a poison item is in it. */
  ghost predicate RejectsPoison<S(!new), T(!new), C(!new)>(t: Target<S, T, C>, poison: T -> bool) {
    forall s, b :: t.sink(s, b).error.Some? <==> Poisoned(poison, b)
  }

  lemma {:induction false} CleanPass<S(!new), T(!new), C(!new)>(t: Target<S, T, C>, s: S, chunks: seq<Chunk<T, C>>,
      poison: T -> bool)
    requires RejectsPoison(t, poison)
    ensures var p := RunChunks(t, s, chunks);
            && !Poisoned(poison, Accepted(p.calls))
            && (p.error.Some? ==> |p.calls| > 0 && Poisoned(poison, p.calls[|p.calls| - 1].batch))
  {
    if |chunks| > 0 {
      var init, c := chunks[..|chunks| - 1], chunks[|chunks| - 1];
      CleanPass(t, s, init, poison);
      assert chunks == init + [c];
      RunSnoc(t, s, init, c);
      hide RunChunks, Accepted, Poisoned;
      var q := RunChunks(t, s, init);
      AcceptedSnoc(q.calls, Call(c.batch, t.sink(q.state, c.batch).error.None?));
      PoisonAppend(poison, Accepted(q.calls), c.batch);
    } else {
      NoPoison(poison);
    }
  }

  lemma NoPoison<T(!new)>(poison: T -> bool)
    ensures !Poisoned(poison, Accepted([]))
  {
  }

  lemma {:induction false} PoisonAppend<T(!new)>(poison: T -> bool, a: seq<T>, b: seq<T>)
    ensures Poisoned(poison, a + b) <==> Poisoned(poison, a) || Poisoned(poison, b)
  {
  }

  lemma PoisonBehind<T(!new), C(!new)>(accessor: C -> seq<T>, items: seq<C>, m: nat, sent: seq<T>, poison: T -> bool)
    requires m <= |items| && |Flat(items[..m], accessor)| <= |sent|
    requires sent <= Flat(items, accessor) && !Poisoned(poison, sent)
    ensures !Poisoned(poison, Flat(items[..m], accessor))
    ensures Poisoned(poison, Flat(items, accessor)) <==> Poisoned(poison, Flat(items[m..], accessor))
  {
    var all, done := Flat(items, accessor), Flat(items[..m], accessor);
    FlatPrefix(items, m, accessor);
    assert sent == done + all[|done|..|sent|];
    PoisonAppend(poison, done, all[|done|..|sent|]);
    assert items == items[..m] + items[m..];
    FlatAppend(items[..m], items[m..], accessor);
    PoisonAppend(poison, done, Flat(items[m..], accessor));
  }

  /** A pass over items with poison breaks off before the first context that carries any. */
  lemma PoisonedPass<S(!new), T(!new), C(!new)>(t: Target<S, T, C>, s: S, items: seq<C>, size: nat, poison: T -> bool)
    requires size > 0 && AllNonEmpty(t.accessor, items) && RejectsPoison(t, poison)
    ensures var p := Attempt(t, s, items, size);
            && p.completed <= |items|
            && !Poisoned(poison, Flat(items[..p.completed], t.accessor))
            && (p.error.Some? <==> Poisoned(poison, Flat(items, t.accessor)))
            && (p.error.Some? ==> p.completed < |items| && Poisoned(poison, Flat(items[p.completed..], t.accessor)))
            && (p.error.Some? && size == 1 ==> Poisoned(poison, t.accessor(items[p.completed])))
  {
    var p := Attempt(t, s, items, size);
    var chunks := Chunks(t.Config(size), items);
    assert p == RunChunks(t, s, chunks);
    AttemptFacts(t, s, items, size);
    CleanPass(t, s, chunks, poison);
    var all, n, m := Flat(items, t.accessor), |Accepted(p.calls)|, p.completed;
    PoisonBehind(t.accessor, items, m, Accepted(p.calls), poison);
    if p.error.Some? {
      var batch := p.calls[|p.calls| - 1].batch;
      RejectedIn(all, n, batch, poison);
      if size == 1 {
        CulpritIsHere(t, items, n, m, batch, poison);
      }
    } else {
      assert Accepted(p.calls) == all;
    }
  }

  /** Bisection finds the culprit: nothing fails without poison, and otherwise the first failed
      context is the first one that carries any. CompositeOutputSink.ts:69 relies on this. */
  lemma {:induction false} CulpritIsolated<S(!new), T(!new), C(!new)>(t: Target<S, T, C>, s: S, items: seq<C>,
      size: nat, poison: T -> bool)
    requires size > 0 && AllNonEmpty(t.accessor, items) && RejectsPoison(t, poison)
    requires t.consistency.Atomic? || t.consistency.AtomicPerPartition?
    ensures var r := HandleAt(t, s, items, size).result;
            && !Poisoned(poison, Flat(r.successful, t.accessor))
            && (r.failed == [] <==> !Poisoned(poison, Flat(items, t.accessor)))
            && (r.failed != [] ==> Poisoned(poison, t.accessor(r.failed[0])))
    decreases size
  {
    hide HandleAt, Attempt;
    HandleCases(t, s, items, size);
    if |Flat(items, t.accessor)| > 0 {
      PoisonedPass(t, s, items, size, poison);
      var p := Attempt(t, s, items, size);
      var m := p.completed;
      if p.error.Some? && size > 1 {
        var r := HandleAt(t, p.state, items[m..], size / 2).result;
        CulpritIsolated(t, p.state, items[m..], size / 2, poison);
        FlatAppend(items[..m], r.successful, t.accessor);
        PoisonAppend(poison, Flat(items[..m], t.accessor), Flat(r.successful, t.accessor));
      }
    }
  }

  lemma RejectedIn<T(!new)>(all: seq<T>, n: nat, batch: seq<T>, poison: T -> bool)
    requires Slice(all, n, batch) && Poisoned(poison, batch)
    ensures Poisoned(poison, all)
  {
  }

  /** With single-item chunks the rejected item belongs to the first context that is not through. */
  lemma CulpritIsHere<S(!new), T(!new), C(!new)>(t: Target<S, T, C>, items: seq<C>, n: nat, m: nat, batch: seq<T>,
      poison: T -> bool)
    requires m < |items| && |Flat(items[..m], t.accessor)| <= n < |Flat(items[..m + 1], t.accessor)|
    requires |batch| <= 1 && Poisoned(poison, batch) && Slice(Flat(items, t.accessor), n, batch)
    ensures Poisoned(poison, t.accessor(items[m]))
  {
    var x :| x in batch && poison(x);
    FlatAt(t.accessor, items, m, n);
    assert x == batch[0] == Flat(items, t.accessor)[n];
  }

  lemma FlatAt<T, C>(accessor: C -> seq<T>, items: seq<C>, m: nat, n: nat)
    requires m < |items| && |Flat(items[..m], accessor)| <= n < |Flat(items[..m + 1], accessor)|
    ensures n < |Flat(items, accessor)| && Flat(items, accessor)[n] in accessor(items[m])
  {
    assert items[..m + 1] == items[..m] + [items[m]];
    FlatSnoc(items[..m], items[m], accessor);
    FlatPrefix(items, m + 1, accessor);
    assert Flat(items, accessor)[n] == accessor(items[m])[n - |Flat(items[..m], accessor)|];
  }

  // ---------- how deep the bisection goes ----------

  function Log2(n: nat): nat
    requires n > 0
  {
    if n == 1 then 0 else 1 + Log2(n / 2)
  }

  lemma {:induction false} DepthBound<S, T, C>(t: Target<S, T, C>, s: S, items: seq<C>, size: nat)
    requires size > 0
    ensures HandleAt(t, s, items, size).passes <= Log2(size) + 1
    decreases size
  {
    var p := Attempt(t, s, items, size);
    if |Flat(items, t.accessor)| > 0 && p.error.Some? && size > 1 {
      DepthBound(t, p.state, Drop(items, p.completed), size / 2);
    }
  }
}
