/** How delivery keeps to what the sink says about itself (`guarantees`):
    packages/core/src/internal/batching/BatchHandler.ts:31-63 and 66-72. */
module SinkLimits {
  import opened Wrappers
  import opened Sequences
  import opened Model
  import opened Batching
  import opened Chunking
  import opened ChunkFilling
  import opened BatchHandling

  /** No call carries more than `limit` items. */
  ghost predicate NoneLarger<T>(calls: seq<Call<T>>, limit: int) {
    forall i | 0 <= i < |calls| :: |calls[i].batch| <= limit
  }

  lemma PassBounded<S, T, C>(t: Target<S, T, C>, s: S, items: seq<C>, size: int)
    ensures NoneLarger(Attempt(t, s, items, size).calls, size)
  {
    if size > 0 {
      var cfg := t.Config(size);
      ChunksAreFaithful(cfg, items);
      RunShape(t, s, Chunks(cfg, items));
      var p := RunChunks(t, s, Chunks(cfg, items));
      forall i | 0 <= i < |p.calls| ensures |p.calls[i].batch| <= size {
        assert Fair(cfg, Chunks(cfg, items)[i].batch);
      }
    }
  }

  lemma {:induction false} HandledBounded<S, T, C>(t: Target<S, T, C>, s: S, items: seq<C>, size: int)
    ensures NoneLarger(HandleAt(t, s, items, size).calls, size)
    decreases if size > 0 then size else 0
  {
    hide HandleAt, Attempt;
    HandleCases(t, s, items, size);
    if |Flat(items, t.accessor)| > 0 {
      PassBounded(t, s, items, size);
      var p := Attempt(t, s, items, size);
      if p.error.Some? && t.MayRetry(items) && size > 1 {
        HandledBounded(t, p.state, items[p.completed..], size / 2);
      }
    }
  }

  /** If everything may share a chunk and fits into one, the sink is called with everything at once, and
      not again if it accepts. */
  lemma AllAtOnce<S, T, C>(t: Target<S, T, C>, s: S, items: seq<C>, size: int)
    requires 0 < |Flat(items, t.accessor)| <= size && Homogeneous(Flat(items, t.accessor), t.grouping)
    ensures var all := Flat(items, t.accessor);
            var h, r := HandleAt(t, s, items, size), t.sink(s, all);
            && |h.calls| > 0 && h.calls[0] == Call(all, r.error.None?)
            && (r.error.None? ==> |h.calls| == 1 && h.state == r.next && h.result == BatchResult(items, [], None))
  {
    OnePassAtOnce(t, s, items, size);
    hide HandleAt, Attempt, Flat;
    HandleCases(t, s, items, size);
  }

  lemma OnePassAtOnce<S, T, C>(t: Target<S, T, C>, s: S, items: seq<C>, size: int)
    requires 0 < |Flat(items, t.accessor)| <= size && Homogeneous(Flat(items, t.accessor), t.grouping)
    ensures var all := Flat(items, t.accessor);
            var p, r := Attempt(t, s, items, size), t.sink(s, all);
            p.calls == [Call(all, r.error.None?)] && p.error == r.error && p.state == r.next
  {
    var chunks := Chunks(t.Config(size), items);
    OneChunk(t.Config(size), items);
    hide Chunks, Flat;
    assert chunks == [] + [chunks[0]];
    RunSnoc(t, s, [], chunks[0]);
  }

  /** Only the last of the calls may have been refused. */
  ghost predicate OnlyLastRefused<T>(calls: seq<Call<T>>) {
    forall i | 0 <= i < |calls| - 1 :: calls[i].accepted
  }

  lemma OnePass<S, T, C>(t: Target<S, T, C>, s: S, items: seq<C>, size: int)
    requires !t.MayRetry(items)
    ensures OnlyLastRefused(HandleAt(t, s, items, size).calls)
  {
    hide HandleAt;
    HandleCases(t, s, items, size);
    if |Flat(items, t.accessor)| > 0 && size > 0 {
      RunShape(t, s, Chunks(t.Config(size), items));
    }
  }

  predicate Replies<S, T, C>(t: Target<S, T, C>, s: S, batch: seq<T>, e: Error) {
    t.sink(s, batch).error == Some(e)
  }

  /** The sink itself has answered the last call with this error. */
  ghost predicate Answered<S(!new), T, C>(t: Target<S, T, C>, calls: seq<Call<T>>, e: Error) {
    calls != [] && exists s: S :: Replies(t, s, Last(calls).batch, e)
  }

  lemma {:induction false} RunAnswered<S(!new), T, C>(t: Target<S, T, C>, s: S, chunks: seq<Chunk<T, C>>)
    ensures var p := RunChunks(t, s, chunks); p.error.Some? ==> Answered(t, p.calls, p.error.value)
  {
    if |chunks| > 0 {
      var q := RunChunks(t, s, chunks[..|chunks| - 1]);
      RunAnswered(t, s, chunks[..|chunks| - 1]);
      if q.error.None? && RunChunks(t, s, chunks).error.Some? {
        var p := RunChunks(t, s, chunks);
        assert Last(p.calls).batch == chunks[|chunks| - 1].batch;
        assert Replies(t, q.state, Last(p.calls).batch, p.error.value);
      }
    }
  }

  /** The error that is reported is the sink's answer to the last call, or says that the size is invalid; it
      may be retried exactly if it is a conflict, the sink is atomic, or there is one context only. */
  ghost predicate ErrorOk<S(!new), T, C>(t: Target<S, T, C>, items: seq<C>, h: Handled<S, T, C>) {
    h.result.error.Some? ==>
      var e := h.result.error.value;
      && (Answered(t, h.calls, e.error) || e.error.InvalidBatchSize?)
      && (e.retryable <==>
            || e.error.SequenceConflict? || t.consistency.Atomic? || t.consistency.AtomicPerPartition?
            || |items| == 1)
  }

  lemma LaterAnswered<S(!new), T, C>(t: Target<S, T, C>, a: seq<Call<T>>, b: seq<Call<T>>, e: Error)
    requires Answered(t, b, e)
    ensures Answered(t, a + b, e)
  {
    var s :| Replies(t, s, Last(b).batch, e);
    assert Last(a + b) == Last(b);
  }

  lemma {:induction false} HandledErrorOk<S(!new), T, C>(t: Target<S, T, C>, s: S, items: seq<C>, size: int)
    ensures ErrorOk(t, items, HandleAt(t, s, items, size))
    decreases if size > 0 then size else 0
  {
    hide Attempt, Answered;
    HandleCases(t, s, items, size);
    if |Flat(items, t.accessor)| > 0 {
      var p := Attempt(t, s, items, size);
      PassAnswered(t, s, items, size);
      if p.error.Some? && t.MayRetry(items) && size > 1 {
        var rest := items[p.completed..];
        HandledErrorOk(t, p.state, rest, size / 2);
        var r := HandleAt(t, p.state, rest, size / 2);
        if r.result.error.Some? && Answered(t, r.calls, r.result.error.value.error) {
          LaterAnswered(t, p.calls, r.calls, r.result.error.value.error);
        }
      }
    }
  }

  lemma PassAnswered<S(!new), T, C>(t: Target<S, T, C>, s: S, items: seq<C>, size: int)
    ensures var p := Attempt(t, s, items, size);
            p.error.Some? ==> Answered(t, p.calls, p.error.value) || p.error.value == InvalidBatchSize(size)
  {
    if size > 0 {
      RunAnswered(t, s, Chunks(t.Config(size), items));
    }
  }

  // ---------- the record of the calls ----------

  /** The sink's state after the calls. */
  function Fed<S, T>(sink: (S, seq<T>) -> SinkReply<S>, s: S, calls: seq<Call<T>>): S {
    if |calls| == 0 then s else sink(Fed(sink, s, calls[..|calls| - 1]), calls[|calls| - 1].batch).next
  }

  /** The record says what the sink has answered. */
  ghost predicate Genuine<S, T>(sink: (S, seq<T>) -> SinkReply<S>, s: S, calls: seq<Call<T>>) {
    forall i | 0 <= i < |calls| :: calls[i].accepted <==> sink(Fed(sink, s, calls[..i]), calls[i].batch).error.None?
  }

  lemma FedSnoc<S, T>(sink: (S, seq<T>) -> SinkReply<S>, s: S, calls: seq<Call<T>>, batch: seq<T>)
    requires Genuine(sink, s, calls)
    ensures var r := sink(Fed(sink, s, calls), batch);
            var more := calls + [Call(batch, r.error.None?)];
            Fed(sink, s, more) == r.next && Genuine(sink, s, more)
  {
    var r := sink(Fed(sink, s, calls), batch);
    var more := calls + [Call(batch, r.error.None?)];
    assert more[..|calls|] == calls;
    forall i | 0 <= i < |more|
      ensures more[i].accepted <==> sink(Fed(sink, s, more[..i]), more[i].batch).error.None?
    {
      if i < |calls| {
        assert more[..i] == calls[..i];
      }
    }
  }

  lemma {:induction false} FedAppend<S, T>(sink: (S, seq<T>) -> SinkReply<S>, s: S, a: seq<Call<T>>, b: seq<Call<T>>)
    requires Genuine(sink, s, a) && Genuine(sink, Fed(sink, s, a), b)
    ensures Fed(sink, s, a + b) == Fed(sink, Fed(sink, s, a), b) && Genuine(sink, s, a + b)
  {
    if b == [] {
      assert a + b == a;
    } else {
      var init, last := b[..|b| - 1], b[|b| - 1];
      forall i | 0 <= i < |init| ensures init[..i] == b[..i] {
      }
      FedAppend(sink, s, a, init);
      assert a + b == (a + init) + [last];
      hide Genuine;
      GenuineLast(sink, Fed(sink, s, a), b);
      FedSnoc(sink, s, a + init, last.batch);
    }
  }

  lemma GenuineLast<S, T>(sink: (S, seq<T>) -> SinkReply<S>, s: S, calls: seq<Call<T>>)
    requires Genuine(sink, s, calls) && |calls| > 0
    ensures var n := |calls| - 1;
            calls[n] == Call(calls[n].batch, sink(Fed(sink, s, calls[..n]), calls[n].batch).error.None?)
  {
  }

  lemma {:induction false} RunGenuine<S, T, C>(t: Target<S, T, C>, s: S, chunks: seq<Chunk<T, C>>)
    ensures var p := RunChunks(t, s, chunks); p.state == Fed(t.sink, s, p.calls) && Genuine(t.sink, s, p.calls)
  {
    if |chunks| > 0 {
      hide Genuine, Fed;
      RunGenuine(t, s, chunks[..|chunks| - 1]);
      FedSnoc(t.sink, s, RunChunks(t, s, chunks[..|chunks| - 1]).calls, chunks[|chunks| - 1].batch);
    } else {
      NothingFed(t.sink, s);
    }
  }

  lemma NothingFed<S, T>(sink: (S, seq<T>) -> SinkReply<S>, s: S)
    ensures Fed(sink, s, []) == s && Genuine(sink, s, [])
  {
  }

  /** The calls on record are those the sink has got, in that order, with its own answers. */
  lemma {:induction false} HandledGenuine<S, T, C>(t: Target<S, T, C>, s: S, items: seq<C>, size: int)
    ensures var h := HandleAt(t, s, items, size); h.state == Fed(t.sink, s, h.calls) && Genuine(t.sink, s, h.calls)
    decreases if size > 0 then size else 0
  {
    hide Genuine, Fed, RunChunks, HandleAt;
    HandleCases(t, s, items, size);
    NothingFed(t.sink, s);
    if size > 0 {
      RunGenuine(t, s, Chunks(t.Config(size), items));
    }
    if |Flat(items, t.accessor)| > 0 {
      var p := Attempt(t, s, items, size);
      if p.error.Some? && t.MayRetry(items) && size > 1 {
        var rest := items[p.completed..];
        HandledGenuine(t, p.state, rest, size / 2);
        FedAppend(t.sink, s, p.calls, HandleAt(t, p.state, rest, size / 2).calls);
      }
    }
  }

  /** With a valid size there are calls exactly if there are items, and an error comes from a refused call. */
  lemma {:induction false} HandledCalls<S, T, C>(t: Target<S, T, C>, s: S, items: seq<C>, size: int)
    requires size > 0
    ensures var h := HandleAt(t, s, items, size);
            && (h.calls != [] <==> Flat(items, t.accessor) != [])
            && (h.result.error.Some? ==> h.calls != [] && !Last(h.calls).accepted)
    decreases size
  {
    hide HandleAt, Attempt, Flat;
    HandleCases(t, s, items, size);
    if |Flat(items, t.accessor)| > 0 {
      PassCalls(t, s, items, size);
      var p := Attempt(t, s, items, size);
      if p.error.Some? && t.MayRetry(items) && size > 1 {
        HandledCalls(t, p.state, items[p.completed..], size / 2);
        var r := HandleAt(t, p.state, items[p.completed..], size / 2);
        if r.calls != [] {
          assert Last(p.calls + r.calls) == Last(r.calls);
        }
      }
    }
  }

  lemma PassCalls<S, T, C>(t: Target<S, T, C>, s: S, items: seq<C>, size: nat)
    requires size > 0 && Flat(items, t.accessor) != []
    ensures var p := Attempt(t, s, items, size);
            p.calls != [] && (p.error.Some? ==> !Last(p.calls).accepted)
  {
    var cfg := t.Config(size);
    var chunks := Chunks(cfg, items);
    ChunksAreFaithful(cfg, items);
    SomeChunk(cfg, chunks, items);
    RunShape(t, s, chunks);
    hide Chunks, RunChunks;
  }

  // ---------- all together ----------

  /** `n` of `given`: absent and zero mean no limit. */
  predicate Limits(given: Option<int>, n: int) {
    given == Some(n) && n != 0
  }

  predicate Unlimited(given: Option<int>) {
    given.None? || given.value == 0
  }

  /** Delivery keeps to the sink's guarantees. No call is larger than the size that is asked for or, if none
      is, than the sink's maximum. Without either, or if everything fits, items of one group go out in one
      call. A sink that is not atomic gets one pass, unless there is one context only. What error is reported
      and whether it may be retried is as `ErrorOk` says. */
  lemma KeepsToGuarantees<S(!new), T, C>(t: Target<S, T, C>, s: S, items: seq<C>, size: Option<int>)
    ensures var h, all := HandleSpec(t, s, items, size), Flat(items, t.accessor);
            && (forall n | Limits(size, n) :: NoneLarger(h.calls, n))
            && (forall n | Unlimited(size) && Limits(t.maxBatchSize, n) :: NoneLarger(h.calls, n))
            && (all != [] && Homogeneous(all, t.grouping)
                && (forall n | Limits(size, n) :: |all| <= n)
                && (forall n | Unlimited(size) && Limits(t.maxBatchSize, n) :: |all| <= n) ==>
                  && |h.calls| > 0 && h.calls[0] == Call(all, t.sink(s, all).error.None?)
                  && (t.sink(s, all).error.None? ==> |h.calls| == 1))
            && (t.consistency.Unordered? && |items| != 1 ==> OnlyLastRefused(h.calls))
            && ErrorOk(t, items, h)
  {
    hide HandleAt, NoneLarger, OnlyLastRefused, ErrorOk, Homogeneous, Flat;
    var b := EffectiveSize(size, t.maxBatchSize, |Flat(items, t.accessor)|);
    HandledBounded(t, s, items, b);
    HandledErrorOk(t, s, items, b);
    if t.consistency.Unordered? && |items| != 1 {
      OnePass(t, s, items, b);
    }
    assert Limits(size, b) || (Unlimited(size) && Limits(t.maxBatchSize, b)) || b == |Flat(items, t.accessor)|;
    if 0 < |Flat(items, t.accessor)| <= b && Homogeneous(Flat(items, t.accessor), t.grouping) {
      AllAtOnce(t, s, items, b);
    }
  }
}
