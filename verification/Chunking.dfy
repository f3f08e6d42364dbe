/** What the chunks of `batch` promise: a faithful, size-bounded, homogeneous partition of all items. */
module Chunking {
  import opened Sequences
  import opened Batching

  function Sent<T, C>(chunks: seq<Chunk<T, C>>): seq<T> {
    if |chunks| == 0 then [] else Sent(chunks[..|chunks| - 1]) + chunks[|chunks| - 1].batch
  }

  function Completed<T, C>(chunks: seq<Chunk<T, C>>): seq<C> {
    if |chunks| == 0 then [] else Completed(chunks[..|chunks| - 1]) + chunks[|chunks| - 1].completed
  }

  /** The non-empty containers all of whose items are among the first `n` items. */
  function FullyWithin<T, C>(accessor: C -> seq<T>, cs: seq<C>, n: nat): seq<C> {
    if |cs| == 0 then []
    else
      var c := cs[|cs| - 1];
      FullyWithin(accessor, cs[..|cs| - 1], n) + if |accessor(c)| > 0 && |Flat(cs, accessor)| <= n then [c] else []
  }

  /** Where group `j` of container `i` starts in the list of all items. */
  function GroupStart<T, C>(cfg: Config<T, C>, cs: seq<C>, i: nat, j: nat): nat
    requires i < |cs| && j <= |cfg.GroupsOf(cs[i])|
  {
    |Flat(cs[..i], cfg.accessor)| + |Concat(cfg.GroupsOf(cs[i])[..j])|
  }

  /** Cutting the item list at `n` splits no group that would fit into one chunk. */
  ghost predicate CleanCut<T, C>(cfg: Config<T, C>, cs: seq<C>, n: nat) {
    forall i | 0 <= i < |cs| :: CleanIn(cfg, cs, i, n)
  }

  ghost predicate CleanIn<T, C>(cfg: Config<T, C>, cs: seq<C>, i: nat, n: nat)
    requires i < |cs|
  {
    forall j | 0 <= j < |cfg.GroupsOf(cs[i])| :: Inside(cfg, cs, i, j, n) ==> !cfg.Fits(|cfg.GroupsOf(cs[i])[j]|)
  }

  predicate Inside<T, C>(cfg: Config<T, C>, cs: seq<C>, i: nat, j: nat, n: nat)
    requires i < |cs| && j < |cfg.GroupsOf(cs[i])|
  {
    GroupStart(cfg, cs, i, j) < n < GroupStart(cfg, cs, i, j) + |cfg.GroupsOf(cs[i])[j]|
  }

  ghost predicate Fair<T, C>(cfg: Config<T, C>, batch: seq<T>) {
    cfg.Fits(|batch|) && Homogeneous(batch, cfg.grouping)
  }

  /** What holds after the first `k` chunks were yielded. */
  ghost predicate Boundary<T, C>(cfg: Config<T, C>, out: seq<Chunk<T, C>>, cs: seq<C>, k: nat)
    requires k <= |out|
  {
    && Sent(out[..k]) <= Flat(cs, cfg.accessor)
    && Completed(out[..k]) == FullyWithin(cfg.accessor, cs, |Sent(out[..k])|)
    && CleanCut(cfg, cs, |Sent(out[..k])|)
  }

  /** `chunks` cuts the items of `cs` as promised. */
  ghost predicate Faithful<T, C>(cfg: Config<T, C>, chunks: seq<Chunk<T, C>>, cs: seq<C>) {
    && Sent(chunks) == Flat(cs, cfg.accessor)
    && (forall k | 0 <= k <= |chunks| :: Boundary(cfg, chunks, cs, k))
    && (forall k | 0 <= k < |chunks| :: Fair(cfg, chunks[k].batch))
    && (forall k | 0 <= k < |chunks| :: Useful(cfg, chunks, cs, k))
  }

  /** When chunk `k` is sent there are items left: a chunk is empty only ahead of a non-empty one. */
  ghost predicate Useful<T, C>(cfg: Config<T, C>, out: seq<Chunk<T, C>>, cs: seq<C>, k: nat)
    requires k < |out|
  {
    |Sent(out[..k])| < |Flat(cs, cfg.accessor)|
  }

  // ---------- facts about the definitions ----------

  lemma SentSnoc<T, C>(chunks: seq<Chunk<T, C>>, c: Chunk<T, C>)
    ensures Sent(chunks + [c]) == Sent(chunks) + c.batch
    ensures Completed(chunks + [c]) == Completed(chunks) + c.completed
  {
  }

  lemma ConcatPrefix<T>(ss: seq<seq<T>>, i: nat, j: nat)
    requires i <= j <= |ss|
    ensures |Concat(ss[..i])| <= |Concat(ss[..j])|
  {
    assert ss[..j] == ss[..i] + ss[i..j];
    ConcatAppend(ss[..i], ss[i..j]);
  }

  lemma {:induction false} FullyWithinAll<T, C>(accessor: C -> seq<T>, cs: seq<C>, n: nat)
    requires n >= |Flat(cs, accessor)|
    ensures FullyWithin(accessor, cs, n) == FullyWithin(accessor, cs, |Flat(cs, accessor)|)
  {
    if |cs| > 0 {
      var init := cs[..|cs| - 1];
      FullyWithinAll(accessor, init, n);
      FullyWithinAll(accessor, init, |Flat(cs, accessor)|);
    }
  }

  lemma FullyWithinSnoc<T, C>(accessor: C -> seq<T>, cs: seq<C>, c: C, n: nat)
    ensures FullyWithin(accessor, cs + [c], n)
            == FullyWithin(accessor, cs, n)
               + if |accessor(c)| > 0 && |Flat(cs, accessor)| + |accessor(c)| <= n then [c] else []
  {
  }

  // ---------- the invariant of the loops ----------

  function Pending<T, C>(a: Acc<T, C>): seq<T> {
    Sent(a.out) + a.batch
  }

  ghost predicate Inv<T, C>(cfg: Config<T, C>, a: Acc<T, C>, cs: seq<C>) {
    && (forall k | 0 <= k <= |a.out| :: Boundary(cfg, a.out, cs, k))
    && (forall k | 0 <= k < |a.out| :: Fair(cfg, a.out[k].batch))
    && (forall k | 0 <= k < |a.out| :: Useful(cfg, a.out, cs, k))
    && Fair(cfg, a.batch)
    && Pending(a) <= Flat(cs, cfg.accessor)
    && Completed(a.out) + a.completed == FullyWithin(cfg.accessor, cs, |Pending(a)|)
    && (a.batch == [] ==> a.completed == [])
  }

  /** The containers before `c` are through and so are the first `done` items of `c`. */
  ghost predicate At<T, C>(cfg: Config<T, C>, a: Acc<T, C>, before: seq<C>, c: C, done: nat) {
    done <= |cfg.accessor(c)| && Pending(a) == Flat(before, cfg.accessor) + cfg.accessor(c)[..done]
  }

  lemma BoundaryKept<T, C>(cfg: Config<T, C>, a: Acc<T, C>, b: Acc<T, C>, cs: seq<C>)
    requires forall k | 0 <= k <= |a.out| :: Boundary(cfg, a.out, cs, k)
    requires forall k | 0 <= k < |a.out| :: Useful(cfg, a.out, cs, k)
    requires |a.out| <= |b.out| && b.out[..|a.out|] == a.out
    ensures forall k | 0 <= k <= |a.out| :: Boundary(cfg, b.out, cs, k)
    ensures forall k | 0 <= k < |a.out| :: Useful(cfg, b.out, cs, k)
  {
    forall k | 0 <= k < |a.out| ensures Useful(cfg, b.out, cs, k) {
      assert Useful(cfg, a.out, cs, k);
      assert a.out[..k] == b.out[..k];
    }
    forall k | 0 <= k <= |a.out| ensures Boundary(cfg, b.out, cs, k) {
      assert Boundary(cfg, a.out, cs, k);
      assert a.out[..k] == b.out[..k];
    }
  }

  lemma FlushBoundary<T, C>(cfg: Config<T, C>, a: Acc<T, C>, cs: seq<C>, n: nat)
    requires Pending(a) <= Flat(cs, cfg.accessor) && n == |Pending(a)| && CleanCut(cfg, cs, n)
    requires Completed(a.out) + a.completed == FullyWithin(cfg.accessor, cs, n)
    ensures var b := Flush(a); Boundary(cfg, b.out, cs, |b.out|) && Pending(b) == Pending(a)
  {
    var b := Flush(a);
    SentSnoc(a.out, Chunk(a.batch, a.completed));
    assert b.out[..|b.out|] == b.out;
    assert |Sent(b.out[..|b.out|])| == n;
  }

  lemma FlushInv<T, C>(cfg: Config<T, C>, a: Acc<T, C>, cs: seq<C>, n: nat)
    requires Inv(cfg, a, cs) && n == |Pending(a)| && CleanCut(cfg, cs, n)
    requires a.batch != [] || n < |Flat(cs, cfg.accessor)|
    ensures Inv(cfg, Flush(a), cs) && Pending(Flush(a)) == Pending(a)
  {
    hide FullyWithin, CleanCut, Fair, Boundary, Useful, Sent, Completed, Flat;
    NothingIsFair(cfg);
    FlushUseful(cfg, a, cs, n);
    var b := Flush(a);
    FlushBoundary(cfg, a, cs, n);
    SentSnoc(a.out, Chunk(a.batch, a.completed));
    BoundaryKept(cfg, a, b, cs);
    forall k | 0 <= k < |b.out| ensures Fair(cfg, b.out[k].batch) {
      assert k < |a.out| ==> b.out[k] == a.out[k];
    }
  }

  lemma NothingIsFair<T, C>(cfg: Config<T, C>)
    ensures Fair(cfg, [])
  {
  }

  lemma FlushUseful<T, C>(cfg: Config<T, C>, a: Acc<T, C>, cs: seq<C>, n: nat)
    requires n == |Pending(a)| && Pending(a) <= Flat(cs, cfg.accessor)
        && (a.batch != [] || n < |Flat(cs, cfg.accessor)|)
    ensures Useful(cfg, Flush(a).out, cs, |a.out|) && Flush(a).out[..|a.out|] == a.out
  {
    assert Flush(a).out[..|a.out|] == a.out;
  }

  lemma PushCompleted<T, C>(accessor: C -> seq<T>, before: seq<C>, c: C, done: nat, more: nat)
    requires done < |accessor(c)| && done + more <= |accessor(c)|
    ensures var n := |Flat(before, accessor)| + done;
            FullyWithin(accessor, before + [c], n + more)
            == FullyWithin(accessor, before + [c], n) + if done + more == |accessor(c)| then [c] else []
  {
    var n := |Flat(before, accessor)| + done;
    FullyWithinSnoc(accessor, before, c, n);
    FullyWithinSnoc(accessor, before, c, n + more);
    FullyWithinAll(accessor, before, n);
    FullyWithinAll(accessor, before, n + more);
  }

  lemma PushAt<T, C>(cfg: Config<T, C>, a: Acc<T, C>, before: seq<C>, c: C, done: nat, xs: seq<T>)
    requires At(cfg, a, before, c, done)
    requires done + |xs| <= |cfg.accessor(c)| && xs == cfg.accessor(c)[done..][..|xs|]
    ensures var b := Push(a, c, xs, done + |xs| == |cfg.accessor(c)|);
            && At(cfg, b, before, c, done + |xs|)
            && Pending(b) == Pending(a) + xs && Pending(b) <= Flat(before + [c], cfg.accessor)
  {
    hide Flat, Sent;
    var items := cfg.accessor(c);
    TakeMore(items, done, xs);
    assert Pending(Push(a, c, xs, done + |xs| == |items|)) == Pending(a) + xs;
    FlatSnoc(before, c, cfg.accessor);
    PrefixInFront(Flat(before, cfg.accessor), items, done + |xs|);
    assert (Flat(before, cfg.accessor) + items[..done]) + xs == Flat(before, cfg.accessor) + (items[..done] + xs);
  }

  lemma TakeMore<T>(items: seq<T>, done: nat, xs: seq<T>)
    requires done + |xs| <= |items| && xs == items[done..][..|xs|]
    ensures items[..done + |xs|] == items[..done] + xs
  {
  }

  lemma PrefixInFront<T>(a: seq<T>, b: seq<T>, n: nat)
    requires n <= |b|
    ensures a + b[..n] <= a + b
  {
  }

  lemma PushInv<T, C>(cfg: Config<T, C>, a: Acc<T, C>, before: seq<C>, c: C, done: nat, xs: seq<T>)
    requires Inv(cfg, a, before + [c]) && At(cfg, a, before, c, done)
    requires done + |xs| <= |cfg.accessor(c)| && xs == cfg.accessor(c)[done..][..|xs|]
    requires done < |cfg.accessor(c)| && Fair(cfg, a.batch + xs)
    ensures var b := Push(a, c, xs, done + |xs| == |cfg.accessor(c)|);
            Inv(cfg, b, before + [c]) && At(cfg, b, before, c, done + |xs|)
  {
    hide FullyWithin, CleanCut, Boundary, Useful, Fair;
    var last := done + |xs| == |cfg.accessor(c)|;
    var b := Push(a, c, xs, last);
    PushAt(cfg, a, before, c, done, xs);
    PushCompleted(cfg.accessor, before, c, done, |xs|);
    BoundaryKept(cfg, a, b, before + [c]);
    assert Completed(b.out) + b.completed == (Completed(a.out) + a.completed) + if last then [c] else [];
  }

  lemma GroupEnd<T, C>(cfg: Config<T, C>, c: C, j: nat)
    requires j < |cfg.GroupsOf(c)|
    ensures |Concat(cfg.GroupsOf(c)[..j + 1])| == |Concat(cfg.GroupsOf(c)[..j])| + |cfg.GroupsOf(c)[j]|
    ensures |Concat(cfg.GroupsOf(c)[..j + 1])| <= |cfg.accessor(c)|
  {
    var gs := cfg.GroupsOf(c);
    assert gs[..j + 1] == gs[..j] + [gs[j]];
    ConcatSnoc(gs[..j], gs[j]);
    GroupFits(cfg, c, j);
  }

  /** Groups of earlier containers end before the last container starts. */
  lemma EarlierClean<T, C>(cfg: Config<T, C>, before: seq<C>, c: C, i: nat, n: nat)
    requires i < |before| && n >= |Flat(before, cfg.accessor)|
    ensures CleanIn(cfg, before + [c], i, n)
  {
    var cs := before + [c];
    assert cs[..i] == before[..i];
    assert before[..i + 1] == before[..i] + [before[i]];
    FlatSnoc(before[..i], before[i], cfg.accessor);
    FlatPrefix(before, i + 1, cfg.accessor);
    forall m | 0 <= m < |cfg.GroupsOf(cs[i])|
      ensures !Inside(cfg, cs, i, m, n)
    {
      GroupEnd(cfg, cs[i], m);
    }
  }

  /** A cut inside group `j` of the last container touches no other group. */
  lemma CutClean<T, C>(cfg: Config<T, C>, before: seq<C>, c: C, j: nat, part: nat, n: nat)
    requires j <= |cfg.GroupsOf(c)| && n == |Flat(before, cfg.accessor)| + |Concat(cfg.GroupsOf(c)[..j])| + part
    requires part > 0 ==> j < |cfg.GroupsOf(c)| && part <= |cfg.GroupsOf(c)[j]| && !cfg.Fits(|cfg.GroupsOf(c)[j]|)
    ensures CleanCut(cfg, before + [c], n)
  {
    var cs := before + [c];
    var gs := cfg.GroupsOf(c);
    forall i | 0 <= i < |before| ensures CleanIn(cfg, cs, i, n) {
      EarlierClean(cfg, before, c, i, n);
    }
    assert cs[..|before|] == before;
    forall m | 0 <= m < |gs| && m != j ensures !Inside(cfg, cs, |before|, m, n) {
      GroupEnd(cfg, c, m);
      if m < j {
        ConcatPrefix(gs, m + 1, j);
      } else {
        ConcatPrefix(gs, j + 1, m);
        GroupEnd(cfg, c, j);
      }
    }
    assert CleanIn(cfg, cs, |before|, n);
  }

  ghost predicate CleanRange<T, C>(cfg: Config<T, C>, cs: seq<C>, lo: nat, hi: nat) {
    forall n | lo <= n <= hi :: CleanCut(cfg, cs, n)
  }

  /** `a` may be continued with `group` without breaking the current chunk's homogeneity. */
  predicate Joins<T, C>(cfg: Config<T, C>, a: Acc<T, C>, group: seq<T>) {
    a.batch != [] && group != [] ==> cfg.grouping(Last(a.batch), group[0])
  }

  lemma Joined<T, C>(cfg: Config<T, C>, a: Acc<T, C>, group: seq<T>, n: nat)
    requires Homogeneous(a.batch, cfg.grouping) && Homogeneous(group, cfg.grouping) && Joins(cfg, a, group)
    requires n <= |group|
    ensures Homogeneous(a.batch + group[..n], cfg.grouping)
    ensures Homogeneous(group[n..], cfg.grouping)
  {
  }

  /** `group` is what is left of an oversized group of `c`, which lies between `lo` and `hi`. */
  ghost predicate SliceReady<T, C>(cfg: Config<T, C>, a: Acc<T, C>, before: seq<C>, c: C, group: seq<T>, done: nat,
      lo: nat, hi: nat) {
    && cfg.Valid() && cfg.max.Some? && cfg.Fits(|a.batch|)
    && done + |group| <= |cfg.accessor(c)| && group == cfg.accessor(c)[done..][..|group|]
    && Inv(cfg, a, before + [c]) && At(cfg, a, before, c, done)
    && lo <= |Pending(a)| && |Pending(a)| + |group| == hi && CleanRange(cfg, before + [c], lo, hi)
    && Homogeneous(group, cfg.grouping) && Joins(cfg, a, group)
  }

  function Slice1<T, C>(cfg: Config<T, C>, a: Acc<T, C>, c: C, group: seq<T>, done: nat, take: nat): Acc<T, C>
    requires take <= |group|
  {
    Flush(Push(a, c, group[..take], done + take == |cfg.accessor(c)|))
  }

  /** One round of the loop over an oversized group. */
  lemma SliceStep<T, C>(cfg: Config<T, C>, a: Acc<T, C>, before: seq<C>, c: C, group: seq<T>, done: nat, take: nat,
      lo: nat, hi: nat)
    requires SliceReady(cfg, a, before, c, group, done, lo, hi) && group != []
    requires take == Min(cfg.max.value - |a.batch|, |group|)
    ensures var b := Slice1(cfg, a, c, group, done, take);
            Inv(cfg, b, before + [c]) && At(cfg, b, before, c, done + take)
  {
    hide Inv, Homogeneous, CleanCut;
    assert Homogeneous(a.batch, cfg.grouping) by { assert Inv(cfg, a, before + [c]); FairBatch(cfg, a, before + [c]); }
    Joined(cfg, a, group, take);
    PushInv(cfg, a, before, c, done, group[..take]);
    var n := |Pending(a)| + take;
    assert CleanCut(cfg, before + [c], n);
    FlushInv(cfg, Push(a, c, group[..take], done + take == |cfg.accessor(c)|), before + [c], n);
  }

  lemma FairBatch<T, C>(cfg: Config<T, C>, a: Acc<T, C>, cs: seq<C>)
    requires Inv(cfg, a, cs)
    ensures Homogeneous(a.batch, cfg.grouping)
  {
  }

  lemma SliceNext<T, C>(cfg: Config<T, C>, a: Acc<T, C>, before: seq<C>, c: C, group: seq<T>, done: nat, take: nat,
      lo: nat, hi: nat)
    requires SliceReady(cfg, a, before, c, group, done, lo, hi) && group != []
    requires take == Min(cfg.max.value - |a.batch|, |group|)
    ensures SliceReady(cfg, Slice1(cfg, a, c, group, done, take), before, c, group[take..], done + take, lo, hi)
  {
    hide Inv, CleanRange;
    SliceStep(cfg, a, before, c, group, done, take, lo, hi);
    assert Homogeneous(a.batch, cfg.grouping) by { FairBatch(cfg, a, before + [c]); }
    Joined(cfg, a, group, take);
  }

  /** The loop over an oversized group leaves its invariant behind the group. */
  ghost predicate SlicesOk<T, C>(cfg: Config<T, C>, a: Acc<T, C>, before: seq<C>, c: C, group: seq<T>, done: nat) {
    && cfg.max.Some? && 0 < cfg.max.value && |a.batch| <= cfg.max.value
    && var b := Slices(a, c, group, done, |cfg.accessor(c)|, cfg.max.value);
       Inv(cfg, b, before + [c]) && At(cfg, b, before, c, done + |group|)
  }

  lemma SlicesEnd<T, C>(cfg: Config<T, C>, a: Acc<T, C>, before: seq<C>, c: C, done: nat, lo: nat, hi: nat)
    requires SliceReady(cfg, a, before, c, [], done, lo, hi)
    ensures SlicesOk(cfg, a, before, c, [], done)
  {
    hide Inv, At, CleanRange, Homogeneous;
  }

  lemma SlicesUnfold<T, C>(cfg: Config<T, C>, a: Acc<T, C>, before: seq<C>, c: C, group: seq<T>, done: nat, take: nat)
    requires cfg.max.Some? && 0 < cfg.max.value && |a.batch| <= cfg.max.value
    requires group != [] && take == Min(cfg.max.value - |a.batch|, |group|)
    requires SlicesOk(cfg, Slice1(cfg, a, c, group, done, take), before, c, group[take..], done + take)
    ensures SlicesOk(cfg, a, before, c, group, done)
  {
    hide Inv, At;
  }

  lemma SlicesShrink<T, C>(cfg: Config<T, C>, a: Acc<T, C>, c: C, group: seq<T>, done: nat, take: nat)
    requires cfg.max.Some? && 0 < cfg.max.value && |a.batch| <= cfg.max.value
    requires group != [] && take == Min(cfg.max.value - |a.batch|, |group|)
    ensures |group[take..]| < |group| || (|group[take..]| == |group|
        && |Slice1(cfg, a, c, group, done, take).batch| < |a.batch|)
  {
  }

  lemma {:induction false} SlicesInv<T, C>(cfg: Config<T, C>, a: Acc<T, C>, before: seq<C>, c: C, group: seq<T>,
      done: nat, lo: nat, hi: nat)
    requires SliceReady(cfg, a, before, c, group, done, lo, hi)
    ensures SlicesOk(cfg, a, before, c, group, done)
    decreases |group|, |a.batch|
  {
    hide SliceReady, SlicesOk, Slice1;
    if |group| == 0 {
      SlicesEnd(cfg, a, before, c, done, lo, hi);
    } else {
      SliceFits(cfg, a, before, c, group, done, lo, hi);
      var take := Min(cfg.max.value - |a.batch|, |group|);
      SliceNext(cfg, a, before, c, group, done, take, lo, hi);
      SlicesShrink(cfg, a, c, group, done, take);
      SlicesInv(cfg, Slice1(cfg, a, c, group, done, take), before, c, group[take..], done + take, lo, hi);
      SlicesUnfold(cfg, a, before, c, group, done, take);
    }
  }

  lemma SliceFits<T, C>(cfg: Config<T, C>, a: Acc<T, C>, before: seq<C>, c: C, group: seq<T>, done: nat, lo: nat,
      hi: nat)
    requires SliceReady(cfg, a, before, c, group, done, lo, hi)
    ensures cfg.max.Some? && 0 < cfg.max.value && |a.batch| <= cfg.max.value
  {
    hide Inv, At, CleanRange, Homogeneous;
  }

  /** All that the proofs need to know about a group `g` of `c` that starts behind `done` items of `c`,
      `n` items in all. */
  ghost predicate GroupOk<T, C>(cfg: Config<T, C>, before: seq<C>, c: C, g: seq<T>, done: nat, n: nat) {
    && g != [] && Homogeneous(g, cfg.grouping)
    && done + |g| <= |cfg.accessor(c)| && g == cfg.accessor(c)[done..][..|g|]
    && n == |Flat(before, cfg.accessor)| + done
    && CleanCut(cfg, before + [c], n)
    && (!cfg.Fits(|g|) ==> CleanRange(cfg, before + [c], n, n + |g|))
  }

  lemma GroupFacts<T, C>(cfg: Config<T, C>, before: seq<C>, c: C, j: nat, done: nat, n: nat)
    requires j < |cfg.GroupsOf(c)| && done == |Concat(cfg.GroupsOf(c)[..j])| && n == |Flat(before, cfg.accessor)| + done
    ensures GroupOk(cfg, before, c, cfg.GroupsOf(c)[j], done, n)
    ensures |Concat(cfg.GroupsOf(c)[..j + 1])| == done + |cfg.GroupsOf(c)[j]|
  {
    var g := cfg.GroupsOf(c)[j];
    GroupFits(cfg, c, j);
    GroupEnd(cfg, c, j);
    GroupsAreMaximalRuns(cfg.accessor(c), cfg.grouping);
    CutClean(cfg, before, c, j, 0, n);
    if !cfg.Fits(|g|) {
      OversizedClean(cfg, before, c, j, n);
    }
  }

  lemma OversizedClean<T, C>(cfg: Config<T, C>, before: seq<C>, c: C, j: nat, lo: nat)
    requires j < |cfg.GroupsOf(c)| && lo == |Flat(before, cfg.accessor)| + |Concat(cfg.GroupsOf(c)[..j])|
    requires !cfg.Fits(|cfg.GroupsOf(c)[j]|)
    ensures CleanRange(cfg, before + [c], lo, lo + |cfg.GroupsOf(c)[j]|)
  {
    forall n | lo <= n <= lo + |cfg.GroupsOf(c)[j]| ensures CleanCut(cfg, before + [c], n) {
      CutClean(cfg, before, c, j, n - lo, n);
    }
  }

  lemma SeparateInv<T, C>(cfg: Config<T, C>, a: Acc<T, C>, cs: seq<C>, g: seq<T>, n: nat)
    requires g != [] && Inv(cfg, a, cs) && n == |Pending(a)| && CleanCut(cfg, cs, n)
    ensures var b := Separate(cfg, a, g);
            Inv(cfg, b, cs) && Pending(b) == Pending(a) && Joins(cfg, b, g) && cfg.Fits(|b.batch|)
  {
    if a.batch != [] {
      FlushInv(cfg, a, cs, n);
    }
  }

  lemma MakeRoomInv<T, C>(cfg: Config<T, C>, a: Acc<T, C>, cs: seq<C>, g: seq<T>, total: nat, n: nat)
    requires |g| <= total && cfg.Fits(|g|) && Inv(cfg, a, cs) && n == |Pending(a)| && CleanCut(cfg, cs, n)
    requires Joins(cfg, a, g) && Homogeneous(g, cfg.grouping) && n < |Flat(cs, cfg.accessor)|
    ensures var b := MakeRoom(cfg, a, total);
            Inv(cfg, b, cs) && Pending(b) == Pending(a) && Fair(cfg, b.batch + g)
  {
    FlushInv(cfg, a, cs, n);
    var b := MakeRoom(cfg, a, total);
    Joined(cfg, b, g, |g|);
    assert g[..|g|] == g;
  }

  /** One round of the loop over the groups of a container, for any group with the facts above. */
  lemma AddGroupInv<T, C>(cfg: Config<T, C>, a: Acc<T, C>, before: seq<C>, c: C, g: seq<T>, done: nat, n: nat)
    requires cfg.Valid() && cfg.Fits(|a.batch|) && GroupOk(cfg, before, c, g, done, n) && |g| <= |cfg.accessor(c)|
    requires Inv(cfg, a, before + [c]) && At(cfg, a, before, c, done)
    ensures var b := AddGroup(cfg, a, c, g, done);
            Inv(cfg, b, before + [c]) && At(cfg, b, before, c, done + |g|)
  {
    SeparateInv(cfg, a, before + [c], g, n);
    var a1 := Separate(cfg, a, g);
    FlatSnoc(before, c, cfg.accessor);
    if !cfg.Fits(|g|) {
      SlicesInv(cfg, a1, before, c, g, done, n, n + |g|);
    } else {
      MakeRoomInv(cfg, a1, before + [c], g, |cfg.accessor(c)|, n);
      PushInv(cfg, MakeRoom(cfg, a1, |cfg.accessor(c)|), before, c, done, g);
    }
  }

  lemma {:induction false} AddGroupsInv<T, C>(cfg: Config<T, C>, a: Acc<T, C>, before: seq<C>, c: C, n: nat)
    requires cfg.Valid() && cfg.Fits(|a.batch|) && n <= |cfg.GroupsOf(c)| && Inv(cfg, a, before + [c])
    requires Pending(a) == Flat(before, cfg.accessor)
    ensures var b := AddGroups(cfg, a, c, n);
            Inv(cfg, b, before + [c]) && At(cfg, b, before, c, |Concat(cfg.GroupsOf(c)[..n])|)
  {
    hide AddGroup, Inv, GroupOk;
    if n > 0 {
      AddGroupsInv(cfg, a, before, c, n - 1);
      var done := |Concat(cfg.GroupsOf(c)[..n - 1])|;
      var at := |Flat(before, cfg.accessor)| + done;
      GroupFacts(cfg, before, c, n - 1, done, at);
      GroupFits(cfg, c, n - 1);
      AddGroupInv(cfg, AddGroups(cfg, a, c, n - 1), before, c, cfg.GroupsOf(c)[n - 1], done, at);
    }
  }

  lemma AnnounceClean<T, C>(cfg: Config<T, C>, cs: seq<C>, c: C, n: nat)
    requires CleanCut(cfg, cs, n) && n <= |Flat(cs, cfg.accessor)|
    ensures CleanCut(cfg, cs + [c], n)
  {
    forall i | 0 <= i < |cs + [c]| ensures CleanIn(cfg, cs + [c], i, n) {
      assert (cs + [c])[..i] == cs[..i];
      if i < |cs| {
        assert CleanIn(cfg, cs, i, n);
        forall j | 0 <= j < |cfg.GroupsOf(cs[i])| && Inside(cfg, cs + [c], i, j, n)
          ensures !cfg.Fits(|cfg.GroupsOf(cs[i])[j]|)
        {
          assert Inside(cfg, cs, i, j, n);
        }
      } else {
        assert cs[..i] == cs;
      }
    }
  }

  /** Everything said about the containers so far still holds when one more is announced. */
  lemma NextContainer<T, C>(cfg: Config<T, C>, a: Acc<T, C>, cs: seq<C>, c: C)
    requires Inv(cfg, a, cs) && Pending(a) == Flat(cs, cfg.accessor)
    ensures Inv(cfg, a, cs + [c])
  {
    FlatSnoc(cs, c, cfg.accessor);
    forall k | 0 <= k <= |a.out| ensures Boundary(cfg, a.out, cs + [c], k) {
      assert Boundary(cfg, a.out, cs, k);
      var n := |Sent(a.out[..k])|;
      FullyWithinSnoc(cfg.accessor, cs, c, n);
      AnnounceClean(cfg, cs, c, n);
    }
    forall k | 0 <= k < |a.out| ensures Useful(cfg, a.out, cs + [c], k) {
      assert Useful(cfg, a.out, cs, k);
    }
    FullyWithinSnoc(cfg.accessor, cs, c, |Pending(a)|);
  }

  lemma {:induction false} AddAllInv<T, C>(cfg: Config<T, C>, cs: seq<C>)
    requires cfg.Valid()
    ensures Inv(cfg, AddAll(cfg, cs), cs) && Pending(AddAll(cfg, cs)) == Flat(cs, cfg.accessor)
  {
    if |cs| > 0 {
      var before, c := cs[..|cs| - 1], cs[|cs| - 1];
      assert cs == before + [c];
      AddAllInv(cfg, before);
      NextContainer(cfg, AddAll(cfg, before), before, c);
      var n := |cfg.GroupsOf(c)|;
      AddGroupsInv(cfg, AddAll(cfg, before), before, c, n);
      GroupsAreMaximalRuns(cfg.accessor(c), cfg.grouping);
      assert cfg.GroupsOf(c)[..n] == cfg.GroupsOf(c);
      assert cfg.accessor(c)[..|cfg.accessor(c)|] == cfg.accessor(c);
    } else {
      var a := AddAll(cfg, cs);
      assert Boundary(cfg, a.out, cs, 0);
    }
  }

  /** `batch` is a faithful partition: it loses, repeats and reorders nothing, bounds every chunk,
      keeps chunks homogeneous, splits a group only when it cannot fit into one chunk, and after
      every chunk has reported exactly the non-empty containers that are through. */
  lemma ChunksAreFaithful<T, C>(cfg: Config<T, C>, cs: seq<C>)
    requires cfg.Valid()
    ensures Faithful(cfg, Chunks(cfg, cs), cs)
  {
    AddAllInv(cfg, cs);
    var a := AddAll(cfg, cs);
    if a.batch != [] {
      EndClean(cfg, cs);
      FlushInv(cfg, a, cs, |Flat(cs, cfg.accessor)|);
      assert Pending(Flush(a)) == Sent(Flush(a).out);
    }
  }

  lemma EndClean<T, C>(cfg: Config<T, C>, cs: seq<C>)
    ensures CleanCut(cfg, cs, |Flat(cs, cfg.accessor)|)
  {
    if |cs| > 0 {
      var before, c := cs[..|cs| - 1], cs[|cs| - 1];
      var n := |cfg.GroupsOf(c)|;
      CutClean(cfg, before, c, n, 0, |Flat(before, cfg.accessor)| + |Concat(cfg.GroupsOf(c)[..n])|);
      GroupsAreMaximalRuns(cfg.accessor(c), cfg.grouping);
      assert cfg.GroupsOf(c)[..n] == cfg.GroupsOf(c);
      assert cs == before + [c];
    }
  }
}
