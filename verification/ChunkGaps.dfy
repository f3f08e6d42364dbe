/** When `batch` yields an empty chunk: packages/core/src/internal/batching/helper.ts:42-90. */
module ChunkGaps {
  import opened Wrappers
  import opened Sequences
  import opened Batching
  import opened Chunking
  import opened ChunkFilling
  import opened ChunkCuts

  /** In front of item `n` ends a group that is too large for a chunk. */
  ghost predicate SpilledAt<T, C>(cfg: Config<T, C>, cs: seq<C>, n: nat) {
    exists i: nat, j: nat :: Spilled(cfg, cs, n, i, j)
  }

  /** Nothing in front of item `n` can share a chunk with it. */
  ghost predicate Detached<T, C>(cfg: Config<T, C>, cs: seq<C>, n: nat) {
    var all := Flat(cs, cfg.accessor);
    n == 0 || SpilledAt(cfg, cs, n) || (n < |all| && !cfg.grouping(all[n - 1], all[n]))
  }

  /** With item `n` starts a group that fits into a chunk though its container does not, and nothing in front
      can share its chunk. */
  ghost predicate Lone<T, C>(cfg: Config<T, C>, cs: seq<C>, n: nat, i: nat, j: nat) {
    && i < |cs| && j < |cfg.GroupsOf(cs[i])| && n == GroupStart(cfg, cs, i, j)
    && cfg.Fits(|cfg.GroupsOf(cs[i])[j]|) && !cfg.Fits(|cfg.accessor(cs[i])|) && Detached(cfg, cs, n)
  }

  ghost predicate LoneAt<T, C>(cfg: Config<T, C>, cs: seq<C>, n: nat) {
    exists i: nat, j: nat :: Lone(cfg, cs, n, i, j)
  }

  /** Chunk `k` is empty and lies in front of item `n`. */
  predicate Gap<T, C>(chunks: seq<Chunk<T, C>>, n: nat, k: nat) {
    k < |chunks| && chunks[k].batch == [] && |Sent(chunks[..k])| == n
  }

  ghost predicate GapAt<T, C>(chunks: seq<Chunk<T, C>>, n: nat) {
    exists k: nat :: Gap(chunks, n, k)
  }

  /** Up to item `n` the gaps are where they should be. */
  ghost predicate GapsRight<T, C>(cfg: Config<T, C>, chunks: seq<Chunk<T, C>>, cs: seq<C>, n: nat) {
    && (forall m: nat | GapAt(chunks, m) :: m < |Flat(cs, cfg.accessor)| && LoneAt(cfg, cs, m))
    && (forall m: nat | m < n && LoneAt(cfg, cs, m) :: GapAt(chunks, m))
  }

  // ---------- another container ----------

  lemma SpilledKept<T, C>(cfg: Config<T, C>, cs: seq<C>, c: C, n: nat)
    requires n <= |Flat(cs, cfg.accessor)|
    ensures SpilledAt(cfg, cs + [c], n) <==> SpilledAt(cfg, cs, n)
  {
    hide Flat, Groups;
    forall i: nat, j: nat ensures Spilled(cfg, cs + [c], n, i, j) <==> Spilled(cfg, cs, n, i, j) {
      if i < |cs| && j < |cfg.GroupsOf(cs[i])| {
        EarlierStart(cfg, cs, c, i, j);
      } else if i == |cs| && j < |cfg.GroupsOf(c)| {
        assert (cs + [c])[..i] == cs;
        GroupIs(cfg, c, j);
      }
    }
  }

  lemma DetachedKept<T, C>(cfg: Config<T, C>, cs: seq<C>, c: C, n: nat)
    requires n < |Flat(cs, cfg.accessor)|
    ensures Detached(cfg, cs + [c], n) <==> Detached(cfg, cs, n)
  {
    hide SpilledAt;
    SpilledKept(cfg, cs, c, n);
    FlatSnoc(cs, c, cfg.accessor);
  }

  lemma LoneKept<T, C>(cfg: Config<T, C>, cs: seq<C>, c: C, n: nat)
    requires n < |Flat(cs, cfg.accessor)|
    ensures LoneAt(cfg, cs + [c], n) <==> LoneAt(cfg, cs, n)
  {
    hide Flat, Groups, Detached;
    DetachedKept(cfg, cs, c, n);
    forall i: nat, j: nat ensures Lone(cfg, cs + [c], n, i, j) <==> Lone(cfg, cs, n, i, j) {
      if i < |cs| && j < |cfg.GroupsOf(cs[i])| {
        EarlierStart(cfg, cs, c, i, j);
      } else if i == |cs| && j < |cfg.GroupsOf(c)| {
        assert (cs + [c])[..i] == cs;
      }
    }
  }

  lemma GapsKept<T, C>(cfg: Config<T, C>, chunks: seq<Chunk<T, C>>, cs: seq<C>, c: C, n: nat)
    requires GapsRight(cfg, chunks, cs, n) && n <= |Flat(cs, cfg.accessor)|
    ensures GapsRight(cfg, chunks, cs + [c], n)
  {
    hide GapAt, LoneAt, Flat;
    FlatSnoc(cs, c, cfg.accessor);
    forall m: nat | m < |Flat(cs, cfg.accessor)| ensures LoneAt(cfg, cs + [c], m) <==> LoneAt(cfg, cs, m) {
      LoneKept(cfg, cs, c, m);
    }
  }

  // ---------- one group ----------

  /** Between two groups: the batch is empty exactly if nothing was yielded yet or a large group has just
      been spilled. */
  ghost predicate Gapped<T, C>(cfg: Config<T, C>, a: Acc<T, C>, before: seq<C>, c: C, done: nat) {
    && At(cfg, a, before, c, done) && GapsRight(cfg, a.out, before + [c], |Pending(a)|)
    && (a.batch == [] <==> |Pending(a)| == 0 || SpilledAt(cfg, before + [c], |Pending(a)|))
  }

  lemma FlushGaps<T, C>(a: Acc<T, C>, n: nat)
    ensures GapAt(Flush(a).out, n) <==> GapAt(a.out, n) || (a.batch == [] && n == |Sent(a.out)|)
  {
    hide Sent;
    var out := Flush(a).out;
    assert out[..|a.out|] == a.out;
    assert Gap(out, n, |a.out|) <==> a.batch == [] && n == |Sent(a.out)|;
    forall k: nat | k < |a.out| ensures Gap(out, n, k) == Gap(a.out, n, k) {
      assert out[..k] == a.out[..k];
    }
  }

  /** Where group `j` of `c` starts. */
  lemma HereStarts<T, C>(cfg: Config<T, C>, before: seq<C>, c: C, j: nat, done: nat)
    requires Group(cfg, c, j, done)
    ensures var cs, n := before + [c], |Flat(before, cfg.accessor)| + done;
            && n < |Flat(cs, cfg.accessor)|
            && (LoneAt(cfg, cs, n) <==>
                  cfg.Fits(|cfg.GroupsOf(c)[j]|) && !cfg.Fits(|cfg.accessor(c)|) && Detached(cfg, cs, n))
  {
    hide Flat, Groups, Detached;
    var cs, n := before + [c], |Flat(before, cfg.accessor)| + done;
    StartOf(cfg, before, c, j, done);
    FlatSnoc(before, c, cfg.accessor);
    assert Lone(cfg, cs, n, |before|, j) <==>
        cfg.Fits(|cfg.GroupsOf(c)[j]|) && !cfg.Fits(|cfg.accessor(c)|) && Detached(cfg, cs, n);
    forall i2: nat, j2: nat | Lone(cfg, cs, n, i2, j2) ensures i2 == |before| && j2 == j {
      OnlyStart(cfg, before, c, j, done, i2, j2);
    }
  }

  /** No group starts inside another. */
  lemma NothingInside<T, C>(cfg: Config<T, C>, before: seq<C>, c: C, j: nat, done: nat, m: nat)
    requires Group(cfg, c, j, done)
    requires var n := |Flat(before, cfg.accessor)| + done; n < m < n + |cfg.GroupsOf(c)[j]|
    ensures !LoneAt(cfg, before + [c], m)
  {
    hide Flat, Groups, Detached;
    var cs := before + [c];
    StartOf(cfg, before, c, j, done);
    forall i2: nat, j2: nat ensures !Lone(cfg, cs, m, i2, j2) {
      if i2 < |cs| && j2 < |cfg.GroupsOf(cs[i2])| && m == GroupStart(cfg, cs, i2, j2) {
        OnlyStart(cfg, before, c, j, done, i2, j2);
      }
    }
  }

  /** Behind group `j` of `c` a group has been spilled exactly if it is that one. */
  lemma HereEnds<T, C>(cfg: Config<T, C>, before: seq<C>, c: C, j: nat, done: nat)
    requires Group(cfg, c, j, done)
    ensures var g := cfg.GroupsOf(c)[j];
            SpilledAt(cfg, before + [c], |Flat(before, cfg.accessor)| + done + |g|) <==> !cfg.Fits(|g|)
  {
    hide Flat, Groups;
    var cs, g := before + [c], cfg.GroupsOf(c)[j];
    var end := |Flat(before, cfg.accessor)| + done + |g|;
    StartOf(cfg, before, c, j, done);
    assert Spilled(cfg, cs, end, |before|, j) <==> !cfg.Fits(|g|);
    forall i2: nat, j2: nat | Spilled(cfg, cs, end, i2, j2) ensures i2 == |before| && j2 == j {
      OnlyEnd(cfg, before, c, j, done, i2, j2);
    }
  }

  lemma OnlyEnd<T, C>(cfg: Config<T, C>, before: seq<C>, c: C, j: nat, done: nat, i2: nat, j2: nat)
    requires Group(cfg, c, j, done)
    requires i2 < |before + [c]| && j2 < |cfg.GroupsOf((before + [c])[i2])|
    requires GroupStart(cfg, before + [c], i2, j2) + |cfg.GroupsOf((before + [c])[i2])[j2]|
                 == |Flat(before, cfg.accessor)| + done + |cfg.GroupsOf(c)[j]|
    ensures i2 == |before| && j2 == j
  {
    hide Flat, Groups;
    StartOf(cfg, before, c, j, done);
    if i2 < |before| {
      EarlierEnd(cfg, before, c, i2, j2);
    } else if j2 < j {
      LaterStart(cfg, before, c, j2, j);
    } else if j < j2 {
      LaterStart(cfg, before, c, j, j2);
      GroupIs(cfg, c, j2);
    }
  }

  lemma EarlierEnd<T, C>(cfg: Config<T, C>, cs: seq<C>, c: C, i: nat, j: nat)
    requires i < |cs| && j < |cfg.GroupsOf(cs[i])|
    ensures GroupStart(cfg, cs + [c], i, j) + |cfg.GroupsOf(cs[i])[j]| <= |Flat(cs, cfg.accessor)|
  {
    assert (cs + [c])[..i] == cs[..i];
    assert cs[..i + 1] == cs[..i] + [cs[i]];
    FlatSnoc(cs[..i], cs[i], cfg.accessor);
    FlatPrefix(cs, i + 1, cfg.accessor);
    GroupEnd(cfg, cs[i], j);
  }

  /** Group `j` starts with item `n`, and the item in front of it is the last one of the batch. */
  lemma AtTheSeam<T, C>(cfg: Config<T, C>, a: Acc<T, C>, before: seq<C>, c: C, j: nat, done: nat)
    requires At(cfg, a, before, c, done) && Group(cfg, c, j, done)
    ensures var all, n := Flat(before + [c], cfg.accessor), |Pending(a)|;
            && n < |all| && all[n] == cfg.GroupsOf(c)[j][0]
            && (a.batch != [] ==> n > 0 && all[n - 1] == a.batch[|a.batch| - 1])
  {
    hide Flat, Groups, Sent;
    FlatSnoc(before, c, cfg.accessor);
    var all, n := Flat(before + [c], cfg.accessor), |Pending(a)|;
    if a.batch != [] {
      assert all[n - 1] == Pending(a)[n - 1];
    }
  }

  lemma FlushAt<T, C>(cfg: Config<T, C>, a: Acc<T, C>, before: seq<C>, c: C, done: nat)
    requires At(cfg, a, before, c, done)
    ensures At(cfg, Flush(a), before, c, done) && |Pending(Flush(a))| == |Pending(a)|
  {
    hide Flat, Sent;
    SentSnoc(a.out, Chunk(a.batch, a.completed));
  }

  /** After `Separate` the batch is empty exactly if nothing in front can share a chunk with the group. */
  lemma SeparateGaps<T, C>(cfg: Config<T, C>, a: Acc<T, C>, before: seq<C>, c: C, j: nat, done: nat)
    requires Gapped(cfg, a, before, c, done) && Group(cfg, c, j, done)
    ensures var b, n := Separate(cfg, a, cfg.GroupsOf(c)[j]), |Pending(a)|;
            && At(cfg, b, before, c, done) && |Pending(b)| == n && GapsRight(cfg, b.out, before + [c], n)
            && (b.batch == [] <==> Detached(cfg, before + [c], n))
  {
    AtTheSeam(cfg, a, before, c, j, done);
    hide SpilledAt, GapAt, LoneAt, Flat, Groups, Sent, At;
    if a.batch != [] {
      FlushAt(cfg, a, before, c, done);
      forall m: nat ensures GapAt(Flush(a).out, m) == GapAt(a.out, m) {
        FlushGaps(a, m);
      }
    }
  }

  lemma RoomGaps<T, C>(cfg: Config<T, C>, b: Acc<T, C>, before: seq<C>, c: C, j: nat, done: nat)
    requires At(cfg, b, before, c, done) && Group(cfg, c, j, done)
    requires cfg.Valid() && cfg.Fits(|b.batch|) && cfg.Fits(|cfg.GroupsOf(c)[j]|)
    requires GapsRight(cfg, b.out, before + [c], |Pending(b)|)
    requires b.batch == [] <==> Detached(cfg, before + [c], |Pending(b)|)
    ensures var r := MakeRoom(cfg, b, |cfg.accessor(c)|);
            && At(cfg, r, before, c, done) && |Pending(r)| == |Pending(b)|
            && GapsRight(cfg, r.out, before + [c], |Pending(b)| + 1)
  {
    hide Detached, GapAt, LoneAt, Flat, Groups, Sent;
    var cs, n := before + [c], |Pending(b)|;
    HereStarts(cfg, before, c, j, done);
    SentSnoc(b.out, Chunk(b.batch, b.completed));
    forall m: nat ensures GapAt(Flush(b).out, m) <==> GapAt(b.out, m) || (b.batch == [] && m == n) {
      FlushGaps(b, m);
    }
  }

  lemma PushGaps<T, C>(cfg: Config<T, C>, r: Acc<T, C>, before: seq<C>, c: C, j: nat, done: nat)
    requires At(cfg, r, before, c, done) && Group(cfg, c, j, done) && cfg.Fits(|cfg.GroupsOf(c)[j]|)
    requires GapsRight(cfg, r.out, before + [c], |Pending(r)| + 1)
    ensures var g := cfg.GroupsOf(c)[j];
            Gapped(cfg, Push(r, c, g, done + |g| == |cfg.accessor(c)|), before, c, done + |g|)
  {
    hide SpilledAt, GapAt, LoneAt, Flat, Groups, Sent;
    var g, n := cfg.GroupsOf(c)[j], |Pending(r)|;
    PushAt(cfg, r, before, c, done, g);
    HereEnds(cfg, before, c, j, done);
    forall m: nat | n < m < n + |g| ensures !LoneAt(cfg, before + [c], m) {
      NothingInside(cfg, before, c, j, done, m);
    }
  }

  /** The loop over an oversized group yields no empty chunk and leaves an empty batch. */
  lemma {:induction false} SlicesGaps<T, C>(a: Acc<T, C>, c: C, group: seq<T>, done: nat, total: nat, max: nat, n: nat)
    requires 0 < max && |a.batch| <= max
    ensures var r := Slices(a, c, group, done, total, max);
            && (GapAt(r.out, n) <==> GapAt(a.out, n))
            && (|group| > 0 ==> r.batch == [])
    decreases |group|, |a.batch|
  {
    hide GapAt;
    if |group| > 0 {
      var take := Min(max - |a.batch|, |group|);
      var b := Push(a, c, group[..take], done + take == total);
      FlushGaps(b, n);
      SlicesGaps(Flush(b), c, group[take..], done + take, total, max, n);
      if group[take..] == [] {
        assert Flush(b).batch == [];
      }
    }
  }

  lemma SpillGaps<T, C>(cfg: Config<T, C>, b: Acc<T, C>, before: seq<C>, c: C, j: nat, done: nat)
    requires Group(cfg, c, j, done) && GapsRight(cfg, b.out, before + [c], |Pending(b)|)
    requires cfg.Valid() && cfg.max.Some? && |b.batch| <= cfg.max.value && !cfg.Fits(|cfg.GroupsOf(c)[j]|)
    requires |Pending(b)| == |Flat(before, cfg.accessor)| + done
    requires var g := cfg.GroupsOf(c)[j];
             At(cfg, Slices(b, c, g, done, |cfg.accessor(c)|, cfg.max.value), before, c, done + |g|)
    ensures var g := cfg.GroupsOf(c)[j];
            Gapped(cfg, Slices(b, c, g, done, |cfg.accessor(c)|, cfg.max.value), before, c, done + |g|)
  {
    hide SpilledAt, GapAt, LoneAt, Flat, Groups, Sent, Slices, Detached, GapsRight;
    var g, n := cfg.GroupsOf(c)[j], |Pending(b)|;
    var r := Slices(b, c, g, done, |cfg.accessor(c)|, cfg.max.value);
    HereEnds(cfg, before, c, j, done);
    forall m: nat ensures GapAt(r.out, m) <==> GapAt(b.out, m) {
      SlicesGaps(b, c, g, done, |cfg.accessor(c)|, cfg.max.value, m);
    }
    SlicesGaps(b, c, g, done, |cfg.accessor(c)|, cfg.max.value, 0);
    forall m: nat | n <= m < n + |g| ensures !LoneAt(cfg, before + [c], m) {
      if m == n {
        HereStarts(cfg, before, c, j, done);
      } else {
        NothingInside(cfg, before, c, j, done, m);
      }
    }
    StillRight(cfg, b.out, r.out, before + [c], n, n + |g|);
    PendingLength(cfg, r, before, c, done + |g|);
  }

  lemma PendingLength<T, C>(cfg: Config<T, C>, a: Acc<T, C>, before: seq<C>, c: C, done: nat)
    requires At(cfg, a, before, c, done)
    ensures |Pending(a)| == |Flat(before, cfg.accessor)| + done
  {
    hide Flat, Sent;
  }

  lemma StillRight<T, C>(cfg: Config<T, C>, chunks: seq<Chunk<T, C>>, more: seq<Chunk<T, C>>, cs: seq<C>,
      n: nat, n2: nat)
    requires GapsRight(cfg, chunks, cs, n) && n <= n2
    requires forall m: nat :: GapAt(more, m) <==> GapAt(chunks, m)
    requires forall m: nat | n <= m < n2 :: !LoneAt(cfg, cs, m)
    ensures GapsRight(cfg, more, cs, n2)
  {
    hide GapAt, LoneAt, Flat;
  }

  // ---------- all groups of all containers ----------

  lemma AddGroupGaps<T, C>(cfg: Config<T, C>, a: Acc<T, C>, before: seq<C>, c: C, j: nat, done: nat)
    requires Group(cfg, c, j, done) && cfg.Valid() && cfg.Fits(|a.batch|)
    requires Gapped(cfg, a, before, c, done)
    requires At(cfg, AddGroup(cfg, a, c, cfg.GroupsOf(c)[j], done), before, c, done + |cfg.GroupsOf(c)[j]|)
    ensures Gapped(cfg, AddGroup(cfg, a, c, cfg.GroupsOf(c)[j], done), before, c, done + |cfg.GroupsOf(c)[j]|)
  {
    PendingAt(cfg, a, before, c, done);
    hide Gapped, GapsRight, Detached, Groups, Slices, Flat, Sent, At;
    var g := cfg.GroupsOf(c)[j];
    SeparateGaps(cfg, a, before, c, j, done);
    var b := Separate(cfg, a, g);
    if !cfg.Fits(|g|) {
      SpillGaps(cfg, b, before, c, j, done);
    } else {
      RoomGaps(cfg, b, before, c, j, done);
      PushGaps(cfg, MakeRoom(cfg, b, |cfg.accessor(c)|), before, c, j, done);
    }
  }

  lemma PendingAt<T, C>(cfg: Config<T, C>, a: Acc<T, C>, before: seq<C>, c: C, done: nat)
    requires Gapped(cfg, a, before, c, done)
    ensures |Pending(a)| == |Flat(before, cfg.accessor)| + done
  {
  }

  lemma AddGroupBoth<T, C>(cfg: Config<T, C>, a: Acc<T, C>, before: seq<C>, c: C, j: nat, done: nat)
    requires Group(cfg, c, j, done) && cfg.Valid() && cfg.Fits(|a.batch|)
    requires Tight(cfg, a, before, c, done) && Gapped(cfg, a, before, c, done)
    ensures var g := cfg.GroupsOf(c)[j];
            var r := AddGroup(cfg, a, c, g, done);
            Tight(cfg, r, before, c, done + |g|) && Gapped(cfg, r, before, c, done + |g|)
  {
    hide Tight, AddGroup, Gapped, At, Flat, Groups, Concat;
    AddGroupTight(cfg, a, before, c, j, done);
    TightAt(cfg, AddGroup(cfg, a, c, cfg.GroupsOf(c)[j], done), before, c, done + |cfg.GroupsOf(c)[j]|);
    AddGroupGaps(cfg, a, before, c, j, done);
  }

  lemma {:induction false} AddGroupsGaps<T, C>(cfg: Config<T, C>, a: Acc<T, C>, before: seq<C>, c: C, n: nat)
    requires cfg.Valid() && cfg.Fits(|a.batch|) && n <= |cfg.GroupsOf(c)|
    requires Tight(cfg, a, before, c, 0) && Gapped(cfg, a, before, c, 0)
    ensures var r, done := AddGroups(cfg, a, c, n), |Concat(cfg.GroupsOf(c)[..n])|;
            Tight(cfg, r, before, c, done) && Gapped(cfg, r, before, c, done)
  {
    hide Tight, AddGroup, Group, Gapped, At, Groups;
    if n > 0 {
      AddGroupsGaps(cfg, a, before, c, n - 1);
      GroupIs(cfg, c, n - 1);
      AddGroupBoth(cfg, AddGroups(cfg, a, c, n - 1), before, c, n - 1, |Concat(cfg.GroupsOf(c)[..n - 1])|);
    }
  }

  lemma TightAt<T, C>(cfg: Config<T, C>, a: Acc<T, C>, before: seq<C>, c: C, done: nat)
    requires Tight(cfg, a, before, c, done)
    ensures At(cfg, a, before, c, done)
  {
  }

  /** Between two containers. */
  ghost predicate Rested<T, C>(cfg: Config<T, C>, a: Acc<T, C>, cs: seq<C>) {
    && Pending(a) == Flat(cs, cfg.accessor) && GapsRight(cfg, a.out, cs, |Pending(a)|)
    && (a.batch == [] <==> |Pending(a)| == 0 || SpilledAt(cfg, cs, |Pending(a)|))
  }

  lemma NextGaps<T, C>(cfg: Config<T, C>, a: Acc<T, C>, cs: seq<C>, c: C)
    requires Rested(cfg, a, cs)
    ensures Gapped(cfg, a, cs, c, 0)
  {
    hide Flat, SpilledAt, GapsRight, Sent;
    GapsKept(cfg, a.out, cs, c, |Pending(a)|);
    SpilledKept(cfg, cs, c, |Pending(a)|);
    assert Flat(cs, cfg.accessor) + cfg.accessor(c)[..0] == Flat(cs, cfg.accessor);
  }

  lemma RestAgain<T, C>(cfg: Config<T, C>, a: Acc<T, C>, before: seq<C>, c: C)
    requires Gapped(cfg, a, before, c, |cfg.accessor(c)|)
    ensures Rested(cfg, a, before + [c])
  {
    hide SpilledAt, GapsRight, Sent;
    FlatSnoc(before, c, cfg.accessor);
    assert cfg.accessor(c)[..|cfg.accessor(c)|] == cfg.accessor(c);
  }

  lemma {:induction false} AddAllGaps<T, C>(cfg: Config<T, C>, cs: seq<C>)
    requires cfg.Valid()
    ensures Rested(cfg, AddAll(cfg, cs), cs)
  {
    hide AllTight, AddGroups, Groups, NoneOver, Rested, Gapped, Tight;
    if |cs| > 0 {
      var before, c := cs[..|cs| - 1], cs[|cs| - 1];
      assert cs == before + [c];
      var a, n := AddAll(cfg, before), |cfg.GroupsOf(c)|;
      AddAllTight(cfg, before);
      TightNext(cfg, a, before, c);
      AddAllGaps(cfg, before);
      NextGaps(cfg, a, before, c);
      AddGroupsGaps(cfg, a, before, c, n);
      GroupsAreMaximalRuns(cfg.accessor(c), cfg.grouping);
      assert cfg.GroupsOf(c)[..n] == cfg.GroupsOf(c);
      RestAgain(cfg, AddAll(cfg, cs), before, c);
    } else {
      NothingYet(cfg, cs);
    }
  }

  lemma NothingYet<T, C>(cfg: Config<T, C>, cs: seq<C>)
    requires |cs| == 0
    ensures Rested(cfg, Acc([], [], []), cs)
  {
  }

  /** Exactly where there are empty chunks: in front of every group that fits into a chunk though its whole
      container does not, if nothing in front of the group can share its chunk. There the loop makes room in
      a batch that is empty already. */
  lemma EmptyChunkIff<T, C>(cfg: Config<T, C>, cs: seq<C>, n: nat)
    requires cfg.Valid()
    ensures GapAt(Chunks(cfg, cs), n) <==> n < |Flat(cs, cfg.accessor)| && LoneAt(cfg, cs, n)
  {
    AddAllGaps(cfg, cs);
    hide SpilledAt, LoneAt, Flat, AddAll;
    var a := AddAll(cfg, cs);
    if a.batch != [] {
      FlushGaps(a, n);
    }
  }
}
