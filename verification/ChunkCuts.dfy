/** Where `batch` has to cut: packages/core/src/internal/batching/helper.ts:42-90. */
module ChunkCuts {
  import opened Wrappers
  import opened Sequences
  import opened Batching
  import opened Chunking
  import opened ChunkFilling

  /** Inside the chunk from `from` up to `n` starts a group that fits into a chunk, but not into this one
      together with its whole container. */
  predicate Overflows<T, C>(cfg: Config<T, C>, cs: seq<C>, from: nat, n: nat, i: nat, j: nat) {
    && i < |cs| && j < |cfg.GroupsOf(cs[i])| && cfg.Fits(|cfg.GroupsOf(cs[i])[j]|)
    && var start := GroupStart(cfg, cs, i, j);
       from < start < n && !cfg.Fits(start - from + |cfg.accessor(cs[i])|)
  }

  ghost predicate NoneOver<T, C>(cfg: Config<T, C>, cs: seq<C>, from: nat, n: nat) {
    forall i: nat, j: nat :: !Overflows(cfg, cs, from, n, i, j)
  }

  ghost predicate ChunkTight<T, C>(cfg: Config<T, C>, chunks: seq<Chunk<T, C>>, cs: seq<C>, k: nat)
    requires k < |chunks|
  {
    NoneOver(cfg, cs, |Sent(chunks[..k])|, |Sent(chunks[..k])| + |chunks[k].batch|)
  }

  ghost predicate AllTight<T, C>(cfg: Config<T, C>, chunks: seq<Chunk<T, C>>, cs: seq<C>) {
    forall k | 0 <= k < |chunks| :: ChunkTight(cfg, chunks, cs, k)
  }

  /** The chunks so far and the one being built are tight. */
  ghost predicate Tight<T, C>(cfg: Config<T, C>, a: Acc<T, C>, before: seq<C>, c: C, done: nat) {
    && AllTight(cfg, a.out, before + [c]) && NoneOver(cfg, before + [c], |Sent(a.out)|, |Pending(a)|)
    && At(cfg, a, before, c, done)
  }

  // ---------- where groups start ----------

  /** The groups of the earlier containers start in front of all items of `c`. */
  lemma EarlierStart<T, C>(cfg: Config<T, C>, cs: seq<C>, c: C, i: nat, j: nat)
    requires i < |cs| && j < |cfg.GroupsOf(cs[i])|
    ensures GroupStart(cfg, cs + [c], i, j) == GroupStart(cfg, cs, i, j) < |Flat(cs, cfg.accessor)|
  {
    assert (cs + [c])[..i] == cs[..i];
    assert cs[..i + 1] == cs[..i] + [cs[i]];
    FlatSnoc(cs[..i], cs[i], cfg.accessor);
    FlatPrefix(cs, i + 1, cfg.accessor);
    GroupIs(cfg, cs[i], j);
    GroupEnd(cfg, cs[i], j);
  }

  /** The groups of `c` start one behind the other. */
  lemma LaterStart<T, C>(cfg: Config<T, C>, before: seq<C>, c: C, i: nat, j: nat)
    requires i < j < |cfg.GroupsOf(c)|
    ensures var cs := before + [c];
            && cs[|before|] == c
            && GroupStart(cfg, cs, |before|, i) + |cfg.GroupsOf(c)[i]| <= GroupStart(cfg, cs, |before|, j)
            && |cfg.GroupsOf(c)[i]| > 0
  {
    assert (before + [c])[..|before|] == before;
    GroupIs(cfg, c, i);
    GroupEnd(cfg, c, i);
    ConcatPrefix(cfg.GroupsOf(c), i + 1, j);
  }

  /** Only group `j` of `c` starts where its items are. */
  lemma OnlyStart<T, C>(cfg: Config<T, C>, before: seq<C>, c: C, j: nat, start: nat, i2: nat, j2: nat)
    requires Group(cfg, c, j, start)
    requires i2 < |before + [c]| && j2 < |cfg.GroupsOf((before + [c])[i2])|
    requires var s, at := GroupStart(cfg, before + [c], i2, j2), |Flat(before, cfg.accessor)| + start;
             at <= s < at + |cfg.GroupsOf(c)[j]|
    ensures i2 == |before| && j2 == j
  {
    hide Flat, Groups;
    StartOf(cfg, before, c, j, start);
    if i2 < |before| {
      EarlierStart(cfg, before, c, i2, j2);
    } else if j2 < j {
      LaterStart(cfg, before, c, j2, j);
    } else if j < j2 {
      LaterStart(cfg, before, c, j, j2);
    }
  }

  // ---------- the loops keep chunks tight ----------

  lemma NoneOverKept<T, C>(cfg: Config<T, C>, cs: seq<C>, c: C, from: nat, n: nat)
    requires NoneOver(cfg, cs, from, n) && n <= |Flat(cs, cfg.accessor)|
    ensures NoneOver(cfg, cs + [c], from, n)
  {
    hide Flat, Groups;
    forall i: nat, j: nat ensures !Overflows(cfg, cs + [c], from, n, i, j) {
      if i < |cs| && j < |cfg.GroupsOf(cs[i])| {
        EarlierStart(cfg, cs, c, i, j);
        assert !Overflows(cfg, cs, from, n, i, j);
      } else if i == |cs| {
        assert (cs + [c])[..i] == cs;
      }
    }
  }

  lemma SentUpTo<T, C>(chunks: seq<Chunk<T, C>>, k: nat)
    requires k < |chunks|
    ensures |Sent(chunks[..k])| + |chunks[k].batch| <= |Sent(chunks)|
  {
    assert chunks == (chunks[..k] + [chunks[k]]) + chunks[k + 1..];
    SentSnoc(chunks[..k], chunks[k]);
    SentMore(chunks[..k] + [chunks[k]], chunks[k + 1..]);
  }

  lemma {:induction false} SentMore<T, C>(a: seq<Chunk<T, C>>, b: seq<Chunk<T, C>>)
    ensures |Sent(a)| <= |Sent(a + b)|
  {
    if b == [] {
      assert a + b == a;
    } else {
      var n := |b| - 1;
      assert a + b == (a + b[..n]) + [b[n]];
      SentSnoc(a + b[..n], b[n]);
      SentMore(a, b[..n]);
    }
  }

  lemma TightNext<T, C>(cfg: Config<T, C>, a: Acc<T, C>, cs: seq<C>, c: C)
    requires AllTight(cfg, a.out, cs) && NoneOver(cfg, cs, |Sent(a.out)|, |Pending(a)|)
    requires Pending(a) == Flat(cs, cfg.accessor)
    ensures Tight(cfg, a, cs, c, 0)
  {
    hide Sent, NoneOver, Flat, Groups;
    NoneOverKept(cfg, cs, c, |Sent(a.out)|, |Pending(a)|);
    forall k | 0 <= k < |a.out| ensures ChunkTight(cfg, a.out, cs + [c], k) {
      assert ChunkTight(cfg, a.out, cs, k);
      SentUpTo(a.out, k);
      NoneOverKept(cfg, cs, c, |Sent(a.out[..k])|, |Sent(a.out[..k])| + |a.out[k].batch|);
    }
    assert Flat(cs, cfg.accessor) + cfg.accessor(c)[..0] == Flat(cs, cfg.accessor);
  }

  lemma FlushTight<T, C>(cfg: Config<T, C>, a: Acc<T, C>, before: seq<C>, c: C, done: nat)
    requires Tight(cfg, a, before, c, done)
    ensures Tight(cfg, Flush(a), before, c, done)
  {
    hide NoneOver, Sent, Flat;
    SentSnoc(a.out, Chunk(a.batch, a.completed));
    NothingOver(cfg, before + [c], |Pending(a)|);
    var out := Flush(a).out;
    forall k | 0 <= k < |out| ensures ChunkTight(cfg, out, before + [c], k) {
      if k < |a.out| {
        assert ChunkTight(cfg, a.out, before + [c], k);
        assert out[..k] == a.out[..k];
      } else {
        assert out[..k] == a.out;
      }
    }
  }

  lemma NothingOver<T, C>(cfg: Config<T, C>, cs: seq<C>, n: nat)
    ensures NoneOver(cfg, cs, n, n)
  {
  }

  /** Adding items of group `j` keeps the chunk tight, if there is room for its container where it starts. */
  lemma PushTight<T, C>(cfg: Config<T, C>, a: Acc<T, C>, before: seq<C>, c: C, j: nat, start: nat, done: nat,
      xs: seq<T>)
    requires Tight(cfg, a, before, c, done) && Group(cfg, c, j, start)
    requires start <= done && done + |xs| <= start + |cfg.GroupsOf(c)[j]| && xs == cfg.accessor(c)[done..][..|xs|]
    requires done == start && a.batch != [] && cfg.Fits(|cfg.GroupsOf(c)[j]|) ==>
               cfg.Fits(|a.batch| + |cfg.accessor(c)|)
    ensures Tight(cfg, Push(a, c, xs, done + |xs| == |cfg.accessor(c)|), before, c, done + |xs|)
  {
    hide AllTight, Sent, Flat, Groups;
    PushAt(cfg, a, before, c, done, xs);
    var cs, from, n := before + [c], |Sent(a.out)|, |Pending(a)|;
    var end := n + |xs|;
    forall i2: nat, j2: nat ensures !Overflows(cfg, cs, from, end, i2, j2) {
      assert !Overflows(cfg, cs, from, n, i2, j2);
      if i2 < |cs| && j2 < |cfg.GroupsOf(cs[i2])| && n <= GroupStart(cfg, cs, i2, j2) < end {
        OnlyStart(cfg, before, c, j, start, i2, j2);
        StartOf(cfg, before, c, j, start);
      }
    }
  }

  lemma SeparateTight<T, C>(cfg: Config<T, C>, a: Acc<T, C>, before: seq<C>, c: C, done: nat, group: seq<T>)
    requires Tight(cfg, a, before, c, done)
    ensures Tight(cfg, Separate(cfg, a, group), before, c, done)
  {
    hide Tight;
    FlushTight(cfg, a, before, c, done);
  }

  /** One round of the loop over an oversized group. */
  lemma SliceTight<T, C>(cfg: Config<T, C>, a: Acc<T, C>, before: seq<C>, c: C, j: nat, start: nat, group: seq<T>,
      done: nat, take: nat)
    requires Rest(cfg, before, c, j, start, group, done) && Tight(cfg, a, before, c, done) && start <= done
    requires take <= |group|
    ensures Tight(cfg, Slice1(cfg, a, c, group, done, take), before, c, done + take)
  {
    RestShrinks(cfg, before, c, j, start, group, done, take);
    hide Tight, Group, Groups;
    PushTight(cfg, a, before, c, j, start, done, group[..take]);
    FlushTight(cfg, Push(a, c, group[..take], done + take == |cfg.accessor(c)|), before, c, done + take);
  }

  lemma {:induction false} SlicesTight<T, C>(cfg: Config<T, C>, a: Acc<T, C>, before: seq<C>, c: C, j: nat,
      start: nat, group: seq<T>, done: nat)
    requires Rest(cfg, before, c, j, start, group, done) && Tight(cfg, a, before, c, done) && start <= done
    requires |a.batch| <= cfg.max.value
    ensures Tight(cfg, Slices(a, c, group, done, |cfg.accessor(c)|, cfg.max.value), before, c, done + |group|)
    decreases |group|, |a.batch|
  {
    hide Tight, Group, Groups;
    if |group| > 0 {
      var take := Min(cfg.max.value - |a.batch|, |group|);
      SliceTight(cfg, a, before, c, j, start, group, done, take);
      RestShrinks(cfg, before, c, j, start, group, done, take);
      SlicesTight(cfg, Slice1(cfg, a, c, group, done, take), before, c, j, start, group[take..], done + take);
    }
  }

  lemma AddGroupTight<T, C>(cfg: Config<T, C>, a: Acc<T, C>, before: seq<C>, c: C, j: nat, done: nat)
    requires cfg.Valid() && cfg.Fits(|a.batch|) && Group(cfg, c, j, done) && Tight(cfg, a, before, c, done)
    ensures Tight(cfg, AddGroup(cfg, a, c, cfg.GroupsOf(c)[j], done), before, c, done + |cfg.GroupsOf(c)[j]|)
  {
    hide Tight, Groups;
    var g := cfg.GroupsOf(c)[j];
    SeparateTight(cfg, a, before, c, done, g);
    var b := Separate(cfg, a, g);
    if !cfg.Fits(|g|) {
      SlicesTight(cfg, b, before, c, j, done, g, done);
    } else {
      if !cfg.Fits(|b.batch| + |cfg.accessor(c)|) {
        FlushTight(cfg, b, before, c, done);
      }
      PushTight(cfg, MakeRoom(cfg, b, |cfg.accessor(c)|), before, c, j, done, done, g);
    }
  }

  lemma {:induction false} AddGroupsTight<T, C>(cfg: Config<T, C>, a: Acc<T, C>, before: seq<C>, c: C, n: nat)
    requires cfg.Valid() && cfg.Fits(|a.batch|) && n <= |cfg.GroupsOf(c)| && Tight(cfg, a, before, c, 0)
    ensures Tight(cfg, AddGroups(cfg, a, c, n), before, c, |Concat(cfg.GroupsOf(c)[..n])|)
  {
    hide Tight, AddGroup, Group;
    if n > 0 {
      AddGroupsTight(cfg, a, before, c, n - 1);
      GroupIs(cfg, c, n - 1);
      AddGroupTight(cfg, AddGroups(cfg, a, c, n - 1), before, c, n - 1, |Concat(cfg.GroupsOf(c)[..n - 1])|);
    }
  }

  lemma {:induction false} AddAllTight<T, C>(cfg: Config<T, C>, cs: seq<C>)
    requires cfg.Valid()
    ensures var a := AddAll(cfg, cs);
            && AllTight(cfg, a.out, cs) && NoneOver(cfg, cs, |Sent(a.out)|, |Pending(a)|)
            && Pending(a) == Flat(cs, cfg.accessor)
  {
    if |cs| > 0 {
      hide AllTight, AddGroups, Groups, NoneOver;
      var before, c := cs[..|cs| - 1], cs[|cs| - 1];
      assert cs == before + [c];
      var a, n := AddAll(cfg, before), |cfg.GroupsOf(c)|;
      AddAllTight(cfg, before);
      TightNext(cfg, a, before, c);
      AddGroupsTight(cfg, a, before, c, n);
      GroupsAreMaximalRuns(cfg.accessor(c), cfg.grouping);
      assert cfg.GroupsOf(c)[..n] == cfg.GroupsOf(c);
      assert cfg.accessor(c)[..|cfg.accessor(c)|] == cfg.accessor(c);
    }
  }

  /** Containers are kept together as far as possible: no group that fits into a chunk starts within one that
      does not have room for its whole container. */
  lemma ContainersKeptTogether<T, C>(cfg: Config<T, C>, cs: seq<C>, k: nat)
    requires cfg.Valid() && k < |Chunks(cfg, cs)|
    ensures var chunks := Chunks(cfg, cs);
            NoneOver(cfg, cs, |Sent(chunks[..k])|, |Sent(chunks[..k])| + |chunks[k].batch|)
  {
    hide NoneOver, Sent;
    AddAllTight(cfg, cs);
    var a := AddAll(cfg, cs);
    var chunks := Chunks(cfg, cs);
    if k < |a.out| {
      assert ChunkTight(cfg, a.out, cs, k);
      assert chunks[..k] == a.out[..k];
    } else {
      assert chunks[..k] == a.out;
    }
  }
}
