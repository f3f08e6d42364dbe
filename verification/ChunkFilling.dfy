/** No chunk of `batch` ends without a reason: packages/core/src/internal/batching/helper.ts:42-90. */
module ChunkFilling {
  import opened Wrappers
  import opened Sequences
  import opened Batching
  import opened Chunking

  /** The items on both sides of the cut must not share a chunk. */
  predicate Parted<T, C>(cfg: Config<T, C>, cs: seq<C>, from: nat, n: nat) {
    var all := Flat(cs, cfg.accessor);
    from < n < |all| && !cfg.grouping(all[n - 1], all[n])
  }

  /** Behind the cut starts a group whose whole container would not fit into the chunk. */
  predicate Crowded<T, C>(cfg: Config<T, C>, cs: seq<C>, from: nat, n: nat, i: nat, j: nat) {
    && i < |cs| && j < |cfg.GroupsOf(cs[i])| && n == GroupStart(cfg, cs, i, j)
    && from <= n && !cfg.Fits(n - from + |cfg.accessor(cs[i])|)
  }

  /** In front of the cut ends a group that is too large for any chunk. */
  predicate Spilled<T, C>(cfg: Config<T, C>, cs: seq<C>, n: nat, i: nat, j: nat) {
    && i < |cs| && j < |cfg.GroupsOf(cs[i])| && !cfg.Fits(|cfg.GroupsOf(cs[i])[j]|)
    && n == GroupStart(cfg, cs, i, j) + |cfg.GroupsOf(cs[i])[j]|
  }

  /** Why a chunk that starts with item `from` ends in front of item `n`. */
  ghost predicate Reason<T, C>(cfg: Config<T, C>, cs: seq<C>, from: nat, n: nat) {
    || (cfg.max.Some? && n == from + cfg.max.value)
    || Parted(cfg, cs, from, n)
    || (exists i: nat, j: nat :: Crowded(cfg, cs, from, n, i, j))
    || (exists i: nat, j: nat :: Spilled(cfg, cs, n, i, j))
  }

  ghost predicate EndsRightly<T, C>(cfg: Config<T, C>, chunks: seq<Chunk<T, C>>, cs: seq<C>, k: nat)
    requires k < |chunks|
  {
    Reason(cfg, cs, |Sent(chunks[..k])|, |Sent(chunks[..k])| + |chunks[k].batch|)
  }

  ghost predicate AllReasoned<T, C>(cfg: Config<T, C>, chunks: seq<Chunk<T, C>>, cs: seq<C>) {
    forall k | 0 <= k < |chunks| :: EndsRightly(cfg, chunks, cs, k)
  }

  lemma ReasonKept<T, C>(cfg: Config<T, C>, cs: seq<C>, c: C, from: nat, n: nat)
    requires Reason(cfg, cs, from, n)
    ensures Reason(cfg, cs + [c], from, n)
  {
    FlatSnoc(cs, c, cfg.accessor);
    var more := cs + [c];
    if i: nat, j: nat :| Crowded(cfg, cs, from, n, i, j) {
      assert more[..i] == cs[..i];
      assert Crowded(cfg, more, from, n, i, j);
    } else if i: nat, j: nat :| Spilled(cfg, cs, n, i, j) {
      assert more[..i] == cs[..i];
      assert Spilled(cfg, more, n, i, j);
    }
  }

  lemma AllKept<T, C>(cfg: Config<T, C>, chunks: seq<Chunk<T, C>>, cs: seq<C>, c: C)
    requires AllReasoned(cfg, chunks, cs)
    ensures AllReasoned(cfg, chunks, cs + [c])
  {
    forall k | 0 <= k < |chunks| ensures EndsRightly(cfg, chunks, cs + [c], k) {
      assert EndsRightly(cfg, chunks, cs, k);
      ReasonKept(cfg, cs, c, |Sent(chunks[..k])|, |Sent(chunks[..k])| + |chunks[k].batch|);
    }
  }

  lemma FlushReasoned<T, C>(cfg: Config<T, C>, a: Acc<T, C>, cs: seq<C>)
    requires AllReasoned(cfg, a.out, cs) && Reason(cfg, cs, |Sent(a.out)|, |Pending(a)|)
    ensures AllReasoned(cfg, Flush(a).out, cs)
  {
    hide Reason, Sent;
    var out := Flush(a).out;
    forall k | 0 <= k < |out| ensures EndsRightly(cfg, out, cs, k) {
      if k < |a.out| {
        assert EndsRightly(cfg, a.out, cs, k);
        assert out[..k] == a.out[..k];
      } else {
        assert out[..k] == a.out;
      }
    }
  }

  /** `a` stands behind the first `done` items of `c`, and every chunk so far has ended with a reason. */
  ghost predicate Standing<T, C>(cfg: Config<T, C>, a: Acc<T, C>, before: seq<C>, c: C, done: nat) {
    AllReasoned(cfg, a.out, before + [c]) && At(cfg, a, before, c, done)
  }

  lemma PushReasoned<T, C>(cfg: Config<T, C>, a: Acc<T, C>, before: seq<C>, c: C, done: nat, xs: seq<T>)
    requires Standing(cfg, a, before, c, done)
    requires done + |xs| <= |cfg.accessor(c)| && xs == cfg.accessor(c)[done..][..|xs|]
    ensures Standing(cfg, Push(a, c, xs, done + |xs| == |cfg.accessor(c)|), before, c, done + |xs|)
  {
    hide AllReasoned, Sent, Flat;
    PushAt(cfg, a, before, c, done, xs);
  }

  lemma FlushStanding<T, C>(cfg: Config<T, C>, a: Acc<T, C>, before: seq<C>, c: C, done: nat)
    requires Standing(cfg, a, before, c, done) && Reason(cfg, before + [c], |Sent(a.out)|, |Pending(a)|)
    ensures Standing(cfg, Flush(a), before, c, done)
  {
    hide AllReasoned, Reason;
    FlushReasoned(cfg, a, before + [c]);
    SentSnoc(a.out, Chunk(a.batch, a.completed));
  }

  /** What is known about group `j` of `c`, which starts behind `done` items of `c`. */
  ghost predicate Group<T, C>(cfg: Config<T, C>, c: C, j: nat, done: nat) {
    && j < |cfg.GroupsOf(c)| && done == |Concat(cfg.GroupsOf(c)[..j])|
    && var g := cfg.GroupsOf(c)[j];
       g != [] && done + |g| <= |cfg.accessor(c)| && g == cfg.accessor(c)[done..][..|g|]
  }

  lemma SeparateReasoned<T, C>(cfg: Config<T, C>, a: Acc<T, C>, before: seq<C>, c: C, j: nat, done: nat)
    requires Standing(cfg, a, before, c, done) && Group(cfg, c, j, done)
    ensures Standing(cfg, Separate(cfg, a, cfg.GroupsOf(c)[j]), before, c, done)
  {
    var g := cfg.GroupsOf(c)[j];
    if Separate(cfg, a, g) != a {
      var all, n := Flat(before + [c], cfg.accessor), |Pending(a)|;
      FlatSnoc(before, c, cfg.accessor);
      assert all[n] == cfg.accessor(c)[done] == g[0];
      assert all[n - 1] == Pending(a)[n - 1] == a.batch[|a.batch| - 1];
      assert Parted(cfg, before + [c], |Sent(a.out)|, n);
      FlushStanding(cfg, a, before, c, done);
    }
  }

  lemma StartOf<T, C>(cfg: Config<T, C>, before: seq<C>, c: C, j: nat, done: nat)
    requires Group(cfg, c, j, done)
    ensures (before + [c])[|before|] == c
        && GroupStart(cfg, before + [c], |before|, j) == |Flat(before, cfg.accessor)| + done
  {
    assert (before + [c])[..|before|] == before;
  }

  lemma MakeRoomReasoned<T, C>(cfg: Config<T, C>, a: Acc<T, C>, before: seq<C>, c: C, j: nat, done: nat)
    requires Standing(cfg, a, before, c, done) && Group(cfg, c, j, done)
    ensures Standing(cfg, MakeRoom(cfg, a, |cfg.accessor(c)|), before, c, done)
  {
    if !cfg.Fits(|a.batch| + |cfg.accessor(c)|) {
      StartOf(cfg, before, c, j, done);
      assert Crowded(cfg, before + [c], |Sent(a.out)|, |Pending(a)|, |before|, j);
      FlushStanding(cfg, a, before, c, done);
    }
  }

  /** `group` is what is left of group `j` of `c`, which is too large for a chunk. */
  ghost predicate Rest<T, C>(cfg: Config<T, C>, before: seq<C>, c: C, j: nat, start: nat, group: seq<T>, done: nat) {
    && Group(cfg, c, j, start) && cfg.max.Some? && cfg.max.value > 0 && !cfg.Fits(|cfg.GroupsOf(c)[j]|)
    && done + |group| == start + |cfg.GroupsOf(c)[j]|
    && done + |group| <= |cfg.accessor(c)| && group == cfg.accessor(c)[done..][..|group|]
  }

  lemma SliceReasoned<T, C>(cfg: Config<T, C>, a: Acc<T, C>, before: seq<C>, c: C, j: nat, start: nat, group: seq<T>,
      done: nat, take: nat)
    requires Rest(cfg, before, c, j, start, group, done) && Standing(cfg, a, before, c, done)
    requires |a.batch| <= cfg.max.value && take == Min(cfg.max.value - |a.batch|, |group|)
    ensures Standing(cfg, Slice1(cfg, a, c, group, done, take), before, c, done + take)
    ensures Rest(cfg, before, c, j, start, group[take..], done + take)
  {
    RestShrinks(cfg, before, c, j, start, group, done, take);
    hide AllReasoned, Sent, Flat, Group, Reason, Groups;
    var xs := group[..take];
    var b := Push(a, c, xs, done + take == |cfg.accessor(c)|);
    PushReasoned(cfg, a, before, c, done, xs);
    if take == |group| {
      RestEnds(cfg, b, before, c, j, start, done + take);
    } else {
      assert |Pending(b)| == |Sent(a.out)| + cfg.max.value;
      FullIsReason(cfg, before + [c], |Sent(a.out)|);
    }
    FlushStanding(cfg, b, before, c, done + take);
  }

  lemma RestShrinks<T, C>(cfg: Config<T, C>, before: seq<C>, c: C, j: nat, start: nat, group: seq<T>, done: nat,
      take: nat)
    requires Rest(cfg, before, c, j, start, group, done) && take <= |group|
    ensures Rest(cfg, before, c, j, start, group[take..], done + take)
    ensures done + take <= |cfg.accessor(c)| && group[..take] == cfg.accessor(c)[done..][..take]
  {
    hide Group, Groups;
  }

  lemma FullIsReason<T, C>(cfg: Config<T, C>, cs: seq<C>, from: nat)
    requires cfg.max.Some?
    ensures Reason(cfg, cs, from, from + cfg.max.value)
  {
  }

  lemma RestEnds<T, C>(cfg: Config<T, C>, b: Acc<T, C>, before: seq<C>, c: C, j: nat, start: nat, done: nat)
    requires Rest(cfg, before, c, j, start, [], done) && At(cfg, b, before, c, done)
    ensures Reason(cfg, before + [c], |Sent(b.out)|, |Pending(b)|)
  {
    hide Sent, Flat, Groups;
    StartOf(cfg, before, c, j, start);
    assert Spilled(cfg, before + [c], |Pending(b)|, |before|, j);
  }

  lemma {:induction false} SlicesReasoned<T, C>(cfg: Config<T, C>, a: Acc<T, C>, before: seq<C>, c: C, j: nat,
      start: nat, group: seq<T>, done: nat)
    requires Rest(cfg, before, c, j, start, group, done) && Standing(cfg, a, before, c, done)
    requires |a.batch| <= cfg.max.value
    ensures Standing(cfg, Slices(a, c, group, done, |cfg.accessor(c)|, cfg.max.value), before, c, done + |group|)
    decreases |group|, |a.batch|
  {
    hide Standing, Group;
    if |group| > 0 {
      var take := Min(cfg.max.value - |a.batch|, |group|);
      SliceReasoned(cfg, a, before, c, j, start, group, done, take);
      SlicesReasoned(cfg, Slice1(cfg, a, c, group, done, take), before, c, j, start, group[take..], done + take);
    }
  }

  lemma AddGroupReasoned<T, C>(cfg: Config<T, C>, a: Acc<T, C>, before: seq<C>, c: C, j: nat, done: nat)
    requires cfg.Valid() && cfg.Fits(|a.batch|) && Group(cfg, c, j, done) && Standing(cfg, a, before, c, done)
    ensures Standing(cfg, AddGroup(cfg, a, c, cfg.GroupsOf(c)[j], done), before, c, done + |cfg.GroupsOf(c)[j]|)
  {
    hide Standing, Groups;
    var g := cfg.GroupsOf(c)[j];
    SeparateReasoned(cfg, a, before, c, j, done);
    var b := Separate(cfg, a, g);
    if !cfg.Fits(|g|) {
      SlicesReasoned(cfg, b, before, c, j, done, g, done);
    } else {
      MakeRoomReasoned(cfg, b, before, c, j, done);
      PushReasoned(cfg, MakeRoom(cfg, b, |cfg.accessor(c)|), before, c, done, g);
    }
  }

  lemma GroupIs<T, C>(cfg: Config<T, C>, c: C, j: nat)
    requires j < |cfg.GroupsOf(c)|
    ensures Group(cfg, c, j, |Concat(cfg.GroupsOf(c)[..j])|)
    ensures |Concat(cfg.GroupsOf(c)[..j + 1])| == |Concat(cfg.GroupsOf(c)[..j])| + |cfg.GroupsOf(c)[j]|
  {
    GroupFits(cfg, c, j);
    GroupEnd(cfg, c, j);
    GroupsAreMaximalRuns(cfg.accessor(c), cfg.grouping);
  }

  lemma {:induction false} AddGroupsReasoned<T, C>(cfg: Config<T, C>, a: Acc<T, C>, before: seq<C>, c: C, n: nat)
    requires cfg.Valid() && cfg.Fits(|a.batch|) && n <= |cfg.GroupsOf(c)| && Standing(cfg, a, before, c, 0)
    ensures Standing(cfg, AddGroups(cfg, a, c, n), before, c, |Concat(cfg.GroupsOf(c)[..n])|)
  {
    hide Standing, AddGroup, Group;
    if n > 0 {
      AddGroupsReasoned(cfg, a, before, c, n - 1);
      GroupIs(cfg, c, n - 1);
      AddGroupReasoned(cfg, AddGroups(cfg, a, c, n - 1), before, c, n - 1, |Concat(cfg.GroupsOf(c)[..n - 1])|);
    }
  }

  lemma {:induction false} AddAllReasoned<T, C>(cfg: Config<T, C>, cs: seq<C>)
    requires cfg.Valid()
    ensures AllReasoned(cfg, AddAll(cfg, cs).out, cs) && Pending(AddAll(cfg, cs)) == Flat(cs, cfg.accessor)
  {
    if |cs| > 0 {
      hide AllReasoned, AddGroups, Groups;
      var before, c := cs[..|cs| - 1], cs[|cs| - 1];
      assert cs == before + [c];
      var a, n := AddAll(cfg, before), |cfg.GroupsOf(c)|;
      AddAllReasoned(cfg, before);
      AllKept(cfg, a.out, before, c);
      AddGroupsReasoned(cfg, a, before, c, n);
      GroupsAreMaximalRuns(cfg.accessor(c), cfg.grouping);
      assert cfg.GroupsOf(c)[..n] == cfg.GroupsOf(c);
      assert cfg.accessor(c)[..|cfg.accessor(c)|] == cfg.accessor(c);
    }
  }

  /** Chunks are filled up: unless it is the last, a chunk ends only because it is full, because the next
      item must not join it, because the container of the next group would not fit in as a whole, or behind
      a group that is too large for any chunk. */
  lemma ChunksAreFilled<T, C>(cfg: Config<T, C>, cs: seq<C>, k: nat)
    requires cfg.Valid() && k < |Chunks(cfg, cs)|
    ensures var chunks := Chunks(cfg, cs);
            var n := |Sent(chunks[..k])| + |chunks[k].batch|;
            n == |Flat(cs, cfg.accessor)| || Reason(cfg, cs, |Sent(chunks[..k])|, n)
  {
    hide Reason, Sent;
    AddAllReasoned(cfg, cs);
    var a := AddAll(cfg, cs);
    var chunks := Chunks(cfg, cs);
    if k < |a.out| {
      assert EndsRightly(cfg, a.out, cs, k);
      assert chunks[..k] == a.out[..k];
    } else {
      assert chunks[..k] == a.out;
    }
  }

  /** Items of one group that fit into one chunk go out in one chunk. */
  lemma OneChunk<T, C>(cfg: Config<T, C>, cs: seq<C>)
    requires cfg.Valid() && |Flat(cs, cfg.accessor)| > 0 && cfg.Fits(|Flat(cs, cfg.accessor)|)
    requires Homogeneous(Flat(cs, cfg.accessor), cfg.grouping)
    ensures |Chunks(cfg, cs)| == 1 && Chunks(cfg, cs)[0].batch == Flat(cs, cfg.accessor)
  {
    hide Flat, Homogeneous, Reason, Chunks;
    var all, chunks := Flat(cs, cfg.accessor), Chunks(cfg, cs);
    ChunksAreFaithful(cfg, cs);
    SomeChunk(cfg, chunks, cs);
    ChunksAreFilled(cfg, cs, 0);
    FirstSent(chunks);
    if |chunks[0].batch| < |all| {
      NoReason(cfg, cs, |chunks[0].batch|);
    }
    NoneBehind(cfg, chunks, cs);
  }

  lemma SomeChunk<T, C>(cfg: Config<T, C>, chunks: seq<Chunk<T, C>>, cs: seq<C>)
    requires Faithful(cfg, chunks, cs) && |Flat(cs, cfg.accessor)| > 0
    ensures |chunks| > 0 && |chunks[0].batch| <= |Flat(cs, cfg.accessor)|
  {
    hide Flat, CleanCut, FullyWithin;
    assert |chunks| > 0;
    assert Boundary(cfg, chunks, cs, 1);
    FirstSent(chunks);
  }

  lemma FirstSent<T, C>(chunks: seq<Chunk<T, C>>)
    requires |chunks| > 0
    ensures Sent(chunks[..0]) == [] && Sent(chunks[..1]) == chunks[0].batch
  {
    assert chunks[..1][..0] == [];
  }

  lemma NoneBehind<T, C>(cfg: Config<T, C>, chunks: seq<Chunk<T, C>>, cs: seq<C>)
    requires Faithful(cfg, chunks, cs) && |chunks| > 0 && |chunks[0].batch| == |Flat(cs, cfg.accessor)|
    ensures |chunks| == 1 && chunks[0].batch == Flat(cs, cfg.accessor)
  {
    hide Flat, CleanCut, FullyWithin;
    FirstSent(chunks);
    if |chunks| > 1 {
      ItemsLeft(cfg, chunks, cs, 1);
    }
    assert chunks[..1] == chunks;
  }

  lemma ItemsLeft<T, C>(cfg: Config<T, C>, chunks: seq<Chunk<T, C>>, cs: seq<C>, k: nat)
    requires Faithful(cfg, chunks, cs) && k < |chunks|
    ensures |Sent(chunks[..k])| < |Flat(cs, cfg.accessor)|
  {
    assert Useful(cfg, chunks, cs, k);
  }

  lemma NoReason<T, C>(cfg: Config<T, C>, cs: seq<C>, n: nat)
    requires cfg.Fits(|Flat(cs, cfg.accessor)|) && Homogeneous(Flat(cs, cfg.accessor), cfg.grouping)
    requires n < |Flat(cs, cfg.accessor)|
    ensures !Reason(cfg, cs, 0, n)
  {
    hide Flat;
    forall i: nat, j: nat ensures !Crowded(cfg, cs, 0, n, i, j) && !Spilled(cfg, cs, n, i, j) {
      if i < |cs| && j < |cfg.GroupsOf(cs[i])| {
        OneGroup(cfg, cs, i, j);
      }
    }
  }

  lemma OneGroup<T, C>(cfg: Config<T, C>, cs: seq<C>, i: nat, j: nat)
    requires Homogeneous(Flat(cs, cfg.accessor), cfg.grouping) && i < |cs| && j < |cfg.GroupsOf(cs[i])|
    ensures GroupStart(cfg, cs, i, j) + |cfg.accessor(cs[i])| <= |Flat(cs, cfg.accessor)|
    ensures |cfg.GroupsOf(cs[i])[j]| <= |Flat(cs, cfg.accessor)|
  {
    hide Flat, Groups, Homogeneous;
    OneOfMany(cfg.accessor, cs, i, cfg.grouping);
    GroupFits(cfg, cs[i], j);
    NoSecondGroup(cfg.accessor(cs[i]), cfg.grouping);
    assert cfg.GroupsOf(cs[i])[..0] == [];
  }

  /** The items of one container among all items. */
  lemma OneOfMany<T, C>(accessor: C -> seq<T>, cs: seq<C>, i: nat, grouping: (T, T) -> bool)
    requires i < |cs| && Homogeneous(Flat(cs, accessor), grouping)
    ensures |Flat(cs[..i], accessor)| + |accessor(cs[i])| <= |Flat(cs, accessor)|
    ensures Homogeneous(accessor(cs[i]), grouping)
  {
    var all, items, start := Flat(cs, accessor), accessor(cs[i]), |Flat(cs[..i], accessor)|;
    FlatPrefix(cs, i + 1, accessor);
    assert cs[..i + 1] == cs[..i] + [cs[i]];
    FlatSnoc(cs[..i], cs[i], accessor);
    hide Flat;
    assert forall x | 0 <= x < |items| :: items[x] == all[start + x];
  }

  lemma NoSecondGroup<T>(items: seq<T>, grouping: (T, T) -> bool)
    requires Homogeneous(items, grouping)
    ensures |Groups(items, grouping)| <= 1
  {
    if |Groups(items, grouping)| > 1 {
      TwoGroups(items, grouping, 1);
    }
  }

  /** Where group `j` starts the neighbours do not go together. */
  lemma TwoGroups<T>(items: seq<T>, grouping: (T, T) -> bool, j: nat)
    requires 0 < j < |Groups(items, grouping)|
    ensures var m := |Concat(Groups(items, grouping)[..j])|;
            0 < m < |items| && !grouping(items[m - 1], items[m])
  {
    var gs := Groups(items, grouping);
    GroupsAreMaximalRuns(items, grouping);
    hide Groups;
    var m, p := |Concat(gs[..j])|, |Concat(gs[..j - 1])|;
    assert gs[..j] == gs[..j - 1] + [gs[j - 1]];
    ConcatSnoc(gs[..j - 1], gs[j - 1]);
    assert gs == gs[..j] + [gs[j]] + gs[j + 1..];
    ConcatSnoc(gs[..j], gs[j]);
    ConcatAppend(gs[..j] + [gs[j]], gs[j + 1..]);
    assert !grouping(gs[j - 1][|gs[j - 1]| - 1], gs[j][0]);
  }
}
