/** The chunking of handler outputs: packages/core/src/internal/batching/helper.ts, `groupBy` and `batch`. */
module Batching {
  import opened Wrappers
  import opened Sequences

  /** One value yielded by `batch`: the items to send and the containers completed by sending them. */
  datatype Chunk<+T, +C> = Chunk(batch: seq<T>, completed: seq<C>)

  // ---------- groupBy ----------

  ghost predicate Homogeneous<T>(items: seq<T>, grouping: (T, T) -> bool) {
    forall i, j | 0 <= i < j < |items| && j == i + 1 :: grouping(items[i], items[j])
  }

  /** The maximal runs of neighbours that `grouping` allows to go together. */
  function Groups<T>(items: seq<T>, grouping: (T, T) -> bool): (gs: seq<seq<T>>)
    ensures items != [] ==> gs != []
  {
    var n := |items| - 1;
    if n < 0 then []
    else if n == 0 then [items]
    else
      var gs := Groups(items[..n], grouping);
      if grouping(items[n - 1], items[n])
      then gs[..|gs| - 1] + [gs[|gs| - 1] + [items[n]]]
      else gs + [[items[n]]]
  }

  ghost predicate NonEmptyRuns<T>(gs: seq<seq<T>>, grouping: (T, T) -> bool) {
    forall i :: 0 <= i < |gs| ==> gs[i] != [] && Homogeneous(gs[i], grouping)
  }

  ghost predicate Maximal<T>(gs: seq<seq<T>>, grouping: (T, T) -> bool)
    requires NonEmptyRuns(gs, grouping)
  {
    forall i, j | 0 <= i < j < |gs| && j == i + 1 :: !grouping(gs[i][|gs[i]| - 1], gs[j][0])
  }

  function Extend<T>(gs: seq<seq<T>>, x: T): seq<seq<T>>
    requires gs != []
  {
    gs[..|gs| - 1] + [gs[|gs| - 1] + [x]]
  }

  lemma GroupsSnoc<T>(items: seq<T>, x: T, grouping: (T, T) -> bool)
    requires items != []
    ensures var gs := Groups(items, grouping);
            Groups(items + [x], grouping)
            == if grouping(items[|items| - 1], x) then Extend(gs, x) else gs + [[x]]
  {
  }

  ghost predicate RunsOf<T>(gs: seq<seq<T>>, items: seq<T>, grouping: (T, T) -> bool) {
    && Concat(gs) == items
    && NonEmptyRuns(gs, grouping)
    && Maximal(gs, grouping)
    && (gs != [] ==> items != [] && Last(gs[|gs| - 1]) == Last(items))
  }

  function Last<T>(s: seq<T>): T
    requires s != []
  {
    s[|s| - 1]
  }

  lemma ExtendRuns<T>(gs: seq<seq<T>>, items: seq<T>, x: T, grouping: (T, T) -> bool)
    requires RunsOf(gs, items, grouping) && gs != [] && grouping(Last(items), x)
    ensures RunsOf(Extend(gs, x), items + [x], grouping)
  {
  }

  lemma StartRun<T>(gs: seq<seq<T>>, items: seq<T>, x: T, grouping: (T, T) -> bool)
    requires RunsOf(gs, items, grouping) && gs != [] && !grouping(Last(items), x)
    ensures RunsOf(gs + [[x]], items + [x], grouping)
  {
  }

  lemma {:induction false} GroupsAreMaximalRuns<T>(items: seq<T>, grouping: (T, T) -> bool)
    ensures RunsOf(Groups(items, grouping), items, grouping)
  {
    if |items| == 1 {
      ConcatSnoc([], items);
      assert [] + [items] == [items];
    } else if items != [] {
      var n := |items| - 1;
      var init, x := items[..n], items[n];
      assert items == init + [x];
      GroupsAreMaximalRuns(init, grouping);
      GroupsSnoc(init, x, grouping);
      if grouping(Last(init), x) {
        ExtendRuns(Groups(init, grouping), init, x, grouping);
      } else {
        StartRun(Groups(init, grouping), init, x, grouping);
      }
    }
  }

  /** `groups` and the group being built are what the first `i` items make. */
  ghost predicate Grouped<T>(groups: seq<seq<T>>, group: seq<T>, items: seq<T>, i: nat, grouping: (T, T) -> bool)
    requires i <= |items|
  {
    if i == 0 then groups == [] && group == [] else |group| > 0 && groups + [group] == Groups(items[..i], grouping)
  }

  lemma ExtendLast<T>(groups: seq<seq<T>>, group: seq<T>, x: T)
    ensures Extend(groups + [group], x) == groups + [group + [x]]
  {
    assert (groups + [group])[..|groups|] == groups;
  }

  lemma GroupedSnoc<T>(groups: seq<seq<T>>, group: seq<T>, items: seq<T>, i: nat, grouping: (T, T) -> bool)
    requires i < |items| && Grouped(groups, group, items, i, grouping)
    ensures if i == 0 || grouping(items[i - 1], items[i])
            then Grouped(groups, group + [items[i]], items, i + 1, grouping)
            else Grouped(groups + [group], [items[i]], items, i + 1, grouping)
  {
    if i == 0 {
      assert items[..1] == [items[0]] && [] + [items[0]] == [items[0]];
    } else {
      hide Groups, Extend;
      assert items[..i + 1] == items[..i] + [items[i]];
      GroupsSnoc(items[..i], items[i], grouping);
      ExtendLast(groups, group, items[i]);
    }
  }

  lemma GroupedAll<T>(groups: seq<seq<T>>, group: seq<T>, items: seq<T>, grouping: (T, T) -> bool)
    requires Grouped(groups, group, items, |items|, grouping)
    ensures Groups(items, grouping) == if |group| > 0 then groups + [group] else groups
  {
    assert items[..|items|] == items;
  }

  method GroupBy<T>(items: seq<T>, grouping: (T, T) -> bool) returns (groups: seq<seq<T>>)
    ensures groups == Groups(items, grouping)
  {
    groups := [];
    var group: seq<T> := [];
    assert Grouped(groups, group, items, 0, grouping);
    hide Grouped, Groups;
    for i := 0 to |items|
      invariant Grouped(groups, group, items, i, grouping)
    {
      GroupedSnoc(groups, group, items, i, grouping);
      if i == 0 || grouping(items[i - 1], items[i]) {
        group := group + [items[i]];
      } else {
        groups := groups + [group];
        group := [items[i]];
      }
    }
    GroupedAll(groups, group, items, grouping);
    if |group| > 0 {
      groups := groups + [group];
    }
  }

  // ---------- batch ----------

  /** What `batch` is called with: where a container's items come from, which neighbours may
      share a chunk, and the largest chunk (absent when the sink does not limit it). */
  datatype Config<!T, !C> = Config(accessor: C -> seq<T>, grouping: (T, T) -> bool, max: Option<nat>) {
    predicate Valid() {
      max.Some? ==> max.value > 0
    }

    predicate Fits(n: nat) {
      max.Some? ==> n <= max.value
    }

    function GroupsOf(c: C): seq<seq<T>> {
      Groups(accessor(c), grouping)
    }
  }

  /** The local variables of `batch` between two statements, with the chunks yielded so far. */
  datatype Acc<T, C> = Acc(out: seq<Chunk<T, C>>, batch: seq<T>, completed: seq<C>)

  function Flush<T, C>(a: Acc<T, C>): Acc<T, C> {
    Acc(a.out + [Chunk(a.batch, a.completed)], [], [])
  }

  function Push<T, C>(a: Acc<T, C>, c: C, xs: seq<T>, last: bool): Acc<T, C> {
    Acc(a.out, a.batch + xs, if last then a.completed + [c] else a.completed)
  }

  function Min(a: nat, b: nat): nat {
    if a < b then a else b
  }

  /** A group larger than the maximum: filled up and yielded slice by slice. */
  function Slices<T, C>(a: Acc<T, C>, c: C, group: seq<T>, done: nat, total: nat, max: nat): (r: Acc<T, C>)
    requires 0 < max && |a.batch| <= max
    ensures |r.batch| <= max
    decreases |group|, |a.batch|
  {
    if |group| == 0 then a
    else
      var take := Min(max - |a.batch|, |group|);
      Slices(Flush(Push(a, c, group[..take], done + take == total)), c, group[take..], done + take, total, max)
  }

  function Separate<T, C>(cfg: Config<T, C>, a: Acc<T, C>, group: seq<T>): (r: Acc<T, C>)
    ensures cfg.Fits(|a.batch|) ==> cfg.Fits(|r.batch|)
  {
    if |a.batch| > 0 && |group| > 0 && !cfg.grouping(a.batch[|a.batch| - 1], group[0]) then Flush(a) else a
  }

  function MakeRoom<T, C>(cfg: Config<T, C>, a: Acc<T, C>, total: nat): (r: Acc<T, C>)
    ensures cfg.Fits(|a.batch|) ==> cfg.Fits(|r.batch|)
  {
    if cfg.Fits(|a.batch| + total) then a else Flush(a)
  }

  function AddGroup<T, C>(cfg: Config<T, C>, a: Acc<T, C>, c: C, group: seq<T>, done: nat): (r: Acc<T, C>)
    requires cfg.Valid() && cfg.Fits(|a.batch|) && |group| <= |cfg.accessor(c)|
    ensures cfg.Fits(|r.batch|)
  {
    var total := |cfg.accessor(c)|;
    var a := Separate(cfg, a, group);
    if !cfg.Fits(|group|) then
      Slices(a, c, group, done, total, cfg.max.value)
    else
      Push(MakeRoom(cfg, a, total), c, group, done + |group| == total)
  }

  /** The first `n` groups of container `c`. */
  function AddGroups<T, C>(cfg: Config<T, C>, a: Acc<T, C>, c: C, n: nat): (r: Acc<T, C>)
    requires cfg.Valid() && cfg.Fits(|a.batch|) && n <= |cfg.GroupsOf(c)|
    ensures cfg.Fits(|r.batch|)
  {
    if n == 0 then a
    else
      GroupFits(cfg, c, n - 1);
      AddGroup(cfg, AddGroups(cfg, a, c, n - 1), c, cfg.GroupsOf(c)[n - 1], |Concat(cfg.GroupsOf(c)[..n - 1])|)
  }

  function AddAll<T, C>(cfg: Config<T, C>, cs: seq<C>): (r: Acc<T, C>)
    requires cfg.Valid()
    ensures cfg.Fits(|r.batch|)
  {
    if |cs| == 0 then Acc([], [], [])
    else
      var c := cs[|cs| - 1];
      AddGroups(cfg, AddAll(cfg, cs[..|cs| - 1]), c, |cfg.GroupsOf(c)|)
  }

  function Finish<T, C>(a: Acc<T, C>): seq<Chunk<T, C>> {
    if |a.batch| > 0 then a.out + [Chunk(a.batch, a.completed)] else a.out
  }

  /** The chunks `batch` yields. */
  function Chunks<T, C>(cfg: Config<T, C>, cs: seq<C>): seq<Chunk<T, C>>
    requires cfg.Valid()
  {
    Finish(AddAll(cfg, cs))
  }

  lemma GroupFits<T, C>(cfg: Config<T, C>, c: C, i: nat)
    requires i < |cfg.GroupsOf(c)|
    ensures |Concat(cfg.GroupsOf(c)[..i])| + |cfg.GroupsOf(c)[i]| <= |cfg.accessor(c)|
    ensures cfg.GroupsOf(c)[i] == cfg.accessor(c)[|Concat(cfg.GroupsOf(c)[..i])|..][..|cfg.GroupsOf(c)[i]|]
  {
    var gs := cfg.GroupsOf(c);
    GroupsAreMaximalRuns(cfg.accessor(c), cfg.grouping);
    assert gs == gs[..i + 1] + gs[i + 1..] && gs[..i + 1] == gs[..i] + [gs[i]];
    ConcatAppend(gs[..i + 1], gs[i + 1..]);
    ConcatSnoc(gs[..i], gs[i]);
  }

  /** helper.ts:55-69, the inner `while` of `batch`. */
  method BatchSlices<T, C>(start: Acc<T, C>, container: C, all: seq<T>, before: nat, total: nat, max: nat)
      returns (a: Acc<T, C>)
    requires 0 < max && |start.batch| <= max
    ensures a == Slices(start, container, all, before, total, max)
  {
    a := start;
    var group, done := all, before;
    while |group| > 0
      invariant |a.batch| <= max
      invariant Slices(a, container, group, done, total, max) == Slices(start, container, all, before, total, max)
      decreases |group|, |a.batch|
    {
      var take := Min(max - |a.batch|, |group|);
      var batch := a.batch + group[..take];
      done := done + take;
      var completed := if done == total then a.completed + [container] else a.completed;
      a := Acc(a.out + [Chunk(batch, completed)], [], []);
      group := group[take..];
    }
  }

  /** helper.ts:42-84, the body of the loop over the groups of a container. */
  method BatchGroup<T, C>(cfg: Config<T, C>, start: Acc<T, C>, container: C, group: seq<T>,
      done: nat) returns (a: Acc<T, C>)
    requires cfg.Valid() && cfg.Fits(|start.batch|) && |group| <= |cfg.accessor(container)|
    ensures a == AddGroup(cfg, start, container, group, done)
  {
    a := start;
    var total := |cfg.accessor(container)|;
    if |a.batch| > 0 && |group| > 0 && !cfg.grouping(a.batch[|a.batch| - 1], group[0]) {
      a := Acc(a.out + [Chunk(a.batch, a.completed)], [], []);
    }
    if cfg.max.Some? && |group| > cfg.max.value {
      a := BatchSlices(a, container, group, done, total, cfg.max.value);
    } else {
      var hasCapacity := cfg.max.None? || |a.batch| + total <= cfg.max.value;
      if !hasCapacity {
        a := Acc(a.out + [Chunk(a.batch, a.completed)], [], []);
      }
      a := Acc(a.out, a.batch + group, if done + |group| == total then a.completed + [container] else a.completed);
    }
  }

  /** helper.ts:31-85, the body of the outer loop of `batch`. */
  method BatchContainer<T, C>(cfg: Config<T, C>, start: Acc<T, C>, container: C) returns (a: Acc<T, C>)
    requires cfg.Valid() && cfg.Fits(|start.batch|)
    ensures a == AddGroups(cfg, start, container, |cfg.GroupsOf(container)|)
  {
    hide AddGroup, Groups;
    a := start;
    var groups := GroupBy(cfg.accessor(container), cfg.grouping);
    var done := 0;
    for j := 0 to |groups|
      invariant a == AddGroups(cfg, start, container, j)
      invariant done == |Concat(groups[..j])|
    {
      GroupFits(cfg, container, j);
      ConcatSnoc(groups[..j], groups[j]);
      assert groups[..j] + [groups[j]] == groups[..j + 1];
      a := BatchGroup(cfg, a, container, groups[j], done);
      done := done + |groups[j]|;
    }
  }

  method Batch<T, C>(items: seq<C>, accessor: C -> seq<T>, grouping: (T, T) -> bool, maxBatchSize: Option<int>)
      returns (chunks: Option<seq<Chunk<T, C>>>)
    ensures chunks.None? <==> maxBatchSize.Some? && maxBatchSize.value <= 0
    ensures chunks.Some? ==>
              chunks.value == Chunks(Config(accessor, grouping,
                  if maxBatchSize.Some? then Some(maxBatchSize.value as nat) else None), items)
  {
    if maxBatchSize.Some? && maxBatchSize.value <= 0 {
      return None;
    }
    var cfg := Config(accessor, grouping, if maxBatchSize.Some? then Some(maxBatchSize.value as nat) else None);
    var a: Acc<T, C> := Acc([], [], []);
    for i := 0 to |items|
      invariant a == AddAll(cfg, items[..i])
    {
      assert items[..i + 1][..i] == items[..i];
      a := BatchContainer(cfg, a, items[i]);
    }
    assert items[..|items|] == items;
    if |a.batch| > 0 {
      a := Acc(a.out + [Chunk(a.batch, a.completed)], [], []);
    }
    chunks := Some(a.out);
  }
}
