/** The two filters in front of the store: packages/core/src/internal/batching/helper.ts:100-202. */
module Filters {
  import opened Wrappers
  import opened Sequences
  import opened Model

  // ---------- filterNonLinearStateChanges ----------

  /** One stored event: the state it is based on and the sequence number of the message that caused it. */
  datatype Write = Write(state: StateRef, source: nat)

  function WritesOf<C>(accessor: C -> (nat, seq<StateRef>)): C -> seq<Write> {
    (c: C) => var (q, states) := accessor(c); seq(|states|, (j: int) requires 0 <= j < |states| => Write(states[j], q))
  }

  /** How many of the writes go to `key`. */
  function CountKey(w: seq<Write>, key: string): nat {
    if |w| == 0 then 0 else CountKey(w[..|w| - 1], key) + if w[|w| - 1].state.key == key then 1 else 0
  }

  /** The state number the first write to `key` is based on. */
  function FirstSn(w: seq<Write>, key: string): nat {
    if |w| == 0 then 0
    else if CountKey(w[..|w| - 1], key) == 0 then w[|w| - 1].state.seqNum
    else FirstSn(w[..|w| - 1], key)
  }

  /** The message that caused the last write to `key`. */
  function LastSource(w: seq<Write>, key: string): nat {
    if |w| == 0 then 0
    else if w[|w| - 1].state.key == key then w[|w| - 1].source
    else LastSource(w[..|w| - 1], key)
  }

  /** `x` continues the linear history of its key in `w`: it starts the history, or it comes from the
      message that wrote last, or it is based on the state all the earlier writes lead to. */
  predicate Extends(w: seq<Write>, x: Write) {
    var k := x.state.key;
    CountKey(w, k) == 0 || LastSource(w, k) == x.source || FirstSn(w, k) + CountKey(w, k) == x.state.seqNum
  }

  predicate Linear(w: seq<Write>) {
    forall j | 0 <= j < |w| :: Extends(w[..j], w[j])
  }

  /** The first write that breaks a linear history, or the end. */
  function FirstBreak(w: seq<Write>): nat
    ensures FirstBreak(w) <= |w|
  {
    if |w| == 0 then 0
    else
      var f := FirstBreak(w[..|w| - 1]);
      if f < |w| - 1 || !Extends(w[..|w| - 1], w[|w| - 1]) then f else |w|
  }

  /** How many leading items make up the longest linear prefix. */
  function LinearPrefix<C>(items: seq<C>, accessor: C -> (nat, seq<StateRef>)): nat
    ensures LinearPrefix(items, accessor) <= |items|
  {
    if |items| == 0 then 0
    else
      var n := |items| - 1;
      var k := LinearPrefix(items[..n], accessor);
      if k == n && Linear(Flat(items, WritesOf(accessor))) then |items| else k
  }

  function NonLinearError(w: seq<Write>, x: Write): BatchError {
    var k := x.state.key;
    BatchError(
      SequenceConflict(ConflictDetails(
        k, x.state.seqNum + 1, x.state.seqNum, FirstSn(w, k) + CountKey(w, k), None, None)),
      false)
  }

  function FilterNonLinearSpec<C>(items: seq<C>, accessor: C -> (nat, seq<StateRef>)): BatchResult<C> {
    var i := LinearPrefix(items, accessor);
    var w := Flat(items, WritesOf(accessor));
    var b := FirstBreak(w);
    BatchResult(items[..i], items[i..], if b == |w| then None else Some(NonLinearError(w[..b], w[b])))
  }

  lemma {:induction false} FirstBreakIsFirst(w: seq<Write>)
    ensures Linear(w[..FirstBreak(w)])
    ensures FirstBreak(w) < |w| ==> !Extends(w[..FirstBreak(w)], w[FirstBreak(w)])
  {
    if |w| > 0 {
      var init := w[..|w| - 1];
      FirstBreakIsFirst(init);
      var b := FirstBreak(w);
      if b == |w| {
        assert init[..|init|] == init;
        forall j | 0 <= j < |w| ensures Extends(w[..b][..j], w[..b][j]) {
          assert w[..b][..j] == w[..j];
          if j < |init| {
            assert init[..j] == w[..j];
          }
        }
      } else {
        assert init[..b] == w[..b];
      }
    }
  }

  lemma PrefixExtends(w: seq<Write>, f: nat, j: nat)
    requires j < f <= |w| && Linear(w[..f])
    ensures Extends(w[..j], w[j])
  {
    assert w[..f][..j] == w[..j];
    assert Extends(w[..f][..j], w[..f][j]);
  }

  lemma LinearClosed(v: seq<Write>, w: seq<Write>)
    requires v <= w && Linear(w)
    ensures Linear(v)
  {
    forall j | 0 <= j < |v| ensures Extends(v[..j], v[j]) {
      assert v[..j] == w[..j];
      assert Extends(w[..j], w[j]);
    }
  }

  lemma LinearPrefixes<C>(items: seq<C>, accessor: C -> (nat, seq<StateRef>), i: nat, m: nat)
    requires i <= m <= |items| && Linear(Flat(items[..m], WritesOf(accessor)))
    ensures Linear(Flat(items[..i], WritesOf(accessor)))
  {
    assert items[..m][..i] == items[..i];
    FlatPrefix(items[..m], i, WritesOf(accessor));
    LinearClosed(Flat(items[..i], WritesOf(accessor)), Flat(items[..m], WritesOf(accessor)));
  }

  /** The filter lets through the longest linear prefix: exactly the first `LinearPrefix` prefixes
      of the items are linear histories. */
  lemma {:induction false} LongestLinearPrefix<C>(items: seq<C>, accessor: C -> (nat, seq<StateRef>), m: nat)
    requires m <= |items|
    ensures Linear(Flat(items[..m], WritesOf(accessor))) <==> m <= LinearPrefix(items, accessor)
  {
    if |items| > 0 {
      var n := |items| - 1;
      assert items[..|items|] == items;
      if m <= n {
        LongestLinearPrefix(items[..n], accessor, m);
        assert items[..n][..m] == items[..m];
      } else {
        LongestLinearPrefix(items[..n], accessor, n);
        assert items[..n][..n] == items[..n];
        if Linear(Flat(items, WritesOf(accessor))) {
          LinearPrefixes(items, accessor, n, m);
        }
      }
    }
  }

  // ---------- the loop ----------

  /** helper.ts:171, the value type of `lookup`. */
  datatype Entry = Entry(sn: nat, source: nat)

  /** `lookup` summarises the writes seen so far. */
  ghost predicate Summary(lookup: map<string, Entry>, w: seq<Write>) {
    && (forall k :: k in lookup <==> CountKey(w, k) > 0)
    && (forall k :: k in lookup ==> lookup[k] == Entry(FirstSn(w, k) + CountKey(w, k), LastSource(w, k)))
  }

  lemma SummarySnoc(lookup: map<string, Entry>, w: seq<Write>, x: Write, entry: Entry)
    requires Summary(lookup, w)
    requires var k := x.state.key;
             entry == if k in lookup then Entry(lookup[k].sn + 1, x.source) else Entry(x.state.seqNum + 1, x.source)
    ensures Summary(lookup[x.state.key := entry], w + [x])
  {
  }

  method FilterNonLinearStateChanges<C>(items: seq<C>, accessor: C -> (nat, seq<StateRef>)) returns (r: BatchResult<C>)
    ensures r == FilterNonLinearSpec(items, accessor)
  {
    assert Linear([]);
    assert Summary(map[], []);
    assert Flat([], WritesOf(accessor)) == [] && items[..0] == [];
    hide Linear, Summary, FilterNonLinearSpec, Extends, CountKey, LastSource, FirstSn, Flat;
    ghost var acc := WritesOf(accessor);
    var lookup: map<string, Entry> := map[];
    for i := 0 to |items|
      invariant Summary(lookup, Flat(items[..i], acc))
      invariant Linear(Flat(items[..i], acc))
    {
      ghost var before := Flat(items[..i], acc);
      var (q, states) := accessor(items[i]);
      NextItem(items, accessor, i);
      var conflict: Option<ConflictDetails>;
      ghost var w: seq<Write>;
      lookup, conflict, w := Track(lookup, q, states, before, acc(items[i]));
      if conflict.Some? {
        BreakFound(items, accessor, i, w, Write(states[|w| - |before|], q));
        return BatchResult(items[..i], items[i..], Some(BatchError(SequenceConflict(conflict.value), false)));
      }
    }
    assert items[..|items|] == items;
    NoBreak(items, accessor);
    r := BatchResult(items, [], None);
  }

  lemma NextItem<C>(items: seq<C>, accessor: C -> (nat, seq<StateRef>), i: nat)
    requires i < |items|
    ensures Flat(items[..i + 1], WritesOf(accessor))
        == Flat(items[..i], WritesOf(accessor)) + WritesOf(accessor)(items[i])
  {
    assert items[..i + 1] == items[..i] + [items[i]];
    FlatSnoc(items[..i], items[i], WritesOf(accessor));
  }

  /** helper.ts:174-195, the inner loop: one item's writes are tracked until one breaks a history. */
  method Track(lookup0: map<string, Entry>, q: nat, states: seq<StateRef>, ghost before: seq<Write>,
      ghost added: seq<Write>)
      returns (lookup: map<string, Entry>, conflict: Option<ConflictDetails>, ghost w: seq<Write>)
    requires Summary(lookup0, before) && Linear(before)
    requires |added| == |states| && forall j | 0 <= j < |states| :: added[j] == Write(states[j], q)
    ensures conflict.None? ==> w == before + added && Summary(lookup, w) && Linear(w)
    ensures conflict.Some? ==>
              && |before| <= |w| < |before| + |added| && w == before + added[..|w| - |before|]
              && Linear(w) && !Extends(w, added[|w| - |before|])
              && BatchError(SequenceConflict(conflict.value), false) == NonLinearError(w, added[|w| - |before|])
  {
    lookup := lookup0;
    w := before;
    for j := 0 to |states|
      invariant w == before + added[..j] && Summary(lookup, w) && Linear(w)
    {
      var state := states[j];
      ghost var x := added[j];
      if state.key in lookup && lookup[state.key].source != q && lookup[state.key].sn != state.seqNum {
        var actualSn := lookup[state.key].sn;
        return lookup, Some(ConflictDetails(state.key, state.seqNum + 1, state.seqNum, actualSn, None, None)), w;
      }
      var entry := if state.key !in lookup then Entry(state.seqNum + 1, q) else Entry(lookup[state.key].sn + 1, q);
      SummarySnoc(lookup, w, x, entry);
      LinearSnoc(w, x);
      lookup := lookup[state.key := entry];
      w := w + [x];
      assert added[..j + 1] == added[..j] + [x];
    }
    conflict := None;
  }

  lemma LinearSnoc(w: seq<Write>, x: Write)
    requires Linear(w) && Extends(w, x)
    ensures Linear(w + [x])
  {
    forall j | 0 <= j < |w + [x]| ensures Extends((w + [x])[..j], (w + [x])[j]) {
      if j < |w| {
        assert (w + [x])[..j] == w[..j];
      } else {
        assert (w + [x])[..j] == w;
      }
    }
  }

  lemma BreakUnique(w: seq<Write>, b: nat)
    requires b < |w| && Linear(w[..b]) && !Extends(w[..b], w[b])
    ensures FirstBreak(w) == b
  {
    FirstBreakIsFirst(w);
    var f := FirstBreak(w);
    if f < b {
      PrefixExtends(w, b, f);
    } else if b < f {
      PrefixExtends(w, f, b);
    }
  }

  lemma NotLinear(w: seq<Write>, x: Write, u: seq<Write>)
    requires w + [x] <= u && !Extends(w, x)
    ensures !Linear(u)
  {
    assert u[..|w|] == w && u[|w|] == x;
  }

  lemma BreaksAt(w: seq<Write>, x: Write, u: seq<Write>)
    requires w + [x] <= u && Linear(w) && !Extends(w, x)
    ensures FirstBreak(u) == |w| < |u| && u[..|w|] == w && u[|w|] == x
  {
    assert u[..|w|] == w && u[|w|] == x;
    BreakUnique(u, |w|);
  }

  /** What the early return of the loop knows: `x` is a write of item `i` and breaks the linear
      history `w` of the writes before it. */
  lemma BreakFound<C>(items: seq<C>, accessor: C -> (nat, seq<StateRef>), i: nat, w: seq<Write>, x: Write)
    requires i < |items|
    requires Flat(items[..i], WritesOf(accessor)) <= w && w + [x] <= Flat(items[..i + 1], WritesOf(accessor))
    requires Linear(w) && !Extends(w, x)
    ensures FilterNonLinearSpec(items, accessor) == BatchResult(items[..i], items[i..], Some(NonLinearError(w, x)))
  {
    var acc := WritesOf(accessor);
    FlatPrefix(items, i + 1, acc);
    BreaksAt(w, x, Flat(items, acc));
    LinearClosed(Flat(items[..i], acc), w);
    NotLinear(w, x, Flat(items[..i + 1], acc));
    LongestLinearPrefix(items, accessor, i);
    LongestLinearPrefix(items, accessor, i + 1);
  }

  lemma NoBreak<C>(items: seq<C>, accessor: C -> (nat, seq<StateRef>))
    requires Linear(Flat(items, WritesOf(accessor)))
    ensures LinearPrefix(items, accessor) == |items|
    ensures FilterNonLinearSpec(items, accessor) == BatchResult(items, [], None)
  {
    LongestLinearPrefix(items, accessor, |items|);
    assert items[..|items|] == items;
    LinearNeverBreaks(Flat(items, WritesOf(accessor)));
  }

  lemma {:induction false} LinearNeverBreaks(w: seq<Write>)
    requires Linear(w)
    ensures FirstBreak(w) == |w|
  {
    if |w| > 0 {
      LinearClosed(w[..|w| - 1], w);
      LinearNeverBreaks(w[..|w| - 1]);
    }
  }

  // ---------- filterByEpoch ----------

  /** EpochManager.ts:17-19: unknown keys (and the falsy zero) are in epoch 1. */
  function EpochOf(epochs: map<string, nat>, key: string): (epoch: nat)
    ensures epoch >= 1
  {
    if key in epochs && epochs[key] != 0 then epochs[key] else 1
  }

  predicate Stale(epochs: map<string, nat>, s: StateRef) {
    s.epoch.Some? && s.epoch.value < EpochOf(epochs, s.key)
  }

  /** The first stale state, or the end. */
  function FirstStaleState(epochs: map<string, nat>, states: seq<StateRef>): nat
    ensures FirstStaleState(epochs, states) <= |states|
    ensures forall j | 0 <= j < FirstStaleState(epochs, states) :: !Stale(epochs, states[j])
    ensures FirstStaleState(epochs, states) < |states| ==> Stale(epochs, states[FirstStaleState(epochs, states)])
  {
    if |states| == 0 || Stale(epochs, states[0]) then 0 else 1 + FirstStaleState(epochs, states[1..])
  }

  predicate HasStale(epochs: map<string, nat>, states: seq<StateRef>) {
    exists j | 0 <= j < |states| :: Stale(epochs, states[j])
  }

  /** The first item based on a stale state, or the end. */
  function FirstStale<C>(epochs: map<string, nat>, items: seq<C>, accessor: C -> seq<StateRef>): (i: nat)
    ensures i <= |items|
    ensures forall j | 0 <= j < i :: !HasStale(epochs, accessor(items[j]))
    ensures i < |items| ==> HasStale(epochs, accessor(items[i]))
  {
    if |items| == 0 || HasStale(epochs, accessor(items[0])) then 0 else 1 + FirstStale(epochs, items[1..], accessor)
  }

  function StaleError(epochs: map<string, nat>, s: StateRef): BatchError {
    BatchError(SequenceConflict(ConflictDetails(s.key, s.seqNum, s.seqNum, s.seqNum, s.epoch,
        Some(EpochOf(epochs, s.key)))), false)
  }

  function FilterByEpochSpec<C>(epochs: map<string, nat>, items: seq<C>, accessor: C -> seq<StateRef>): BatchResult<C> {
    var i := FirstStale(epochs, items, accessor);
    BatchResult(items[..i], items[i..],
                if i == |items| then None
                else
                  var states := accessor(items[i]);
                  Some(StaleError(epochs, states[FirstStaleState(epochs, states)])))
  }

  /** What is reported is the first stale state of the first item that has any, with the epoch it carries and
      the later one its key is in. */
  lemma StaleIsReported<C>(epochs: map<string, nat>, items: seq<C>, accessor: C -> seq<StateRef>)
    ensures var r := FilterByEpochSpec(epochs, items, accessor);
            && (forall i | 0 <= i < |r.successful| :: !HasStale(epochs, accessor(r.successful[i])))
            && r.successful + r.failed == items && (r.error.Some? <==> r.failed != [])
            && (r.failed != [] ==>
                  var states := accessor(r.failed[0]);
                  exists j: nat :: j < |states| && Stale(epochs, states[j])
                    && (forall l | 0 <= l < j :: !Stale(epochs, states[l]))
                    && ReportsStale(r.error.value, states[j], EpochOf(epochs, states[j].key)))
  {
    hide HasStale, Stale;
    var r := FilterByEpochSpec(epochs, items, accessor);
    if r.failed != [] {
      var j := FirstStaleState(epochs, accessor(r.failed[0]));
      SomeStale(epochs, accessor(r.failed[0]));
      assert ReportsStale(r.error.value, accessor(r.failed[0])[j], EpochOf(epochs, accessor(r.failed[0])[j].key));
    }
  }

  predicate ReportsStale(e: BatchError, s: StateRef, epoch: nat) {
    !e.retryable && e.error.SequenceConflict?
    && e.error.details.key == s.key && e.error.details.actualSn == s.seqNum
    && e.error.details.actualEpoch == s.epoch && e.error.details.expectedEpoch == Some(epoch)
  }

  lemma {:induction false} SomeStale(epochs: map<string, nat>, states: seq<StateRef>)
    requires HasStale(epochs, states)
    ensures FirstStaleState(epochs, states) < |states|
  {
    var j :| 0 <= j < |states| && Stale(epochs, states[j]);
    if !Stale(epochs, states[0]) {
      assert states[1..][j - 1] == states[j];
      SomeStale(epochs, states[1..]);
    }
  }

  method FilterByEpoch<C>(items: seq<C>, accessor: C -> seq<StateRef>,
      epochs: map<string, nat>) returns (r: BatchResult<C>)
    ensures r == FilterByEpochSpec(epochs, items, accessor)
  {
    for i := 0 to |items|
      invariant forall j | 0 <= j < i :: !HasStale(epochs, accessor(items[j]))
    {
      var states := accessor(items[i]);
      var j := 0;
      while j < |states| && !Stale(epochs, states[j])
        invariant j <= |states| && forall m | 0 <= m < j :: !Stale(epochs, states[m])
      {
        j := j + 1;
      }
      if j < |states| {
        return BatchResult(items[..i], items[i..], Some(StaleError(epochs, states[j])));
      }
    }
    r := BatchResult(items, [], None);
  }
}
