/** Optimistic concurrency: what filter, chunking, bisection and the sink's check guarantee together. */
module Commit {
  import opened Wrappers
  import opened Sequences
  import opened Model
  import opened Batching
  import opened Chunking
  import opened BatchHandling
  import opened Filters
  import opened InMemorySink
  import opened Coordinator

  /** A stored event is either somebody else's or says who stored it: context `cid` stored it on the
      state (key, sn), as its `own`-th event for that key. */
  datatype Event = Foreign(payload: int) | Ours(cid: nat, key: string, sn: nat, own: nat, payload: int)

  /** The store, and what other writers are going to append right before each of the next sink calls. */
  datatype World = World(storage: Storage<Event>, pending: seq<Storage<Event>>)

  function Merge(storage: Storage<Event>, more: Storage<Event>): Storage<Event> {
    map k | k in storage.Keys + more.Keys :: Stream(storage, k) + Stream(more, k)
  }

  function CommitStep(w: World, batch: seq<Item<Event>>): SinkReply<World> {
    var storage := if |w.pending| > 0 then Merge(w.storage, w.pending[0]) else w.storage;
    var r := SinkSpec(storage, batch);
    SinkReply(World(r.next, if |w.pending| > 0 then w.pending[1..] else []), r.error)
  }

  predicate AllForeign(storage: Storage<Event>) {
    forall k | k in storage :: forall p | 0 <= p < |storage[k]| :: storage[k][p].Foreign?
  }

  predicate OthersOnly(pending: seq<Storage<Event>>) {
    forall i | 0 <= i < |pending| :: AllForeign(pending[i])
  }

  // ---------- the invariant of the store ----------

  /** Every event of ours sits at its state's number plus its index among its context's events for the
      key, right behind the previous event of that context. */
  ghost predicate Sound(storage: Storage<Event>) {
    forall k, p | k in storage && 0 <= p < |storage[k]| :: InPlace(storage[k], k, p)
  }

  predicate InPlace(stream: seq<Event>, k: string, p: nat)
    requires p < |stream|
  {
    var e := stream[p];
    e.Ours? ==>
      && e.key == k && p == e.sn + e.own
      && (e.own > 0 ==> var d := stream[p - 1]; d.Ours? && d.cid == e.cid && d.sn == e.sn && d.own == e.own - 1)
  }

  /** The first event of a context on a state is where the state ends. */
  lemma {:induction false} Rooted(storage: Storage<Event>, k: string, p: nat)
    requires Sound(storage) && k in storage && p < |storage[k]| && storage[k][p].Ours?
    ensures var e := storage[k][p];
            && e.sn <= p
            && (forall i | e.sn <= i <= p ::
                  storage[k][i].Ours? && storage[k][i].cid == e.cid && storage[k][i].sn == e.sn)
    decreases p
  {
    assert InPlace(storage[k], k, p);
    var e := storage[k][p];
    if e.own > 0 {
      Rooted(storage, k, p - 1);
    }
  }

  /** Of all contexts that branch off one state at most one ever commits. */
  lemma NoCompetingBranches(storage: Storage<Event>, k: string, p: nat, k': string, p': nat)
    requires Sound(storage) && k in storage && p < |storage[k]| && k' in storage && p' < |storage[k']|
    requires storage[k][p].Ours? && storage[k'][p'].Ours?
    requires storage[k][p].key == storage[k'][p'].key && storage[k][p].sn == storage[k'][p'].sn
    ensures storage[k][p].cid == storage[k'][p'].cid
  {
    assert InPlace(storage[k], k, p) && InPlace(storage[k'], k', p');
    Rooted(storage, k, p);
    Rooted(storage, k', p');
    var sn := storage[k][p].sn;
    assert storage[k][sn].cid == storage[k][p].cid;
    assert storage[k'][sn].cid == storage[k'][p'].cid;
  }

  /** No event is ever committed twice. */
  lemma NoDoubleCommit(storage: Storage<Event>, k: string, p: nat, k': string, p': nat)
    requires Sound(storage) && k in storage && p < |storage[k]| && k' in storage && p' < |storage[k']|
    requires storage[k][p].Ours? && storage[k][p] == storage[k'][p']
    ensures k == k' && p == p'
  {
    assert InPlace(storage[k], k, p) && InPlace(storage[k'], k', p');
  }

  // ---------- what contexts must look like ----------

  /** How many of the first `n` stored messages go to `key`. */
  function OwnIndex(stored: seq<StoredMessage<Event>>, n: nat, key: string): nat
    requires n <= |stored|
  {
    if n == 0 then 0 else OwnIndex(stored, n - 1, key) + if stored[n - 1].state.key == key then 1 else 0
  }

  /** The messages carry the tags that say where they come from. */
  predicate Tagged<P>(c: Context<Event, P>) {
    forall i | 0 <= i < |c.stored| ::
      var m, s := c.stored[i].message, c.stored[i].state;
      m.Ours? && m.cid == c.id && m.key == s.key && m.sn == s.seqNum && m.own == OwnIndex(c.stored, i, s.key)
  }

  /** The context stores all its events for one key on one state. */
  predicate OneRefPerKey<P>(c: Context<Event, P>) {
    forall i, j | 0 <= i < |c.stored| && 0 <= j < |c.stored| ::
      c.stored[i].state.key == c.stored[j].state.key ==> c.stored[i].state.seqNum == c.stored[j].state.seqNum
  }

  predicate DistinctSources<P>(cs: seq<Context<Event, P>>) {
    forall i, j | 0 <= i < j < |cs| :: cs[i].sequence != cs[j].sequence
  }

  predicate WellFormed<P>(cs: seq<Context<Event, P>>) {
    && (forall i | 0 <= i < |cs| :: Tagged(cs[i]) && OneRefPerKey(cs[i]))
    && DistinctSources(cs)
  }

  // ---------- linear contexts use every state once ----------

  predicate Uses<P>(c: Context<Event, P>, key: string, sn: nat) {
    exists i | 0 <= i < |c.stored| :: c.stored[i].state.key == key && c.stored[i].state.seqNum == sn
  }

  /** No two contexts store on the same state. */
  ghost predicate Apart<P(!new)>(cs: seq<Context<Event, P>>) {
    forall a: nat, b: nat, k: string, n: nat | a < b < |cs| && Uses(cs[a], k, n) :: !Uses(cs[b], k, n)
  }

  function BranchesOf<P>(): Context<Event, P> -> seq<Write> {
    WritesOf(Branches<Event, P>())
  }

  lemma {:induction false} LastSourceIsAContext<P(!new)>(cs: seq<Context<Event, P>>, key: string)
    requires CountKey(Flat(cs, BranchesOf<P>()), key) > 0
    ensures exists a :: 0 <= a < |cs| && cs[a].sequence == LastSource(Flat(cs, BranchesOf<P>()), key)
  {
    var w := Flat(cs, BranchesOf<P>());
    var init, c := cs[..|cs| - 1], cs[|cs| - 1];
    var w0, wc := Flat(init, BranchesOf<P>()), BranchesOf<P>()(c);
    LastOfAppend(w0, wc, key, c.sequence);
    if CountKey(wc, key) == 0 {
      LastSourceIsAContext(init, key);
      var a :| 0 <= a < |init| && init[a].sequence == LastSource(w0, key);
      assert cs[a] == init[a];
    }
  }

  lemma {:induction false} LastOfAppend(w0: seq<Write>, wc: seq<Write>, key: string, source: nat)
    requires forall i | 0 <= i < |wc| :: wc[i].source == source
    ensures CountKey(w0 + wc, key) == CountKey(w0, key) + CountKey(wc, key)
    ensures LastSource(w0 + wc, key) == if CountKey(wc, key) > 0 then source else LastSource(w0, key)
    ensures CountKey(w0, key) > 0 ==> FirstSn(w0 + wc, key) == FirstSn(w0, key)
  {
    if wc == [] {
      assert w0 + wc == w0;
    } else {
      var n := |wc| - 1;
      assert (w0 + wc)[..|w0 + wc| - 1] == w0 + wc[..n];
      LastOfAppend(w0, wc[..n], key, source);
    }
  }

  /** Where the first write to `key` in `wc` is. */
  lemma {:induction false} FirstWrite(wc: seq<Write>, key: string) returns (i: nat)
    requires CountKey(wc, key) > 0
    ensures i < |wc| && wc[i].state.key == key && CountKey(wc[..i], key) == 0
  {
    var n := |wc| - 1;
    if CountKey(wc[..n], key) > 0 {
      i := FirstWrite(wc[..n], key);
      assert wc[..n][..i] == wc[..i];
    } else {
      i := n;
    }
  }

  lemma {:induction false} FirstOfAppend(w0: seq<Write>, wc: seq<Write>, key: string, i: nat)
    requires CountKey(w0, key) == 0 && i < |wc| && wc[i].state.key == key && CountKey(wc[..i], key) == 0
    ensures FirstSn(w0 + wc, key) == wc[i].state.seqNum && CountKey(w0 + wc, key) > 0
    decreases |wc|
  {
    var n := |wc| - 1;
    assert (w0 + wc)[..|w0 + wc| - 1] == w0 + wc[..n];
    if i < n {
      assert wc[..n][..i] == wc[..i];
      FirstOfAppend(w0, wc[..n], key, i);
    } else {
      LastOfAppendCount(w0, wc[..n], key);
    }
  }

  lemma {:induction false} LastOfAppendCount(w0: seq<Write>, wc: seq<Write>, key: string)
    ensures CountKey(w0 + wc, key) == CountKey(w0, key) + CountKey(wc, key)
  {
    if wc == [] {
      assert w0 + wc == w0;
    } else {
      var n := |wc| - 1;
      assert (w0 + wc)[..|w0 + wc| - 1] == w0 + wc[..n];
      LastOfAppendCount(w0, wc[..n], key);
    }
  }

  lemma {:induction false} WritesCounted(w: seq<Write>, i: nat)
    requires i < |w|
    ensures CountKey(w, w[i].state.key) > 0
  {
    if i < |w| - 1 {
      WritesCounted(w[..|w| - 1], i);
    }
  }

  lemma {:induction false} UsesCounted<P(!new)>(cs: seq<Context<Event, P>>, a: nat, key: string, n: nat)
    requires a < |cs| && Uses(cs[a], key, n)
    ensures CountKey(Flat(cs, BranchesOf<P>()), key) > 0
  {
    var init, c := cs[..|cs| - 1], cs[|cs| - 1];
    LastOfAppendCount(Flat(init, BranchesOf<P>()), BranchesOf<P>()(c), key);
    if a < |init| {
      UsesCounted(init, a, key, n);
    } else {
      var i :| 0 <= i < |c.stored| && c.stored[i].state.key == key && c.stored[i].state.seqNum == n;
      WritesCounted(BranchesOf<P>()(c), i);
    }
  }

  /** Every state used for `key` lies below the number the writes so far lead to. */
  ghost predicate Below<P(!new)>(cs: seq<Context<Event, P>>) {
    forall a: nat, k: string, n: nat | a < |cs| && Uses(cs[a], k, n) ::
      n < FirstSn(Flat(cs, BranchesOf<P>()), k) + CountKey(Flat(cs, BranchesOf<P>()), k)
  }

  /** The first write of `c` for `key` is on the one state that `c` uses for it. */
  lemma FirstUse<P(!new)>(c: Context<Event, P>, key: string, n: nat) returns (i: nat)
    requires OneRefPerKey(c) && Uses(c, key, n)
    ensures var wc := BranchesOf<P>()(c);
            && CountKey(wc, key) > 0 && i < |wc| && CountKey(wc[..i], key) == 0
            && wc[i].state.key == key && wc[i].state.seqNum == n
  {
    var wc := BranchesOf<P>()(c);
    var j :| 0 <= j < |c.stored| && c.stored[j].state.key == key && c.stored[j].state.seqNum == n;
    WritesCounted(wc, j);
    i := FirstWrite(wc, key);
    assert wc[i].state == c.stored[i].state;
  }

  lemma NotTheLastSource<P(!new)>(init: seq<Context<Event, P>>, c: Context<Event, P>, key: string)
    requires DistinctSources(init + [c]) && CountKey(Flat(init, BranchesOf<P>()), key) > 0
    ensures LastSource(Flat(init, BranchesOf<P>()), key) != c.sequence
  {
    LastSourceIsAContext(init, key);
    var a :| 0 <= a < |init| && init[a].sequence == LastSource(Flat(init, BranchesOf<P>()), key);
    assert (init + [c])[a] == init[a] && (init + [c])[|init|] == c;
  }

  lemma ContinuesHistory(w0: seq<Write>, wc: seq<Write>, i: nat, source: nat)
    requires Linear(w0 + wc) && i < |wc| && wc[i].source == source
        && (forall j | 0 <= j < |wc| :: wc[j].source == source)
    requires CountKey(wc[..i], wc[i].state.key) == 0 && CountKey(w0, wc[i].state.key) > 0
    requires LastSource(w0, wc[i].state.key) != source
    ensures FirstSn(w0, wc[i].state.key) + CountKey(w0, wc[i].state.key) == wc[i].state.seqNum
  {
    var w := w0 + wc;
    assert Extends(w[..|w0| + i], w[|w0| + i]);
    assert w[..|w0| + i] == w0 + wc[..i];
    LastOfAppend(w0, wc[..i], wc[i].state.key, source);
  }

  /** Where the last of some linear contexts continues the history of `key`. */
  lemma NextState<P(!new)>(init: seq<Context<Event, P>>, c: Context<Event, P>, key: string, n: nat)
    requires DistinctSources(init + [c]) && OneRefPerKey(c) && Uses(c, key, n)
    requires Linear(Flat(init + [c], BranchesOf<P>()))
    ensures var w0, w := Flat(init, BranchesOf<P>()), Flat(init + [c], BranchesOf<P>());
            && (CountKey(w0, key) > 0 ==>
                  n == FirstSn(w0, key) + CountKey(w0, key) && FirstSn(w, key) == FirstSn(w0, key))
            && (CountKey(w0, key) == 0 ==> FirstSn(w, key) == n)
            && CountKey(w, key) > CountKey(w0, key)
  {
    var w0, wc := Flat(init, BranchesOf<P>()), BranchesOf<P>()(c);
    FlatSnoc(init, c, BranchesOf<P>());
    var i := FirstUse(c, key, n);
    LastOfAppend(w0, wc, key, c.sequence);
    hide Flat, Linear, Uses, OneRefPerKey, DistinctSources, CountKey, FirstSn, LastSource;
    if CountKey(w0, key) == 0 {
      FirstOfAppend(w0, wc, key, i);
    } else {
      NotTheLastSource(init, c, key);
      ContinuesHistory(w0, wc, i, c.sequence);
    }
  }

  /** The contexts behind the linearity filter store on pairwise different states. */
  lemma {:induction false} LinearApart<P(!new)>(cs: seq<Context<Event, P>>)
    requires DistinctSources(cs) && forall i | 0 <= i < |cs| :: OneRefPerKey(cs[i])
    requires Linear(Flat(cs, BranchesOf<P>()))
    ensures Apart(cs) && Below(cs)
  {
    hide Flat, Linear, CountKey, FirstSn, Uses;
    if |cs| > 0 {
      var init, c := cs[..|cs| - 1], cs[|cs| - 1];
      assert cs == init + [c];
      var w0, w := Flat(init, BranchesOf<P>()), Flat(cs, BranchesOf<P>());
      FlatSnoc(init, c, BranchesOf<P>());
      LinearClosed(w0, w);
      LinearApart(init);
      forall a: nat, k: string, n: nat | a < |cs| && Uses(cs[a], k, n)
        ensures n < FirstSn(w, k) + CountKey(w, k)
      {
        if a == |init| {
          NextState(init, c, k, n);
        } else {
          assert init[a] == cs[a];
          UsesCounted(init, a, k, n);
          LastOfAppend(w0, BranchesOf<P>()(c), k, c.sequence);
        }
      }
      forall a: nat, b: nat, k: string, n: nat | a < b < |cs| && Uses(cs[a], k, n)
        ensures !Uses(cs[b], k, n)
      {
        assert init[a] == cs[a];
        if b == |init| {
          if Uses(c, k, n) {
            UsesCounted(init, a, k, n);
            NextState(init, c, k, n);
          }
        } else {
          assert init[b] == cs[b];
        }
      }
    }
  }

  // ---------- the same in terms of the list of items ----------

  /** Stored items are numbered by how many earlier items branch off the same state, and items that
      branch off the same state come from the same context. */
  ghost predicate Numbered(items: seq<Item<Event>>) {
    && (forall i | 0 <= i < |items| && items[i].Stored? :: Labelled(items, i))
    && (forall i, j | 0 <= i < j < |items| && SameState(items[i], items[j]) ::
        items[i].message.cid == items[j].message.cid)
  }

  predicate SameState(x: Item<Event>, y: Item<Event>) {
    && x.Stored? && y.Stored? && x.message.Ours? && y.message.Ours?
    && x.state.key == y.state.key && x.state.seqNum == y.state.seqNum
  }

  predicate Labelled(items: seq<Item<Event>>, i: nat)
    requires i < |items| && items[i].Stored?
  {
    var m, s := items[i].message, items[i].state;
    m.Ours? && m.key == s.key && m.sn == s.seqNum && m.own == Branched(items[..i], s.key, s.seqNum)
  }

  lemma {:induction false} BranchedAppend<M>(a: seq<Item<M>>, b: seq<Item<M>>, key: string, sn: nat)
    ensures Branched(a + b, key, sn) == Branched(a, key, sn) + Branched(b, key, sn)
  {
    if b == [] {
      assert a + b == a;
    } else {
      var n := |b| - 1;
      assert (a + b)[..|a + b| - 1] == a + b[..n];
      BranchedAppend(a, b[..n], key, sn);
    }
  }

  lemma {:induction false} BranchedMember<M>(items: seq<Item<M>>, key: string, sn: nat) returns (i: nat)
    requires Branched(items, key, sn) > 0
    ensures i < |items| && items[i].Stored? && items[i].state.key == key && items[i].state.seqNum == sn
    ensures Branched(items[..i], key, sn) == Branched(items, key, sn) - 1
  {
    var n := |items| - 1;
    var x := items[n];
    if x.Stored? && x.state.key == key && x.state.seqNum == sn {
      i := n;
    } else {
      i := BranchedMember(items[..n], key, sn);
      assert items[..n][..i] == items[..i];
    }
  }

  lemma {:induction false} BranchedMany<M>(items: seq<Item<M>>, i: nat)
    requires i < |items| && items[i].Stored?
    ensures Branched(items, items[i].state.key, items[i].state.seqNum)
            > Branched(items[..i], items[i].state.key, items[i].state.seqNum)
  {
    assert items == items[..i] + [items[i]] + items[i + 1..];
    BranchedAppend(items[..i] + [items[i]], items[i + 1..], items[i].state.key, items[i].state.seqNum);
    ItemsSnoc(items[..i], items[i], items[i].state.key, items[i].state.seqNum);
  }

  lemma {:induction false} OwnIsBranched<P>(c: Context<Event, P>, i: nat, key: string, sn: nat)
    requires i <= |c.stored| && OneRefPerKey(c) && Uses(c, key, sn)
    ensures Branched(StoreTargetItems(c)[..i], key, sn) == OwnIndex(c.stored, i, key)
  {
    if i > 0 {
      OwnIsBranched(c, i - 1, key, sn);
      assert StoreTargetItems(c)[..i][..i - 1] == StoreTargetItems(c)[..i - 1];
    }
  }

  lemma {:induction false} UsedOnly<P(!new)>(cs: seq<Context<Event, P>>, key: string, sn: nat)
    requires forall a | 0 <= a < |cs| :: !Uses(cs[a], key, sn)
    ensures Branched(Flat(cs, StoreItems<Event, P>()), key, sn) == 0
  {
    if |cs| > 0 {
      var init, c := cs[..|cs| - 1], cs[|cs| - 1];
      UsedOnly(init, key, sn);
      BranchedAppend(Flat(init, StoreItems<Event, P>()), StoreTargetItems(c), key, sn);
      BranchedUses(c, key, sn);
    }
  }

  lemma BranchedUses<P>(c: Context<Event, P>, key: string, sn: nat)
    ensures Branched(StoreTargetItems(c), key, sn) > 0 ==> Uses(c, key, sn)
  {
    if Branched(StoreTargetItems(c), key, sn) > 0 {
      var i := BranchedMember(StoreTargetItems(c), key, sn);
      StoredAt(c, i);
    }
  }

  lemma StoredAt<P>(c: Context<Event, P>, i: nat)
    requires i < |StoreTargetItems(c)| && StoreTargetItems(c)[i].Stored?
    ensures i < |c.stored| && StoreTargetItems(c)[i] == Stored(c.stored[i].state, c.stored[i].message)
    ensures Uses(c, c.stored[i].state.key, c.stored[i].state.seqNum)
  {
  }

  lemma {:induction false} ApartNumbered<P(!new)>(cs: seq<Context<Event, P>>)
    requires Apart(cs) && forall i | 0 <= i < |cs| :: Tagged(cs[i]) && OneRefPerKey(cs[i])
    ensures Numbered(Flat(cs, StoreItems<Event, P>()))
  {
    if |cs| > 0 {
      var init, c := cs[..|cs| - 1], cs[|cs| - 1];
      assert cs == init + [c];
      ApartNumbered(init);
      FlatSnoc(init, c, StoreItems<Event, P>());
      NumberedSnoc(init, c);
    }
  }

  lemma NumberedSnoc<P(!new)>(init: seq<Context<Event, P>>, c: Context<Event, P>)
    requires Apart(init + [c]) && Tagged(c) && OneRefPerKey(c) && Numbered(Flat(init, StoreItems<Event, P>()))
    ensures Numbered(Flat(init, StoreItems<Event, P>()) + StoreTargetItems(c))
  {
    var f0, g := Flat(init, StoreItems<Event, P>()), StoreTargetItems(c);
    var f := f0 + g;
    forall i | 0 <= i < |f| && f[i].Stored? ensures Labelled(f, i) {
      if i < |f0| {
        assert f[..i] == f0[..i];
        assert Labelled(f0, i);
      } else {
        OwnLabel(c, i - |f0|);
        StoredAt(c, i - |f0|);
        NotUsedBefore(init, c, f[i].state.key, f[i].state.seqNum);
        LabelBehind(f0, g, i);
      }
    }
    forall i, j | 0 <= i < j < |f| && SameState(f[i], f[j]) ensures f[i].message.cid == f[j].message.cid {
      if j >= |f0| {
        StoredAt(c, j - |f0|);
        if i < |f0| {
          NotUsedBefore(init, c, f[i].state.key, f[i].state.seqNum);
          BranchedMany(f0, i);
        } else {
          StoredAt(c, i - |f0|);
        }
      }
    }
  }

  lemma NotUsedBefore<P(!new)>(init: seq<Context<Event, P>>, c: Context<Event, P>, key: string, sn: nat)
    requires Apart(init + [c]) && Uses(c, key, sn)
    ensures Branched(Flat(init, StoreItems<Event, P>()), key, sn) == 0
  {
    var cs := init + [c];
    forall a | 0 <= a < |init| ensures !Uses(init[a], key, sn) {
      assert cs[a] == init[a] && cs[|init|] == c;
    }
    UsedOnly(init, key, sn);
  }

  lemma OwnLabel<P>(c: Context<Event, P>, i: nat)
    requires Tagged(c) && OneRefPerKey(c) && i < |StoreTargetItems(c)| && StoreTargetItems(c)[i].Stored?
    ensures Labelled(StoreTargetItems(c), i)
  {
    StoredAt(c, i);
    OwnIsBranched(c, i, c.stored[i].state.key, c.stored[i].state.seqNum);
  }

  lemma LabelBehind(f0: seq<Item<Event>>, g: seq<Item<Event>>, at: nat)
    requires |f0| <= at < |f0| + |g| && g[at - |f0|].Stored? && Labelled(g, at - |f0|)
    requires Branched(f0, g[at - |f0|].state.key, g[at - |f0|].state.seqNum) == 0
    ensures Labelled(f0 + g, at)
  {
    var x := g[at - |f0|];
    assert (f0 + g)[..at] == f0 + g[..at - |f0|];
    BranchedAppend(f0, g[..at - |f0|], x.state.key, x.state.seqNum);
  }

  // ---------- one accepted chunk ----------

  /** The streams have grown past every state the first `n` items branch off. */
  ghost predicate Behind(storage: Storage<Event>, items: seq<Item<Event>>, n: nat)
    requires n <= |items|
  {
    forall j | 0 <= j < n && items[j].Stored? :: |Stream(storage, items[j].state.key)| > items[j].state.seqNum
  }

  /** Where the event of a stored item ends up among the added ones. */
  lemma AddedAt<M>(items: seq<Item<M>>, i: nat)
    requires i < |items| && items[i].Stored?
    ensures var k := items[i].state.key;
            |Added(items[..i], k)| < |Added(items, k)| && Added(items, k)[|Added(items[..i], k)|] == items[i].message
  {
    var k := items[i].state.key;
    assert items == items[..i] + [items[i]] + items[i + 1..];
    AddedAppend(items[..i] + [items[i]], items[i + 1..], k);
    ItemsSnoc(items[..i], items[i], k, 0);
  }

  /** Every added event is the event of some stored item. */
  lemma {:induction false} AddedFrom<M>(items: seq<Item<M>>, key: string, q: nat) returns (i: nat)
    requires q < |Added(items, key)|
    ensures i < |items| && items[i].Stored? && items[i].state.key == key
    ensures |Added(items[..i], key)| == q && items[i].message == Added(items, key)[q]
  {
    var n := |items| - 1;
    if q < |Added(items[..n], key)| {
      i := AddedFrom(items[..n], key, q);
      assert items[..n][..i] == items[..i];
    } else {
      i := n;
    }
  }

  /** No earlier chunk of the pass branched off a state that an accepted chunk branches off. */
  lemma FreshState(storage: Storage<Event>, items: seq<Item<Event>>, n: nat, batch: seq<Item<Event>>, i: nat)
    requires Slice(items, n, batch) && i < |batch| && batch[i].Stored?
    requires Conflict(storage, batch).None? && Behind(storage, items, n)
    ensures Branched(items[..n], batch[i].state.key, batch[i].state.seqNum) == 0
  {
    var k, sn := batch[i].state.key, batch[i].state.seqNum;
    if Branched(items[..n], k, sn) > 0 {
      var j := BranchedMember(items[..n], k, sn);
      assert |Stream(storage, k)| > sn;
      var f := FirstBranch(batch, i);
      AdmissibleAt(storage, batch, f);
    }
  }

  lemma AdmissibleAt(storage: Storage<Event>, batch: seq<Item<Event>>, i: nat)
    requires i < |batch| && Conflict(storage, batch).None?
    ensures Admissible(storage, batch[..i], batch[i])
  {
    AcceptedIff(storage, batch);
  }

  lemma {:induction false} FirstBranch<M>(batch: seq<Item<M>>, i: nat) returns (f: nat)
    requires i < |batch| && batch[i].Stored?
    ensures f <= i && batch[f].Stored? && batch[f].state.key == batch[i].state.key
        && batch[f].state.seqNum == batch[i].state.seqNum
    ensures Branched(batch[..f], batch[i].state.key, batch[i].state.seqNum) == 0
  {
    var k, sn := batch[i].state.key, batch[i].state.seqNum;
    if Branched(batch[..i], k, sn) == 0 {
      f := i;
    } else {
      var j := BranchedMember(batch[..i], k, sn);
      f := FirstBranch(batch, j);
    }
  }

  /** An accepted stored item lands exactly at its state's number plus its index among its context's
      events, because its label counts the items of its own chunk only. */
  lemma LandsInPlace(storage: Storage<Event>, items: seq<Item<Event>>, n: nat, batch: seq<Item<Event>>, i: nat)
    requires Numbered(items) && Slice(items, n, batch) && i < |batch| && batch[i].Stored?
    requires Conflict(storage, batch).None? && Behind(storage, items, n)
    ensures var k, m := batch[i].state.key, batch[i].message;
            && m.Ours? && m.key == k && m.sn == batch[i].state.seqNum && m.own == Branched(batch[..i], k, m.sn)
            && |Stream(storage, k)| + |Added(batch[..i], k)| == m.sn + m.own
  {
    var k, sn := batch[i].state.key, batch[i].state.seqNum;
    FreshState(storage, items, n, batch, i);
    assert items[n + i] == batch[i];
    assert Labelled(items, n + i);
    hide Numbered, Behind, Conflict, Branched, Added, Stream;
    assert items[..n + i] == items[..n] + batch[..i];
    BranchedAppend(items[..n], batch[..i], k, sn);
    AdmissibleAt(storage, batch, i);
  }

  lemma SameContext(items: seq<Item<Event>>, n: nat, batch: seq<Item<Event>>, j: nat, i: nat)
    requires Numbered(items) && Slice(items, n, batch) && j < i < |batch| && SameState(batch[j], batch[i])
    ensures batch[j].message.cid == batch[i].message.cid
  {
  }

  lemma NewInPlace(storage: Storage<Event>, items: seq<Item<Event>>, n: nat, batch: seq<Item<Event>>, k: string, p: nat)
    requires Numbered(items) && Slice(items, n, batch)
    requires Conflict(storage, batch).None? && Behind(storage, items, n)
    requires |Stream(storage, k)| <= p < |Stream(Append(storage, batch), k)|
    ensures InPlace(Stream(Append(storage, batch), k), k, p)
  {
    hide Numbered, Conflict, Behind, Sound, Append, Slice;
    var s, s' := Stream(storage, k), Stream(Append(storage, batch), k);
    StreamOfAppend(storage, batch, k);
    var i := AddedFrom(batch, k, p - |s|);
    LandsInPlace(storage, items, n, batch, i);
    var e := batch[i].message;
    assert s'[p] == e;
    if e.own > 0 {
      var j := BranchedMember(batch[..i], k, e.sn);
      assert batch[..i][..j] == batch[..j];
      LandsInPlace(storage, items, n, batch, j);
      AddedAt(batch, j);
      assert s'[p - 1] == batch[j].message;
      SameContext(items, n, batch, j, i);
    }
  }

  lemma AcceptedChunkSound(storage: Storage<Event>, items: seq<Item<Event>>, n: nat, batch: seq<Item<Event>>)
    requires Numbered(items) && Slice(items, n, batch) && Sound(storage)
    requires Conflict(storage, batch).None? && Behind(storage, items, n)
    ensures Sound(Append(storage, batch)) && Behind(Append(storage, batch), items, n + |batch|)
  {
    var st := Append(storage, batch);
    forall k, p | k in st && 0 <= p < |st[k]| ensures InPlace(st[k], k, p) {
      StreamOfAppend(storage, batch, k);
      if p < |Stream(storage, k)| {
        assert InPlace(storage[k], k, p);
      } else {
        NewInPlace(storage, items, n, batch, k, p);
      }
    }
    forall j | 0 <= j < n + |batch| && items[j].Stored?
      ensures |Stream(st, items[j].state.key)| > items[j].state.seqNum
    {
      StreamOfAppend(storage, batch, items[j].state.key);
      if j >= n {
        assert batch[j - n] == items[j];
        LandsInPlace(storage, items, n, batch, j - n);
        AddedAt(batch, j - n);
      }
    }
  }

  lemma MergeSound(storage: Storage<Event>, more: Storage<Event>, items: seq<Item<Event>>, n: nat)
    requires n <= |items| && Sound(storage) && Behind(storage, items, n) && AllForeign(more)
    ensures Sound(Merge(storage, more)) && Behind(Merge(storage, more), items, n)
  {
    var st := Merge(storage, more);
    forall k, p | k in st && 0 <= p < |st[k]| ensures InPlace(st[k], k, p) {
      if p < |Stream(storage, k)| {
        assert InPlace(storage[k], k, p);
      } else {
        assert st[k][p] == more[k][p - |Stream(storage, k)|];
      }
    }
    forall j | 0 <= j < n && items[j].Stored?
      ensures |Stream(st, items[j].state.key)| > items[j].state.seqNum
    {
      assert |Stream(storage, items[j].state.key)| > items[j].state.seqNum;
    }
  }

  // ---------- one pass, one call, one round, one run ----------

  ghost predicate SafeWorld(w: World) {
    Sound(w.storage) && OthersOnly(w.pending)
  }

  /** A sink call keeps the store sound; if it accepts, the pass has moved behind its chunk. */
  lemma StepSafe(w: World, items: seq<Item<Event>>, n: nat, batch: seq<Item<Event>>)
    requires SafeWorld(w) && Numbered(items) && Slice(items, n, batch) && Behind(w.storage, items, n)
    ensures var r := CommitStep(w, batch);
            SafeWorld(r.next) && (r.error.None? ==> Behind(r.next.storage, items, n + |batch|))
  {
    var st := w.storage;
    if |w.pending| > 0 {
      assert AllForeign(w.pending[0]);
      MergeSound(w.storage, w.pending[0], items, n);
      st := Merge(w.storage, w.pending[0]);
    }
    if Conflict(st, batch).None? {
      AcceptedChunkSound(st, items, n, batch);
    }
  }

  ghost predicate CommitsTo<P(!new)>(t: Target<World, Item<Event>, Context<Event, P>>) {
    t.accessor == StoreItems<Event, P>() && forall w, b :: t.sink(w, b) == CommitStep(w, b)
  }

  lemma {:induction false} ChunksSafe<P(!new)>(
      t: Target<World, Item<Event>, Context<Event, P>>, w: World, items: seq<Context<Event, P>>,
      cfg: Config<Item<Event>, Context<Event, P>>, chunks: seq<Chunk<Item<Event>, Context<Event, P>>>, k: nat)
    requires CommitsTo(t) && SafeWorld(w) && cfg.accessor == t.accessor
    requires Faithful(cfg, chunks, items) && k <= |chunks| && Numbered(Flat(items, t.accessor))
    ensures var p := RunChunks(t, w, chunks[..k]);
            && SafeWorld(p.state)
            && |Sent(chunks[..k])| <= |Flat(items, t.accessor)|
            && (p.error.None? ==> Behind(p.state.storage, Flat(items, t.accessor), |Sent(chunks[..k])|))
  {
    assert Boundary(cfg, chunks, items, k);
    if k > 0 {
      var init, c := chunks[..k - 1], chunks[k - 1];
      assert chunks[..k] == init + [c];
      ChunksSafe(t, w, items, cfg, chunks, k - 1);
      RunSnoc(t, w, init, c);
      SentSnoc(init, c);
      var q := RunChunks(t, w, init);
      if q.error.None? {
        NextChunk(cfg, chunks, items, k - 1);
        StepSafe(q.state, Flat(items, t.accessor), |Sent(init)|, c.batch);
      }
    }
  }

  lemma AttemptSafe<P(!new)>(t: Target<World, Item<Event>, Context<Event, P>>, w: World,
      items: seq<Context<Event, P>>, size: int)
    requires CommitsTo(t) && SafeWorld(w) && Numbered(Flat(items, t.accessor))
    ensures SafeWorld(Attempt(t, w, items, size).state)
  {
    if size > 0 {
      var cfg := t.Config(size);
      var chunks := Chunks(cfg, items);
      ChunksAreFaithful(cfg, items);
      ChunksSafe(t, w, items, cfg, chunks, |chunks|);
      assert chunks[..|chunks|] == chunks;
    }
  }

  lemma ApartSuffix<P(!new)>(cs: seq<Context<Event, P>>, m: nat)
    requires m <= |cs| && Apart(cs)
    ensures Apart(cs[m..])
  {
  }

  /** Delivering contexts that store on pairwise different states keeps the store sound, through all
      chunks, rejections and bisections, whatever others append in between. */
  lemma {:induction false} HandleSafe<P(!new)>(t: Target<World, Item<Event>, Context<Event, P>>, w: World,
      items: seq<Context<Event, P>>, size: int)
    requires CommitsTo(t) && SafeWorld(w) && Apart(items)
    requires forall i | 0 <= i < |items| :: Tagged(items[i]) && OneRefPerKey(items[i])
    ensures SafeWorld(HandleAt(t, w, items, size).state)
    decreases if size > 0 then size else 0
  {
    hide HandleAt, Attempt, Numbered, Apart, Tagged, OneRefPerKey, SafeWorld;
    HandleCases(t, w, items, size);
    if |Flat(items, t.accessor)| > 0 {
      ApartNumbered(items);
      AttemptSafe(t, w, items, size);
      var p := Attempt(t, w, items, size);
      if p.error.Some? && t.MayRetry(items) && size > 1 {
        ApartSuffix(items, p.completed);
        HandleSafe(t, p.state, items[p.completed..], size / 2);
      }
    }
  }

  /** One call of the coordinator: the contexts of a batch and what others append meanwhile. */
  datatype Round<+P> = Round(epochs: map<string, nat>, contexts: seq<Context<Event, P>>, pending: seq<Storage<Event>>)

  /** The store and the publish sink's state after some rounds. */
  function Run<Q, P>(sinks: Sinks<World, Q, Event, P>, storage: Storage<Event>, q: Q,
      rounds: seq<Round<P>>): (Storage<Event>, Q) {
    if |rounds| == 0 then (storage, q)
    else
      var (st, q) := Run(sinks, storage, q, rounds[..|rounds| - 1]);
      var r := rounds[|rounds| - 1];
      var c := CoordinateSpec(sinks, World(st, r.pending), q, r.epochs, r.contexts);
      (c.store.storage, c.publish)
  }

  ghost predicate ProperRounds<P>(rounds: seq<Round<P>>) {
    forall i | 0 <= i < |rounds| :: WellFormed(rounds[i].contexts) && OthersOnly(rounds[i].pending)
  }

  lemma RoundSafe<Q, P(!new)>(sinks: Sinks<World, Q, Event, P>, w: World, q: Q, epochs: map<string, nat>,
      contexts: seq<Context<Event, P>>)
    requires forall w, b :: sinks.store(w, b) == CommitStep(w, b)
    requires SafeWorld(w) && WellFormed(contexts)
    ensures SafeWorld(CoordinateSpec(sinks, w, q, epochs, contexts).store)
  {
    hide SafeWorld, Linear, GoodCount, HandleAt, CommitStep, CoordinateSpec;
    var n := GoodCount(epochs, contexts);
    var good := contexts[..n];
    var t := sinks.StoreTarget();
    StoreOutcome(sinks, w, q, epochs, contexts);
    PassedFilters(epochs, contexts);
    LinearApart(good);
    HandleSafe(t, w, good, EffectiveSize(None, t.maxBatchSize, |Flat(good, t.accessor)|));
  }

  /** Over any run of batches, with any other writers, any batch size limit and any epochs: every event
      ever appended sits at its state's number plus its index among its context's events for the key. */
  lemma {:induction false} CommitSafety<Q, P(!new)>(sinks: Sinks<World, Q, Event, P>, storage: Storage<Event>, q: Q,
      rounds: seq<Round<P>>)
    requires forall w, b :: sinks.store(w, b) == CommitStep(w, b)
    requires Sound(storage) && ProperRounds(rounds)
    ensures Sound(Run(sinks, storage, q, rounds).0)
  {
    if |rounds| > 0 {
      var init, r := rounds[..|rounds| - 1], rounds[|rounds| - 1];
      CommitSafety(sinks, storage, q, init);
      var (st, q1) := Run(sinks, storage, q, init);
      RoundSafe(sinks, World(st, r.pending), q1, r.epochs, r.contexts);
    }
  }

  // ---------- why the filter is needed ----------

  /** The messages say which state they are stored on. */
  ghost predicate StateTagged(batch: seq<Item<Event>>) {
    forall i | 0 <= i < |batch| && batch[i].Stored? ::
      batch[i].message.Ours? && batch[i].message.key == batch[i].state.key
          && batch[i].message.sn == batch[i].state.seqNum
  }

  /** Where an accepted item of a chunk ends up. */
  lemma PlaceOf(storage: Storage<Event>, batch: seq<Item<Event>>, i: nat) returns (p: nat)
    requires Conflict(storage, batch).None? && i < |batch| && batch[i].Stored?
    ensures var k := batch[i].state.key;
            && p == batch[i].state.seqNum + Branched(batch[..i], k, batch[i].state.seqNum)
            && p < |Stream(Append(storage, batch), k)| && Stream(Append(storage, batch), k)[p] == batch[i].message
            && k in Append(storage, batch)
  {
    hide Branched, Added, Append, Conflict;
    var k := batch[i].state.key;
    AdmissibleAt(storage, batch, i);
    AddedAt(batch, i);
    StreamOfAppend(storage, batch, k);
    p := |Stream(storage, k)| + |Added(batch[..i], k)|;
  }

  lemma LabelledBySound(storage: Storage<Event>, batch: seq<Item<Event>>, i: nat)
    requires Conflict(storage, batch).None? && StateTagged(batch) && Sound(Append(storage, batch))
    requires i < |batch| && batch[i].Stored?
    ensures Labelled(batch, i)
  {
    hide Branched, Append, Conflict;
    var p := PlaceOf(storage, batch, i);
    assert InPlace(Append(storage, batch)[batch[i].state.key], batch[i].state.key, p);
  }

  lemma SameContextBySound(storage: Storage<Event>, batch: seq<Item<Event>>, i: nat, j: nat)
    requires Conflict(storage, batch).None? && StateTagged(batch) && Sound(Append(storage, batch))
    requires i < |batch| && j < |batch| && SameState(batch[i], batch[j])
    ensures batch[i].message.cid == batch[j].message.cid
  {
    hide Branched, Append, Conflict, Sound;
    var k := batch[i].state.key;
    var p := PlaceOf(storage, batch, i);
    var q := PlaceOf(storage, batch, j);
    NoCompetingBranches(Append(storage, batch), k, p, k, q);
  }

  /** Exactly when the sink alone keeps the store sound: an accepted chunk must number the events on every
      state one after the other and take them from one context. Nothing in the sink sees to that. */
  lemma SinkAloneIsSafeIff(storage: Storage<Event>, batch: seq<Item<Event>>)
    requires Sound(storage) && StateTagged(batch) && Conflict(storage, batch).None?
    ensures Sound(Append(storage, batch)) <==> Numbered(batch)
  {
    hide Sound, Conflict, Append, Labelled;
    if Numbered(batch) {
      NothingBehind(storage, batch);
      AcceptedChunkSound(storage, batch, 0, batch);
    }
    if Sound(Append(storage, batch)) {
      forall i | 0 <= i < |batch| && batch[i].Stored? ensures Labelled(batch, i) {
        LabelledBySound(storage, batch, i);
      }
      forall i, j | 0 <= i < j < |batch| && SameState(batch[i], batch[j])
        ensures batch[i].message.cid == batch[j].message.cid
      {
        SameContextBySound(storage, batch, i, j);
      }
    }
  }

  lemma NothingBehind(storage: Storage<Event>, batch: seq<Item<Event>>)
    ensures Slice(batch, 0, batch) && Behind(storage, batch, 0)
  {
  }

  /** Two events on one state are accepted exactly if that state is current, whoever stores them; if two
      contexts do, the store is no longer sound. */
  lemma SinkAloneAcceptsCompetingBranches(storage: Storage<Event>, s: StateRef, x: Event, y: Event)
    ensures var batch := [Stored(s, x), Stored(s, y)];
            && (Conflict(storage, batch).None? <==> s.seqNum == |Stream(storage, s.key)|)
            && (Conflict(storage, batch).None? && StateTagged(batch) && x.cid != y.cid ==>
                !Sound(Append(storage, batch)))
  {
    var one: seq<Item<Event>> := [Stored(s, x)];
    var batch := [Stored(s, x), Stored(s, y)];
    assert batch[..1] == one && one[..0] == [];
    assert Branched(one, s.key, s.seqNum) == 1 && Added(one, s.key) == [x];
    assert Conflict(storage, one).None? <==> Admissible(storage, [], Stored(s, x));
    assert Conflict(storage, batch).None? <==> Conflict(storage, one).None? && Admissible(storage, one, Stored(s, y));
    if Conflict(storage, batch).None? && StateTagged(batch) && x.cid != y.cid && Sound(Append(storage, batch)) {
      assert batch[0].message.Ours? && batch[1].message.Ours?;
      SameContextBySound(storage, batch, 0, 1);
    }
  }

  /** When a verification passes: its state is current, or the chunk's own items branched off that very
      state and led to the current one, in which case a stale read goes unnoticed. */
  lemma VerificationPassesIff(storage: Storage<Event>, before: seq<Item<Event>>, s: StateRef)
    requires Conflict(storage, before).None?
    ensures Conflict(storage, before + [Verification(s)]).None?
            <==> s.seqNum + Branched(before, s.key, s.seqNum) == |Stream(Append(storage, before), s.key)|
  {
    var items := before + [Verification(s)];
    assert items[..|before|] == before;
    StreamOfAppend(storage, before, s.key);
  }
}
