/** What the linearity filter means for contexts, without its lookup table:
    packages/core/src/internal/batching/helper.ts:141-202 behind lines 100-104 of SinkCoordinator.ts. */
module Histories {
  import opened Wrappers
  import opened Sequences
  import opened Model
  import opened Filters
  import opened Coordinator

  // ---------- what contexts store on a key ----------

  /** How many of the events go to `key`. */
  function EventsOn<M>(stored: seq<StoredMessage<M>>, key: string): nat {
    if |stored| == 0 then 0
    else EventsOn(stored[..|stored| - 1], key) + if stored[|stored| - 1].state.key == key then 1 else 0
  }

  /** The number of the state that the first event for `key` is stored on. */
  function StartOn<M>(stored: seq<StoredMessage<M>>, key: string): nat
    requires EventsOn(stored, key) > 0
  {
    if EventsOn(stored[..|stored| - 1], key) > 0 then StartOn(stored[..|stored| - 1], key)
    else stored[|stored| - 1].state.seqNum
  }

  predicate WritesTo<M, P>(c: Context<M, P>, key: string) {
    EventsOn(c.stored, key) > 0
  }

  /** How many events the contexts store on `key`. */
  function EventsOf<M, P>(cs: seq<Context<M, P>>, key: string): nat {
    if |cs| == 0 then 0 else EventsOf(cs[..|cs| - 1], key) + EventsOn(cs[|cs| - 1].stored, key)
  }

  /** The first of the contexts that writes `key`, and the last. */
  function FirstWriter<M, P>(cs: seq<Context<M, P>>, key: string): (c: Context<M, P>)
    requires EventsOf(cs, key) > 0
    ensures WritesTo(c, key)
  {
    if EventsOf(cs[..|cs| - 1], key) > 0 then FirstWriter(cs[..|cs| - 1], key) else cs[|cs| - 1]
  }

  function LastWriter<M, P>(cs: seq<Context<M, P>>, key: string): (c: Context<M, P>)
    requires EventsOf(cs, key) > 0
    ensures WritesTo(c, key)
  {
    if WritesTo(cs[|cs| - 1], key) then cs[|cs| - 1] else LastWriter(cs[..|cs| - 1], key)
  }

  /** `c` takes up `key` where the contexts before it have left it, or belongs to the message that wrote it
      last. */
  predicate TakesUp<M, P>(before: seq<Context<M, P>>, c: Context<M, P>, key: string)
    requires WritesTo(c, key)
  {
    EventsOf(before, key) > 0 ==>
      || LastWriter(before, key).sequence == c.sequence
      || StartOn(c.stored, key) == StartOn(FirstWriter(before, key).stored, key) + EventsOf(before, key)
  }

  ghost predicate Fits<M, P>(before: seq<Context<M, P>>, c: Context<M, P>) {
    forall key | WritesTo(c, key) :: TakesUp(before, c, key)
  }

  /** Every context starts, on every key it writes, where the earlier ones have led. */
  ghost predicate Chained<M, P>(cs: seq<Context<M, P>>) {
    forall a | 0 <= a < |cs| :: Fits(cs[..a], cs[a])
  }

  // ---------- from contexts to writes ----------

  function AllWrites<M, P>(): Context<M, P> -> seq<Write> {
    WritesOf(Branches<M, P>())
  }

  lemma WriteAt<M, P>(c: Context<M, P>, i: nat)
    requires i < |c.stored|
    ensures |AllWrites<M, P>()(c)| == |c.stored| && AllWrites<M, P>()(c)[i] == Write(c.stored[i].state, c.sequence)
  {
  }

  lemma {:induction false} CountOf<M, P>(c: Context<M, P>, n: nat, key: string)
    requires n <= |c.stored| == |AllWrites<M, P>()(c)|
    ensures CountKey(AllWrites<M, P>()(c)[..n], key) == EventsOn(c.stored[..n], key)
    ensures EventsOn(c.stored[..n], key) > 0 ==>
              && FirstSn(AllWrites<M, P>()(c)[..n], key) == StartOn(c.stored[..n], key)
              && LastSource(AllWrites<M, P>()(c)[..n], key) == c.sequence
  {
    if n > 0 {
      var w, s := AllWrites<M, P>()(c)[..n], c.stored[..n];
      CountOf(c, n - 1, key);
      WriteAt(c, n - 1);
      assert w[..n - 1] == AllWrites<M, P>()(c)[..n - 1] && s[..n - 1] == c.stored[..n - 1];
      hide AllWrites;
    }
  }

  lemma {:induction false} CountBoth(v: seq<Write>, w: seq<Write>, key: string)
    ensures CountKey(v + w, key) == CountKey(v, key) + CountKey(w, key)
    ensures CountKey(v + w, key) > 0 ==>
              && FirstSn(v + w, key) == (if CountKey(v, key) > 0 then FirstSn(v, key) else FirstSn(w, key))
              && LastSource(v + w, key) == (if CountKey(w, key) > 0 then LastSource(w, key) else LastSource(v, key))
  {
    if w == [] {
      assert v + w == v;
    } else {
      var n := |w| - 1;
      assert (v + w)[..|v + w| - 1] == v + w[..n];
      CountBoth(v, w[..n], key);
    }
  }

  lemma WholeContext<M, P>(c: Context<M, P>, key: string)
    ensures var w := AllWrites<M, P>()(c);
            && CountKey(w, key) == EventsOn(c.stored, key)
            && (EventsOn(c.stored, key) > 0 ==>
                  FirstSn(w, key) == StartOn(c.stored, key) && LastSource(w, key) == c.sequence)
  {
    CountOf(c, |c.stored|, key);
    assert c.stored[..|c.stored|] == c.stored;
    assert AllWrites<M, P>()(c)[..|c.stored|] == AllWrites<M, P>()(c);
  }

  lemma {:induction false} HistoryOf<M, P>(cs: seq<Context<M, P>>, key: string)
    ensures var w := Flat(cs, AllWrites<M, P>());
            && CountKey(w, key) == EventsOf(cs, key)
            && (EventsOf(cs, key) > 0 ==>
                  && FirstSn(w, key) == StartOn(FirstWriter(cs, key).stored, key)
                  && LastSource(w, key) == LastWriter(cs, key).sequence)
  {
    hide AllWrites, CountKey, FirstSn, LastSource, EventsOn, StartOn;
    if |cs| == 0 {
      NoWrites(key);
    } else {
      var init, c := cs[..|cs| - 1], cs[|cs| - 1];
      HistoryOf(init, key);
      WholeContext(c, key);
      CountBoth(Flat(init, AllWrites<M, P>()), AllWrites<M, P>()(c), key);
    }
  }

  lemma NoWrites(key: string)
    ensures CountKey([], key) == 0
  {
  }

  // ---------- the filter ----------

  /** Write `i` of `c` behind `before` continues its history exactly if it is not the first of `c` for its
      key, or `c` takes the key up. */
  lemma ExtendsIff<M, P>(before: seq<Context<M, P>>, c: Context<M, P>, i: nat)
    requires i < |c.stored| == |AllWrites<M, P>()(c)|
    ensures var w0, wc, key := Flat(before, AllWrites<M, P>()), AllWrites<M, P>()(c), c.stored[i].state.key;
            && WritesTo(c, key)
            && (EventsOn(c.stored[..i], key) > 0 ==> Extends(w0 + wc[..i], wc[i]))
            && (EventsOn(c.stored[..i], key) == 0 ==> (Extends(w0 + wc[..i], wc[i]) <==> TakesUp(before, c, key)))
  {
    var w0, wc, key := Flat(before, AllWrites<M, P>()), AllWrites<M, P>()(c), c.stored[i].state.key;
    WriteAt(c, i);
    CountOf(c, i, key);
    HistoryOf(before, key);
    CountBoth(w0, wc[..i], key);
    FirstEvent(c.stored, i);
    hide AllWrites, Flat, CountKey, FirstSn, LastSource, EventsOn, StartOn;
  }

  lemma {:induction false} FirstEvent<M>(stored: seq<StoredMessage<M>>, i: nat)
    requires i < |stored|
    ensures var key := stored[i].state.key;
            && EventsOn(stored, key) > 0
            && (EventsOn(stored[..i], key) == 0 ==> StartOn(stored, key) == stored[i].state.seqNum)
  {
    var n := |stored| - 1;
    if i < n {
      FirstEvent(stored[..n], i);
      assert stored[..n][..i] == stored[..i];
    }
  }

  lemma {:induction false} SomeFirst<M>(stored: seq<StoredMessage<M>>, key: string) returns (i: nat)
    requires EventsOn(stored, key) > 0
    ensures i < |stored| && stored[i].state.key == key && EventsOn(stored[..i], key) == 0
  {
    var n := |stored| - 1;
    if EventsOn(stored[..n], key) > 0 {
      i := SomeFirst(stored[..n], key);
      assert stored[..n][..i] == stored[..i];
    } else {
      i := n;
    }
  }

  /** All of the writes `added` continue the histories in `w` and one another. */
  ghost predicate AllExtend(w: seq<Write>, added: seq<Write>) {
    forall i | 0 <= i < |added| :: Extends(w + added[..i], added[i])
  }

  lemma AllExtendIff<M, P>(before: seq<Context<M, P>>, c: Context<M, P>)
    ensures AllExtend(Flat(before, AllWrites<M, P>()), AllWrites<M, P>()(c)) <==> Fits(before, c)
  {
    var w0, wc := Flat(before, AllWrites<M, P>()), AllWrites<M, P>()(c);
    assert |wc| == |c.stored|;
    hide AllWrites, Flat, Extends, TakesUp, EventsOn;
    if Fits(before, c) {
      forall i | 0 <= i < |wc| ensures Extends(w0 + wc[..i], wc[i]) {
        ExtendsIff(before, c, i);
      }
    }
    if AllExtend(w0, wc) {
      forall key | WritesTo(c, key) ensures TakesUp(before, c, key) {
        var i := SomeFirst(c.stored, key);
        ExtendsIff(before, c, i);
        assert Extends(w0 + wc[..i], wc[i]);
      }
    }
  }

  lemma LinearBoth(w: seq<Write>, added: seq<Write>)
    ensures Linear(w + added) <==> Linear(w) && AllExtend(w, added)
  {
    hide Extends;
    var all := w + added;
    forall j | 0 <= j < |w| ensures all[..j] == w[..j] && all[j] == w[j] {
    }
    forall i | 0 <= i < |added| ensures all[..|w| + i] == w + added[..i] && all[|w| + i] == added[i] {
    }
    if Linear(all) {
      forall i | 0 <= i < |added| ensures Extends(w + added[..i], added[i]) {
        assert Extends(all[..|w| + i], all[|w| + i]);
      }
      forall j | 0 <= j < |w| ensures Extends(w[..j], w[j]) {
        assert Extends(all[..j], all[j]);
      }
    }
    if Linear(w) && AllExtend(w, added) {
      forall j | 0 <= j < |all| ensures Extends(all[..j], all[j]) {
        if j >= |w| {
          assert Extends(w + added[..j - |w|], added[j - |w|]);
        }
      }
    }
  }

  lemma ChainedSnoc<M, P>(init: seq<Context<M, P>>, c: Context<M, P>)
    ensures Chained(init + [c]) <==> Chained(init) && Fits(init, c)
  {
    hide Fits;
    var cs := init + [c];
    assert cs[..|init|] == init && cs[|init|] == c;
    forall a | 0 <= a < |init| ensures cs[..a] == init[..a] && cs[a] == init[a] {
    }
    if Chained(cs) {
      forall a | 0 <= a < |init| ensures Fits(init[..a], init[a]) {
        assert Fits(cs[..a], cs[a]);
      }
      assert Fits(cs[..|init|], cs[|init|]);
    }
  }

  /** The writes of some contexts are a linear history exactly if every context takes up every key where the
      earlier ones have left it. */
  lemma {:induction false} ChainedIff<M, P>(cs: seq<Context<M, P>>)
    ensures Linear(Flat(cs, AllWrites<M, P>())) <==> Chained(cs)
  {
    if |cs| > 0 {
      hide AllWrites, Linear, Chained, AllExtend, Fits;
      var init, c := cs[..|cs| - 1], cs[|cs| - 1];
      assert cs == init + [c];
      ChainedIff(init);
      LinearBoth(Flat(init, AllWrites<M, P>()), AllWrites<M, P>()(c));
      AllExtendIff(init, c);
      ChainedSnoc(init, c);
    }
  }

  /** The linearity filter lets the first `n` contexts through exactly if they are chained, and the first one
      it cuts off does not fit behind those in front of it. */
  lemma PassIff<M, P>(cs: seq<Context<M, P>>, n: nat)
    requires n <= |cs|
    ensures var r := FilterNonLinearSpec(cs, Branches<M, P>());
            && (n <= |r.successful| <==> Chained(cs[..n]))
            && r.successful + r.failed == cs
            && (r.failed != [] ==> Chained(r.successful) && !Fits(r.successful, r.failed[0]))
  {
    hide Chained, Linear, Flat, FirstBreak, LinearPrefix, Fits;
    var m := LinearPrefix(cs, Branches<M, P>());
    LongestLinearPrefix(cs, Branches<M, P>(), n);
    ChainedIff(cs[..n]);
    LongestLinearPrefix(cs, Branches<M, P>(), m);
    ChainedIff(cs[..m]);
    if m < |cs| {
      LongestLinearPrefix(cs, Branches<M, P>(), m + 1);
      ChainedIff(cs[..m + 1]);
      assert cs[..m + 1] == cs[..m] + [cs[m]];
      ChainedSnoc(cs[..m], cs[m]);
    }
  }

  /** The refusal names a key that the first context cut off does not take up, with the number it starts at
      and the one it should start at. */
  ghost predicate Misses<M, P>(e: BatchError, before: seq<Context<M, P>>, c: Context<M, P>, key: string) {
    && WritesTo(c, key) && !TakesUp(before, c, key)
    && var start := StartOn(c.stored, key);
       var due := StartOn(FirstWriter(before, key).stored, key) + EventsOf(before, key);
       start != due
       && e == BatchError(SequenceConflict(ConflictDetails(key, start + 1, start, due, None, None)), false)
  }

  lemma BreakOf<M, P>(before: seq<Context<M, P>>, c: Context<M, P>, i: nat)
    requires i < |c.stored| == |AllWrites<M, P>()(c)|
    requires var w0, wc := Flat(before, AllWrites<M, P>()), AllWrites<M, P>()(c); !Extends(w0 + wc[..i], wc[i])
    ensures var w0, wc := Flat(before, AllWrites<M, P>()), AllWrites<M, P>()(c);
            Misses(NonLinearError(w0 + wc[..i], wc[i]), before, c, c.stored[i].state.key)
  {
    var w0, wc, key := Flat(before, AllWrites<M, P>()), AllWrites<M, P>()(c), c.stored[i].state.key;
    ExtendsIff(before, c, i);
    WriteAt(c, i);
    CountOf(c, i, key);
    HistoryOf(before, key);
    CountBoth(w0, wc[..i], key);
    FirstEvent(c.stored, i);
    hide AllWrites, Flat, CountKey, FirstSn, LastSource, EventsOn, StartOn;
  }

  lemma CutIsReported<M, P>(cs: seq<Context<M, P>>)
    ensures var r := FilterNonLinearSpec(cs, Branches<M, P>());
            && (r.error.Some? <==> r.failed != [])
            && (r.failed != [] ==> exists key :: Misses(r.error.value, r.successful, r.failed[0], key))
  {
    hide Linear, Flat, FirstBreak, LinearPrefix, Misses, NonLinearError, Extends, AllExtend;
    var w, m := Flat(cs, AllWrites<M, P>()), LinearPrefix(cs, Branches<M, P>());
    LongestLinearPrefix(cs, Branches<M, P>(), m);
    if m == |cs| {
      assert cs[..m] == cs;
      NoBreak(cs, Branches<M, P>());
    } else {
      LongestLinearPrefix(cs, Branches<M, P>(), m + 1);
      var c := cs[m];
      NextItem(cs, Branches<M, P>(), m);
      var w0, wc := Flat(cs[..m], AllWrites<M, P>()), AllWrites<M, P>()(c);
      LinearBoth(w0, wc);
      var i := FirstMiss(w0, wc);
      FlatPrefix(cs, m + 1, AllWrites<M, P>());
      LinearUpTo(w0, wc, i);
      BreaksAt(w0 + wc[..i], wc[i], w);
      WritesMatch(c);
      BreakOf(cs[..m], c, i);
    }
  }

  lemma WritesMatch<M, P>(c: Context<M, P>)
    ensures |AllWrites<M, P>()(c)| == |c.stored|
  {
  }

  lemma {:induction false} FirstMiss(w: seq<Write>, added: seq<Write>) returns (i: nat)
    requires !AllExtend(w, added)
    ensures i < |added| && !Extends(w + added[..i], added[i]) && AllExtend(w, added[..i])
  {
    hide Extends;
    var n := |added| - 1;
    if AllExtend(w, added[..n]) {
      forall j | 0 <= j < n ensures added[..n][..j] == added[..j] {
      }
      i := n;
    } else {
      i := FirstMiss(w, added[..n]);
      assert added[..n][..i] == added[..i];
    }
  }

  lemma LinearUpTo(w: seq<Write>, added: seq<Write>, i: nat)
    requires i < |added| && Linear(w) && AllExtend(w, added[..i])
    ensures Linear(w + added[..i]) && (w + added[..i]) + [added[i]] <= w + added
  {
    hide Linear, AllExtend;
    LinearBoth(w, added[..i]);
  }

  /** Both filters together: the first `n` contexts reach the store exactly if none of them is based on a
      stale state and they are chained. */
  lemma GoodIff<M, P>(epochs: map<string, nat>, cs: seq<Context<M, P>>, n: nat)
    requires n <= |cs|
    ensures n <= GoodCount(epochs, cs) <==>
            (forall i | 0 <= i < n :: !HasStale(epochs, cs[i].loaded)) && Chained(cs[..n])
  {
    hide Chained, Linear, Flat, LinearPrefix, HasStale;
    var i := FirstStale(epochs, cs, Loaded<M, P>());
    if n <= i {
      LongestLinearPrefix(cs[..i], Branches<M, P>(), n);
      assert cs[..i][..n] == cs[..n];
      ChainedIff(cs[..n]);
    }
  }
}
