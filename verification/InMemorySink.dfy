/** The all-or-nothing, sequence-checked append: packages/core/src/defaults/InMemoryStateOutputSink.ts. */
module InMemorySink {
  import opened Wrappers
  import opened Model
  import opened BatchHandling
  import opened SinkLimits

  type Storage<M> = map<string, seq<M>>

  function Stream<M>(storage: Storage<M>, key: string): seq<M> {
    if key in storage then storage[key] else []
  }

  // ---------- what a list of items means, without counters ----------

  /** How many of the items store an event on the state (key, sn). */
  function Branched<M>(items: seq<Item<M>>, key: string, sn: nat): nat {
    if |items| == 0 then 0
    else
      var x := items[|items| - 1];
      Branched(items[..|items| - 1], key, sn) + if x.Stored? && x.state.key == key && x.state.seqNum == sn then 1 else 0
  }

  /** The events the items store on stream `key`, in order. */
  function Added<M>(items: seq<Item<M>>, key: string): seq<M> {
    if |items| == 0 then []
    else
      var x := items[|items| - 1];
      Added(items[..|items| - 1], key) + if x.Stored? && x.state.key == key then [x.message] else []
  }

  /** The sequence number `x` claims behind `before` is the length its stream has by then. */
  predicate Admissible<M>(storage: Storage<M>, before: seq<Item<M>>, x: Item<M>) {
    x.state.seqNum + Branched(before, x.state.key, x.state.seqNum)
    == |Stream(storage, x.state.key)| + |Added(before, x.state.key)|
  }

  function SinkConflict<M>(storage: Storage<M>, before: seq<Item<M>>, x: Item<M>): Error {
    var sn := x.state.seqNum + Branched(before, x.state.key, x.state.seqNum);
    SequenceConflict(ConflictDetails(
      x.state.key, sn, sn, |Stream(storage, x.state.key)| + |Added(before, x.state.key)|, None, None))
  }

  /** The conflict at the first item that is not admissible. */
  function Conflict<M>(storage: Storage<M>, items: seq<Item<M>>): Option<Error> {
    if |items| == 0 then None
    else
      var before, x := items[..|items| - 1], items[|items| - 1];
      var c := Conflict(storage, before);
      if c.Some? || Admissible(storage, before, x) then c else Some(SinkConflict(storage, before, x))
  }

  function WrittenKeys<M>(items: seq<Item<M>>): set<string> {
    if |items| == 0 then {}
    else
      var x := items[|items| - 1];
      WrittenKeys(items[..|items| - 1]) + if x.Stored? then {x.state.key} else {}
  }

  function Append<M>(storage: Storage<M>, items: seq<Item<M>>): Storage<M> {
    map k | k in storage.Keys + WrittenKeys(items) :: Stream(storage, k) + Added(items, k)
  }

  function SinkSpec<M>(storage: Storage<M>, items: seq<Item<M>>): SinkReply<Storage<M>> {
    var c := Conflict(storage, items);
    if c.Some? then SinkReply(storage, c) else SinkReply(Append(storage, items), None)
  }

  // ---------- the sink ----------

  class InMemoryStateOutputSink<M> {
    var storage: Storage<M>

    constructor (storage: Storage<M>)
      ensures this.storage == storage
    {
      this.storage := storage;
    }

    /** InMemoryStateOutputSink.ts:22-54. */
    method Sink(output: seq<Item<M>>) returns (error: Option<Error>)
      modifies this
      ensures SinkReply(storage, error) == SinkSpec(old(storage), output)
    {
      var updates;
      updates, error := Collect(output);
      if error.None? {
        Apply(updates);
        assert storage == Append(old(storage), output) by {
          forall k | k in storage ensures storage[k] == Append(old(storage), output)[k] {
            assert storage[k] == Stream(storage, k);
          }
        }
      }
    }

    /** Lines 26-45: the checks, which leave the storage alone. */
    method Collect(output: seq<Item<M>>) returns (updates: map<string, seq<M>>, error: Option<Error>)
      ensures error == Conflict(storage, output)
      ensures error.None? ==> Buffers(updates, output)
    {
      hide Tallies, Buffers, Conflict, Branched, Added, WrittenKeys;
      NothingCollected(storage);
      var counter: map<(string, nat), nat> := map[];
      updates := map[];
      for i := 0 to |output|
        invariant Conflict(storage, output[..i]) == None
        invariant Tallies(counter, output[..i])
        invariant Buffers(updates, output[..i])
      {
        var msg := output[i];
        assert output[..i + 1] == output[..i] + [msg];
        CollectSnoc(storage, counter, updates, output[..i], msg);
        var existing := Stream(storage, msg.state.key);
        var additions := Stream(updates, msg.state.key);
        var uniqueId := (msg.state.key, msg.state.seqNum);
        var inc := if uniqueId in counter then counter[uniqueId] else 0;
        if msg.state.seqNum + inc != |existing| + |additions| {
          ConflictStays(storage, output, i + 1);
          var actualSn := |existing| + |additions|;
          error := Some(SequenceConflict(ConflictDetails(
            msg.state.key, msg.state.seqNum + inc, msg.state.seqNum + inc, actualSn, None, None)));
          return;
        }
        if msg.Stored? {
          counter := counter[uniqueId := inc + 1];
          updates := updates[msg.state.key := additions + [msg.message]];
        }
      }
      assert output[..|output|] == output;
      error := None;
    }

    /** Lines 47-51. */
    method Apply(updates: map<string, seq<M>>)
      modifies this
      ensures storage.Keys == old(storage).Keys + updates.Keys
      ensures forall k :: Stream(storage, k) == Stream(old(storage), k) + Stream(updates, k)
    {
      var keys := updates.Keys;
      while keys != {}
        invariant keys <= updates.Keys
        invariant storage.Keys == old(storage).Keys + (updates.Keys - keys)
        invariant forall k ::
                    Stream(storage, k) == Stream(old(storage), k) + (if k in keys then [] else Stream(updates, k))
        decreases keys
      {
        var key :| key in keys;
        storage := storage[key := Stream(storage, key) + updates[key]];
        keys := keys - {key};
      }
    }
  }

  ghost predicate Tallies<M>(counter: map<(string, nat), nat>, items: seq<Item<M>>) {
    forall k: string, n: nat :: (if (k, n) in counter then counter[(k, n)] else 0) == Branched(items, k, n)
  }

  ghost predicate Buffers<M>(updates: map<string, seq<M>>, items: seq<Item<M>>) {
    updates.Keys == WrittenKeys(items) && forall k :: Stream(updates, k) == Added(items, k)
  }

  lemma ItemsSnoc<M>(items: seq<Item<M>>, x: Item<M>, key: string, sn: nat)
    ensures Branched(items + [x], key, sn)
            == Branched(items, key, sn) + if x.Stored? && x.state.key == key && x.state.seqNum == sn then 1 else 0
    ensures Added(items + [x], key) == Added(items, key) + if x.Stored? && x.state.key == key then [x.message] else []
  {
  }

  lemma TallySnoc<M>(counter: map<(string, nat), nat>, items: seq<Item<M>>, x: Item<M>)
    requires Tallies(counter, items)
    ensures x.Stored? ==>
              var id := (x.state.key, x.state.seqNum);
              Tallies(counter[id := (if id in counter then counter[id] else 0) + 1], items + [x])
    ensures x.Verification? ==> Tallies(counter, items + [x])
  {
  }

  lemma BufferSnoc<M>(updates: map<string, seq<M>>, items: seq<Item<M>>, x: Item<M>)
    requires Buffers(updates, items)
    ensures x.Stored? ==> Buffers(updates[x.state.key := Stream(updates, x.state.key) + [x.message]], items + [x])
    ensures x.Verification? ==> Buffers(updates, items + [x])
  {
    var all := items + [x];
    assert all[..|items|] == items;
    forall k: string
      ensures Added(all, k) == Added(items, k) + if x.Stored? && x.state.key == k then [x.message] else []
    {
      ItemsSnoc(items, x, k, 0);
    }
  }

  lemma NothingCollected<M>(storage: Storage<M>)
    ensures Tallies<M>(map[], []) && Buffers<M>(map[], []) && Conflict(storage, []).None?
  {
  }

  function Tally(counter: map<(string, nat), nat>, s: StateRef): nat {
    if (s.key, s.seqNum) in counter then counter[(s.key, s.seqNum)] else 0
  }

  /** What the loop finds out about `x`. */
  function Found<M>(storage: Storage<M>, counter: map<(string, nat), nat>, updates: map<string, seq<M>>,
      x: Item<M>): Option<Error> {
    var sn, actualSn := x.state.seqNum + Tally(counter, x.state),
        |Stream(storage, x.state.key)| + |Stream(updates, x.state.key)|;
    if sn == actualSn then None else Some(SequenceConflict(ConflictDetails(x.state.key, sn, sn, actualSn, None, None)))
  }

  lemma TallyIs<M>(counter: map<(string, nat), nat>, items: seq<Item<M>>, s: StateRef)
    requires Tallies(counter, items)
    ensures Tally(counter, s) == Branched(items, s.key, s.seqNum)
  {
  }

  lemma BufferIs<M>(updates: map<string, seq<M>>, items: seq<Item<M>>, key: string)
    requires Buffers(updates, items)
    ensures Stream(updates, key) == Added(items, key)
  {
  }

  lemma FoundIs<M>(storage: Storage<M>, counter: map<(string, nat), nat>, updates: map<string, seq<M>>,
      items: seq<Item<M>>, x: Item<M>)
    requires Tallies(counter, items) && Buffers(updates, items) && Conflict(storage, items).None?
    ensures Conflict(storage, items + [x]) == Found(storage, counter, updates, x)
  {
    hide Tallies, Buffers, Branched, Added;
    assert (items + [x])[..|items|] == items;
    TallyIs(counter, items, x.state);
    BufferIs(updates, items, x.state.key);
  }

  lemma CollectSnoc<M>(storage: Storage<M>, counter: map<(string, nat), nat>, updates: map<string, seq<M>>,
      items: seq<Item<M>>, x: Item<M>)
    requires Tallies(counter, items) && Buffers(updates, items) && Conflict(storage, items).None?
    ensures Conflict(storage, items + [x]) == Found(storage, counter, updates, x)
    ensures x.Stored? ==>
              && Tallies(counter[(x.state.key, x.state.seqNum) := Tally(counter, x.state) + 1], items + [x])
              && Buffers(updates[x.state.key := Stream(updates, x.state.key) + [x.message]], items + [x])
    ensures x.Verification? ==> Tallies(counter, items + [x]) && Buffers(updates, items + [x])
  {
    hide Tallies, Buffers, Conflict, Found;
    FoundIs(storage, counter, updates, items, x);
    TallySnoc(counter, items, x);
    BufferSnoc(updates, items, x);
  }

  lemma {:induction false} ConflictStays<M>(storage: Storage<M>, items: seq<Item<M>>, i: nat)
    requires i <= |items| && Conflict(storage, items[..i]).Some?
    ensures Conflict(storage, items) == Conflict(storage, items[..i])
  {
    if i == |items| {
      assert items[..i] == items;
    } else {
      var init := items[..|items| - 1];
      assert init[..i] == items[..i];
      ConflictStays(storage, init, i);
    }
  }

  // ---------- what acceptance means ----------

  lemma {:induction false} AcceptedIff<M>(storage: Storage<M>, items: seq<Item<M>>)
    ensures Conflict(storage, items).None? <==> forall i | 0 <= i < |items| :: Admissible(storage, items[..i], items[i])
  {
    if |items| > 0 {
      var n := |items| - 1;
      var init := items[..n];
      AcceptedIff(storage, init);
      forall i | 0 <= i < n ensures init[..i] == items[..i] {}
      if Conflict(storage, items).None? {
        forall i | 0 <= i < |items| ensures Admissible(storage, items[..i], items[i]) {
          if i < n { assert Admissible(storage, init[..i], init[i]); }
        }
      } else if Conflict(storage, init).Some? {
        var i :| 0 <= i < n && !Admissible(storage, init[..i], init[i]);
        assert !Admissible(storage, items[..i], items[i]);
      }
    }
  }

  lemma ConflictAt<M>(storage: Storage<M>, items: seq<Item<M>>, i: nat)
    requires i < |items| && !Admissible(storage, items[..i], items[i])
    requires forall j | 0 <= j < i :: Admissible(storage, items[..j], items[j])
    ensures Conflict(storage, items) == Some(SinkConflict(storage, items[..i], items[i]))
  {
    hide Admissible, SinkConflict;
    AcceptedIff(storage, items[..i]);
    forall j | 0 <= j < i ensures items[..i][..j] == items[..j] {}
    assert items[..i + 1][..i] == items[..i];
    ConflictStays(storage, items, i + 1);
  }

  /** A refusal names the first item that does not fit, with the number it claims and the one that counts. */
  lemma ConflictIsFirst<M>(storage: Storage<M>, items: seq<Item<M>>, i: nat)
    requires i < |items| && !Admissible(storage, items[..i], items[i])
    requires forall j | 0 <= j < i :: Admissible(storage, items[..j], items[j])
    ensures var x, before := items[i], items[..i];
            var claimed := x.state.seqNum + Branched(before, x.state.key, x.state.seqNum);
            var actual := |Stream(storage, x.state.key)| + |Added(before, x.state.key)|;
            && claimed != actual
            && Conflict(storage, items)
                == Some(SequenceConflict(ConflictDetails(x.state.key, claimed, claimed, actual, None, None)))
  {
    hide Conflict, Branched, Added, Stream;
    ConflictAt(storage, items, i);
  }

  lemma StreamOfAppend<M>(storage: Storage<M>, items: seq<Item<M>>, key: string)
    ensures Stream(Append(storage, items), key) == Stream(storage, key) + Added(items, key)
  {
  }

  lemma {:induction false} AddedAppend<M>(a: seq<Item<M>>, b: seq<Item<M>>, key: string)
    ensures Added(a + b, key) == Added(a, key) + Added(b, key)
  {
    if b == [] {
      assert a + b == a;
    } else {
      var n := |b| - 1;
      assert (a + b)[..|a + b| - 1] == a + b[..n];
      AddedAppend(a, b[..n], key);
    }
  }

  /** The sink as a function, the way a delivery uses it. */
  function Calling<M>(): (Storage<M>, seq<Item<M>>) -> SinkReply<Storage<M>> {
    (storage: Storage<M>, batch: seq<Item<M>>) => SinkSpec(storage, batch)
  }

  /** The store is what it was, with the accepted chunks appended in order: a refusal leaves nothing behind. */
  lemma {:induction false} OnlyAcceptedIsStored<M>(storage: Storage<M>, calls: seq<Call<Item<M>>>, key: string)
    requires Genuine(Calling<M>(), storage, calls)
    ensures Stream(Fed(Calling<M>(), storage, calls), key) == Stream(storage, key) + Added(Accepted(calls), key)
  {
    hide SinkSpec, Added, Genuine, Stream, Fed, Calling, Accepted;
    if |calls| > 0 {
      var init, last := calls[..|calls| - 1], calls[|calls| - 1];
      assert calls == init + [last];
      LastCall(storage, calls);
      GenuineInit(Calling<M>(), storage, calls);
      OnlyAcceptedIsStored(storage, init, key);
      SinkAdds(Fed(Calling<M>(), storage, init), last.batch, key);
      AcceptedSnoc(init, last);
      AddedAppend(Accepted(init), last.batch, key);
      assert Accepted(init) + [] == Accepted(init);
    } else {
      NoCalls(storage, key);
    }
  }

  lemma NoCalls<M>(storage: Storage<M>, key: string)
    ensures Fed(Calling<M>(), storage, []) == storage && Added(Accepted<Item<M>>([]), key) == []
  {
  }

  lemma LastCall<M>(storage: Storage<M>, calls: seq<Call<Item<M>>>)
    requires Genuine(Calling<M>(), storage, calls) && |calls| > 0
    ensures var last, before := calls[|calls| - 1], Fed(Calling<M>(), storage, calls[..|calls| - 1]);
            var r := SinkSpec(before, last.batch);
            (last.accepted <==> r.error.None?) && Fed(Calling<M>(), storage, calls) == r.next
  {
    hide SinkSpec;
    GenuineLast(Calling<M>(), storage, calls);
  }

  lemma GenuineInit<S, T>(sink: (S, seq<T>) -> SinkReply<S>, s: S, calls: seq<Call<T>>)
    requires Genuine(sink, s, calls) && |calls| > 0
    ensures Genuine(sink, s, calls[..|calls| - 1])
  {
    var init := calls[..|calls| - 1];
    forall i | 0 <= i < |init| ensures init[..i] == calls[..i] && init[i] == calls[i] {
    }
  }

  lemma SinkAdds<M>(storage: Storage<M>, batch: seq<Item<M>>, key: string)
    ensures var r := SinkSpec(storage, batch);
            Stream(r.next, key) == Stream(storage, key) + if r.error.None? then Added(batch, key) else []
  {
    hide Conflict, Added;
    StreamOfAppend(storage, batch, key);
  }

  lemma {:induction false} AddedNothing<M>(items: seq<Item<M>>, key: string)
    requires key !in WrittenKeys(items)
    ensures Added(items, key) == []
  {
    if |items| > 0 {
      AddedNothing(items[..|items| - 1], key);
    }
  }
}
