/** The Cosmos store: packages/azure/src/event-sourced/internal/CosmosOutputSink.ts, the stored procedure
    packages/azure/src/resources/bulkInsertSproc.js, and how it compares with the in-memory store. */
module CosmosStore {
  import opened Wrappers
  import opened Sequences
  import opened Model
  import opened Batching
  import opened Chunking
  import opened BatchHandling
  import opened InMemorySink
  import opened Coordinator
  import opened Snapshots

  /** The documents of every partition in the order of their numbers. */
  type Container<E> = map<string, seq<Document<E>>>

  function Partition<E>(c: Container<E>, key: string): seq<Document<E>> {
    if key in c then c[key] else []
  }

  /** A document that is to be inserted. */
  datatype Draft<+E> = Draft(streamId: string, sn: nat, event: E)

  datatype Inserted = Committed | SnConflict(index: nat, newSn: nat, actualSn: nat) | Aborted

  // ---------- the stored procedure ----------

  /** Documents created one behind the other. */
  function Created<E>(latestSn: nat, docs: seq<Draft<E>>): seq<Document<E>> {
    seq(|docs|, (i: int) requires 0 <= i < |docs| => Document(latestSn + 1 + i, docs[i].event))
  }

  /** The `i`-th document is not created: its number is wrong, it belongs to another partition, or the
      database refuses it. */
  predicate Fails<E>(latestSn: nat, docs: seq<Draft<E>>, partition: string, verifySn: bool, refused: Option<nat>,
      i: nat)
    requires i < |docs|
  {
    (verifySn && docs[i].sn != latestSn + 1 + i) || docs[i].streamId != partition || refused == Some(i)
  }

  function FirstFailure<E>(latestSn: nat, docs: seq<Draft<E>>, partition: string, verifySn: bool,
      refused: Option<nat>, n: nat): (i: nat)
    requires n <= |docs|
    ensures i <= n && (forall j | 0 <= j < i :: !Fails(latestSn, docs, partition, verifySn, refused, j))
    ensures i < n ==> Fails(latestSn, docs, partition, verifySn, refused, i)
  {
    if n == 0 then 0
    else
      var i := FirstFailure(latestSn, docs, partition, verifySn, refused, n - 1);
      if i < n - 1 || Fails(latestSn, docs, partition, verifySn, refused, n - 1) then i else n
  }

  function BulkInsertSpec<E>(c: Container<E>, docs: seq<Draft<E>>, partition: string, verifySn: bool,
      refused: Option<nat>): (Container<E>, Inserted) {
    var latestSn := LastSn(0, Partition(c, partition));
    var i := FirstFailure(latestSn, docs, partition, verifySn, refused, |docs|);
    if |docs| == 0 then (c, Committed)
    else if i == |docs| then (c[partition := Partition(c, partition) + Created(latestSn, docs)], Committed)
    else if verifySn && docs[i].sn != latestSn + 1 + i then (c, SnConflict(i, docs[i].sn, latestSn + i))
    else (c, Aborted)
  }

  class CosmosContainer<E> {
    var partitions: Container<E>

    constructor (partitions: Container<E>)
      ensures this.partitions == partitions
    {
      this.partitions := partitions;
    }

    /** bulkInsertSproc.js as one transaction: what it created is there only if it returns. */
    method BulkInsert(docs: seq<Draft<E>>, partition: string, verifySn: bool,
        refused: Option<nat>) returns (r: Inserted)
      modifies this
      ensures (partitions, r) == BulkInsertSpec(old(partitions), docs, partition, verifySn, refused)
    {
      if |docs| == 0 {
        return Committed;
      }
      var feed := Partition(partitions, partition);
      var latestSn := LastSn(0, feed);
      ghost var firstSn := latestSn;
      ghost var failure := FirstFailure(latestSn, docs, partition, verifySn, refused, |docs|);
      var created: seq<Document<E>> := [];
      var docCount := 0;
      while docCount < |docs|
        invariant docCount <= failure && latestSn == firstSn + docCount
        invariant created == Created(firstSn, docs)[..docCount]
      {
        var doc := docs[docCount];
        if verifySn {
          if doc.sn != latestSn + 1 {
            assert Fails(firstSn, docs, partition, verifySn, refused, docCount);
            return SnConflict(docCount, doc.sn, latestSn);
          }
        } else {
          doc := doc.(sn := latestSn + 1);
        }
        latestSn := doc.sn;
        if doc.streamId != partition || refused == Some(docCount) {
          assert Fails(firstSn, docs, partition, verifySn, refused, docCount);
          return Aborted;
        }
        created := created + [Document(doc.sn, doc.event)];
        docCount := docCount + 1;
      }
      assert Created(firstSn, docs)[..|docs|] == Created(firstSn, docs);
      partitions := partitions[partition := feed + created];
      return Committed;
    }
  }

  ghost predicate Gapless<E>(docs: seq<Document<E>>) {
    forall i | 0 <= i < |docs| :: docs[i].sn == i + 1
  }

  ghost predicate AllGapless<E>(c: Container<E>) {
    forall k | k in c :: Gapless(c[k])
  }

  datatype Insertion<+E> = Insertion(docs: seq<Draft<E>>, partition: string, verifySn: bool, refused: Option<nat>)

  function InsertAll<E>(c: Container<E>, ins: seq<Insertion<E>>): Container<E> {
    if |ins| == 0 then c
    else
      var x := ins[|ins| - 1];
      BulkInsertSpec(InsertAll(c, ins[..|ins| - 1]), x.docs, x.partition, x.verifySn, x.refused).0
  }

  lemma InsertGapless<E>(c: Container<E>, docs: seq<Draft<E>>, partition: string, verifySn: bool, refused: Option<nat>)
    requires AllGapless(c)
    ensures AllGapless(BulkInsertSpec(c, docs, partition, verifySn, refused).0)
  {
  }

  /** Whatever batches are inserted, verified or not, complete or refused halfway: every stream is
      numbered from one without a gap. */
  lemma {:induction false} StreamsStayGapless<E>(c: Container<E>, ins: seq<Insertion<E>>)
    requires AllGapless(c)
    ensures AllGapless(InsertAll(c, ins))
  {
    hide AllGapless, BulkInsertSpec;
    if |ins| > 0 {
      var x := ins[|ins| - 1];
      StreamsStayGapless(c, ins[..|ins| - 1]);
      InsertGapless(InsertAll(c, ins[..|ins| - 1]), x.docs, x.partition, x.verifySn, x.refused);
    }
  }

  ghost predicate Continues<E>(n: nat, docs: seq<Draft<E>>) {
    forall i | 0 <= i < |docs| :: docs[i].sn == n + 1 + i
  }

  ghost predicate OneStream<E>(docs: seq<Draft<E>>, key: string) {
    forall i | 0 <= i < |docs| :: docs[i].streamId == key
  }

  /** A verified batch commits exactly if its numbers continue the stream. */
  lemma CommitsIffContinues<E>(c: Container<E>, docs: seq<Draft<E>>, key: string)
    requires AllGapless(c) && OneStream(docs, key)
    ensures var (c', r) := BulkInsertSpec(c, docs, key, true, None);
            && (r.Committed? <==> Continues(|Partition(c, key)|, docs))
            && (r.Committed? ==> Partition(c', key) == Partition(c, key) + Created(|Partition(c, key)|, docs))
            && (r.Committed? || (r.SnConflict? && c' == c))
            && forall k | k != key :: Partition(c', k) == Partition(c, k)
  {
    var stream := Partition(c, key);
    assert |stream| > 0 ==> stream[|stream| - 1].sn == |stream|;
    assert LastSn(0, stream) == |stream|;
    var i := FirstFailure(|stream|, docs, key, true, None, |docs|);
    if i == |docs| {
      forall j | 0 <= j < |docs| ensures docs[j].sn == |stream| + 1 + j {
        assert !Fails(|stream|, docs, key, true, None, j);
      }
    }
  }

  // ---------- the sink ----------

  function StoredOnly<M>(items: seq<Item<M>>): seq<Item<M>> {
    if |items| == 0 then []
    else
      var init, x := items[..|items| - 1], items[|items| - 1];
      if x.Stored? then StoredOnly(init) + [x] else StoredOnly(init)
  }

  function DraftOf<M>(before: seq<Item<M>>, x: Item<M>): Draft<M>
    requires x.Stored?
  {
    Draft(x.state.key, x.state.seqNum + 1 + Branched(before, x.state.key, x.state.seqNum), x.message)
  }

  /** The documents for the stored items: each is numbered behind its state and the earlier items that
      branch off the same state. */
  function Drafts<M>(items: seq<Item<M>>): seq<Draft<M>> {
    if |items| == 0 then []
    else
      var init, x := items[..|items| - 1], items[|items| - 1];
      if x.Stored? then Drafts(init) + [DraftOf(init, x)] else Drafts(init)
  }

  function Checks<M>(items: seq<Item<M>>): seq<StateRef> {
    if |items| == 0 then []
    else
      var init, x := items[..|items| - 1], items[|items| - 1];
      if x.Verification? then Checks(init) + [x.state] else Checks(init)
  }

  datatype Sunk = Accepted | Conflicting | Failed

  function CosmosSinkSpec<M>(c: Container<M>, items: seq<Item<M>>, refused: Option<nat>): (Container<M>, Sunk) {
    var docs, checks := Drafts(items), Checks(items);
    if |docs| > 0 then
      var (c', r) := BulkInsertSpec(c, docs, docs[0].streamId, true, refused);
      (c', if r.Committed? then Accepted else if r.SnConflict? then Conflicting else Failed)
    else if |checks| > 0 && LastSn(0, Partition(c, checks[0].key)) != checks[0].seqNum then (c, Conflicting)
    else (c, Accepted)
  }

  class CosmosOutputSink<M> {
    const client: CosmosContainer<M>

    constructor (client: CosmosContainer<M>)
      ensures this.client == client
    {
      this.client := client;
    }

    /** CosmosOutputSink.ts:24-64. */
    method Sink(output: seq<Item<M>>, refused: Option<nat>) returns (r: Sunk)
      modifies client
      ensures (client.partitions, r) == CosmosSinkSpec(old(client.partitions), output, refused)
    {
      var documents, verification := Collect(output);
      r := Accepted;
      if |documents| > 0 {
        var inserted := client.BulkInsert(documents, documents[0].streamId, true, refused);
        r := if inserted.Committed? then Accepted else if inserted.SnConflict? then Conflicting else Failed;
      } else if |verification| > 0 {
        var actualSn := LastSn(0, Partition(client.partitions, verification[0].key));
        if verification[0].seqNum != actualSn {
          r := Conflicting;
        }
      }
    }

    /** Lines 28-54. */
    method Collect(output: seq<Item<M>>) returns (documents: seq<Draft<M>>, verification: seq<StateRef>)
      ensures documents == Drafts(output) && verification == Checks(output)
    {
      var counter: map<(string, nat), nat> := map[];
      documents, verification := [], [];
      NoIncrements<M>();
      hide Increments, Branched;
      for i := 0 to |output|
        invariant documents == Drafts(output[..i]) && verification == Checks(output[..i])
        invariant Increments(counter, output[..i])
      {
        var msg := output[i];
        assert output[..i + 1][..i] == output[..i];
        assert output[..i + 1] == output[..i] + [msg];
        IncrementsSnoc(counter, output[..i], msg);
        if msg.Verification? {
          verification := verification + [msg.state];
          continue;
        }
        var uniqueId := (msg.state.key, msg.state.seqNum);
        var inc := if uniqueId in counter && counter[uniqueId] != 0 then counter[uniqueId] else 1;
        counter := counter[uniqueId := inc + 1];
        documents := documents + [Draft(msg.state.key, msg.state.seqNum + inc, msg.message)];
      }
      assert output[..|output|] == output;
    }
  }

  /** The counter holds the next increment for every state. */
  ghost predicate Increments<M>(counter: map<(string, nat), nat>, items: seq<Item<M>>) {
    forall k: string, n: nat ::
      (if (k, n) in counter && counter[(k, n)] != 0 then counter[(k, n)] else 1) == 1 + Branched(items, k, n)
  }

  lemma NoIncrements<M>()
    ensures Increments<M>(map[], [])
  {
  }

  lemma IncrementsSnoc<M>(counter: map<(string, nat), nat>, items: seq<Item<M>>, x: Item<M>)
    requires Increments(counter, items)
    ensures var id := (x.state.key, x.state.seqNum);
            var inc := if id in counter && counter[id] != 0 then counter[id] else 1;
            && inc == 1 + Branched(items, x.state.key, x.state.seqNum)
            && (x.Stored? ==> Increments(counter[id := inc + 1], items + [x]))
            && (x.Verification? ==> Increments(counter, items + [x]))
  {
    forall k: string, n: nat
      ensures Branched(items + [x], k, n)
              == Branched(items, k, n) + if x.Stored? && x.state.key == k && x.state.seqNum == n then 1 else 0
    {
      ItemsSnoc(items, x, k, n);
    }
  }

  lemma SinkGapless<M>(c: Container<M>, items: seq<Item<M>>, refused: Option<nat>)
    requires AllGapless(c)
    ensures AllGapless(CosmosSinkSpec(c, items, refused).0)
  {
  }

  // ---------- Cosmos against the in-memory store ----------

  /** What Cosmos looks at: the stored items if there are any, otherwise the first verification. */
  function Relevant<M>(items: seq<Item<M>>): seq<Item<M>> {
    if |StoredOnly(items)| > 0 then StoredOnly(items) else Take(items, 1)
  }

  ghost predicate OneKey<M>(items: seq<Item<M>>, key: string) {
    forall i | 0 <= i < |items| :: items[i].state.key == key
  }

  /** The in-memory store holds the events of the container's documents. */
  ghost predicate SameEvents<M>(c: Container<M>, storage: Storage<M>) {
    forall k :: Stream(storage, k) == Snapshots.EventsIn(Partition(c, k))
  }

  lemma {:induction false} BranchedStored<M>(items: seq<Item<M>>, key: string, n: nat)
    ensures Branched(StoredOnly(items), key, n) == Branched(items, key, n)
  {
    if |items| > 0 {
      var init, x := items[..|items| - 1], items[|items| - 1];
      BranchedStored(init, key, n);
      assert items == init + [x];
      ItemsSnoc(init, x, key, n);
      if x.Stored? {
        ItemsSnoc(StoredOnly(init), x, key, n);
      }
    }
  }

  /** The documents are made from the stored items alone. */
  lemma {:induction false} DraftAt<M>(items: seq<Item<M>>)
    ensures var so := StoredOnly(items);
            && |Drafts(items)| == |so| && (forall i | 0 <= i < |so| :: so[i].Stored? && so[i] in items)
            && forall i | 0 <= i < |so| :: Drafts(items)[i] == DraftOf(so[..i], so[i])
  {
    hide Branched;
    if |items| > 0 {
      var init, x := items[..|items| - 1], items[|items| - 1];
      DraftAt(init);
      var before, so := StoredOnly(init), StoredOnly(items);
      if x.Stored? {
        assert so == before + [x];
        BranchedStored(init, x.state.key, x.state.seqNum);
        forall i | 0 <= i < |so| ensures Drafts(items)[i] == DraftOf(so[..i], so[i]) {
          if i < |before| {
            assert so[..i] == before[..i];
            assert Drafts(init)[i] == DraftOf(before[..i], before[i]);
          } else {
            assert so[..i] == before;
          }
        }
      }
    }
  }

  /** All stored items of one key add their messages, in order. */
  lemma {:induction false} AddedOfKey<M>(so: seq<Item<M>>, key: string, k: string)
    requires OneKey(so, key) && forall i | 0 <= i < |so| :: so[i].Stored?
    ensures |Added(so, key)| == |so| && (forall i | 0 <= i < |so| :: Added(so, key)[i] == so[i].message)
    ensures k != key ==> Added(so, k) == []
  {
    if |so| > 0 {
      AddedOfKey(so[..|so| - 1], key, k);
    }
  }

  lemma SameLength<M>(c: Container<M>, storage: Storage<M>, key: string)
    requires AllGapless(c) && SameEvents(c, storage)
    ensures LastSn(0, Partition(c, key)) == |Partition(c, key)| == |Stream(storage, key)|
  {
  }

  lemma AdmissibleIff<M>(storage: Storage<M>, so: seq<Item<M>>, key: string, i: nat)
    requires OneKey(so, key) && (forall j | 0 <= j < |so| :: so[j].Stored?) && i < |so|
    ensures Admissible(storage, so[..i], so[i]) <==> DraftOf(so[..i], so[i]).sn == |Stream(storage, key)| + 1 + i
  {
    AddedOfKey(so[..i], key, key);
  }

  /** On stored items of one key the two stores agree: both accept, and end up with the same events, or
      both refuse. */
  lemma StoredAgree<M>(c: Container<M>, storage: Storage<M>, items: seq<Item<M>>, key: string)
    requires AllGapless(c) && SameEvents(c, storage) && OneKey(items, key) && |StoredOnly(items)| > 0
    ensures var (c', r) := CosmosSinkSpec(c, items, None);
            var so := StoredOnly(items);
            && (r.Accepted? <==> Conflict(storage, so).None?) && (r.Accepted? || r.Conflicting?)
            && (r.Accepted? ==> SameEvents(c', Append(storage, so))) && (!r.Accepted? ==> c' == c)
  {
    hide AllGapless, SameEvents, Conflict, Admissible, Branched, BulkInsertSpec, StoredOnly, Drafts;
    var so, docs := StoredOnly(items), Drafts(items);
    DraftAt(items);
    SameLength(c, storage, key);
    CommitsIffContinues(c, docs, key);
    AcceptedIff(storage, so);
    forall i | 0 <= i < |so| ensures Admissible(storage, so[..i], so[i])
        <==> docs[i].sn == |Stream(storage, key)| + 1 + i {
      AdmissibleIff(storage, so, key, i);
    }
    if Continues(|Partition(c, key)|, docs) {
      var c' := BulkInsertSpec(c, docs, key, true, None).0;
      EventsAgree(c, c', storage, so, docs, key);
    }
  }

  lemma EventsAgree<M>(c: Container<M>, c': Container<M>, storage: Storage<M>, so: seq<Item<M>>,
      docs: seq<Draft<M>>, key: string)
    requires SameEvents(c, storage) && OneKey(so, key) && |docs| == |so| > 0
    requires forall i | 0 <= i < |so| :: so[i].Stored? && docs[i].event == so[i].message
    requires Partition(c', key) == Partition(c, key) + Created(|Partition(c, key)|, docs)
    requires forall k | k != key :: Partition(c', k) == Partition(c, k)
    ensures SameEvents(c', Append(storage, so))
  {
    hide Added, Append, Partition;
    forall k ensures Stream(Append(storage, so), k) == Snapshots.EventsIn(Partition(c', k)) {
      StreamOfAppend(storage, so, k);
      AddedOfKey(so, key, k);
      assert Stream(storage, k) == Snapshots.EventsIn(Partition(c, k));
    }
  }

  /** For every chunk of one key: Cosmos accepts exactly what the in-memory store accepts of the relevant
      items, with the same events afterwards. */
  lemma CosmosAgrees<M>(c: Container<M>, storage: Storage<M>, items: seq<Item<M>>, key: string)
    requires AllGapless(c) && SameEvents(c, storage) && OneKey(items, key)
    ensures var (c', r) := CosmosSinkSpec(c, items, None);
            && (r.Accepted? <==> Conflict(storage, Relevant(items)).None?) && (r.Accepted? || r.Conflicting?)
            && (r.Accepted? ==> SameEvents(c', Append(storage, Relevant(items)))) && (!r.Accepted? ==> c' == c)
  {
    hide AllGapless, SameEvents, Conflict, CosmosSinkSpec;
    if |StoredOnly(items)| > 0 {
      StoredAgree(c, storage, items, key);
    } else {
      VerifiedAgree(c, storage, items, key);
    }
  }

  lemma {:induction false} OnlyChecks<M>(items: seq<Item<M>>)
    requires |StoredOnly(items)| == 0
    ensures |Checks(items)| == |items| && Drafts(items) == []
    ensures forall i | 0 <= i < |items| :: items[i].Verification? && Checks(items)[i] == items[i].state
  {
    if |items| > 0 {
      OnlyChecks(items[..|items| - 1]);
    }
  }

  lemma StillSameEvents<M>(c: Container<M>, storage: Storage<M>, items: seq<Item<M>>)
    requires SameEvents(c, storage) && (|items| == 0 || (|items| == 1 && items[0].Verification?))
    ensures SameEvents(c, Append(storage, items))
  {
    forall k ensures Stream(Append(storage, items), k) == Stream(storage, k) {
      StreamOfAppend(storage, items, k);
    }
  }

  lemma OneCheck<M>(storage: Storage<M>, x: Item<M>)
    requires x.Verification?
    ensures Conflict(storage, [x]).None? <==> x.state.seqNum == |Stream(storage, x.state.key)|
  {
  }

  lemma VerifiedAgree<M>(c: Container<M>, storage: Storage<M>, items: seq<Item<M>>, key: string)
    requires AllGapless(c) && SameEvents(c, storage) && OneKey(items, key) && |StoredOnly(items)| == 0
    ensures var (c', r) := CosmosSinkSpec(c, items, None);
            && (r.Accepted? <==> Conflict(storage, Take(items, 1)).None?) && (r.Accepted? || r.Conflicting?)
            && SameEvents(c', Append(storage, Take(items, 1))) && c' == c
  {
    hide AllGapless, SameEvents, Conflict, Append, StoredOnly, Drafts, Checks;
    OnlyChecks(items);
    StillSameEvents(c, storage, Take(items, 1));
    if |items| > 0 {
      SameLength(c, storage, items[0].state.key);
      OneCheck(storage, items[0]);
      assert Take(items, 1) == [items[0]];
    } else {
      assert Conflict(storage, Take(items, 1)).None? by { NoConflict(storage); }
    }
  }

  lemma NoConflict<M>(storage: Storage<M>)
    ensures Conflict(storage, []).None?
  {
  }

  lemma {:induction false} AddedStored<M>(items: seq<Item<M>>, key: string)
    ensures Added(StoredOnly(items), key) == Added(items, key)
  {
    if |items| > 0 {
      var init, x := items[..|items| - 1], items[|items| - 1];
      AddedStored(init, key);
      assert items == init + [x];
      ItemsSnoc(init, x, key, 0);
      if x.Stored? {
        ItemsSnoc(StoredOnly(init), x, key, 0);
      } else {
        assert Added(init, key) + [] == Added(init, key);
      }
    }
  }

  /** The stored items alone are accepted exactly if each of them is admissible where it is. */
  lemma {:induction false} StoredFit<M>(storage: Storage<M>, items: seq<Item<M>>)
    ensures Conflict(storage, StoredOnly(items)).None?
            <==> forall i | 0 <= i < |items| && items[i].Stored? :: Admissible(storage, items[..i], items[i])
  {
    if |items| > 0 {
      hide Admissible;
      var init, x := items[..|items| - 1], items[|items| - 1];
      StoredFit(storage, init);
      forall i | 0 <= i < |init| ensures init[..i] == items[..i] && init[i] == items[i] {
      }
      SameFit(storage, init, x);
      if x.Stored? {
        var so := StoredOnly(items);
        assert so[..|so| - 1] == StoredOnly(init);
      }
      FitSnoc(storage, items);
    } else {
      NoConflict(storage);
    }
  }

  lemma SameFit<M>(storage: Storage<M>, init: seq<Item<M>>, x: Item<M>)
    ensures Admissible(storage, StoredOnly(init), x) == Admissible(storage, init, x)
  {
    BranchedStored(init, x.state.key, x.state.seqNum);
    AddedStored(init, x.state.key);
  }

  lemma FitSnoc<M>(storage: Storage<M>, items: seq<Item<M>>)
    requires |items| > 0
    ensures var n := |items| - 1;
            (forall i | 0 <= i < |items| && items[i].Stored? :: Admissible(storage, items[..i], items[i]))
            <==> (forall i | 0 <= i < n && items[..n][i].Stored? :: Admissible(storage, items[..n][..i], items[..n][i]))
                 && (items[n].Stored? ==> Admissible(storage, items[..n], items[n]))
  {
    hide Admissible;
    var n := |items| - 1;
    forall i | 0 <= i < n ensures items[..n][..i] == items[..i] {
    }
  }

  /** What Cosmos misses: it accepts a chunk of one key that the in-memory store refuses exactly if the
      items it looks at fit and some verification among the others is stale. It never refuses a chunk that
      the in-memory store accepts. */
  lemma VerificationsMissedIff<M>(c: Container<M>, storage: Storage<M>, items: seq<Item<M>>, key: string)
    requires AllGapless(c) && SameEvents(c, storage) && OneKey(items, key)
    ensures var accepted := CosmosSinkSpec(c, items, None).1.Accepted?;
            && (accepted && Conflict(storage, items).Some? <==>
                  && Conflict(storage, Relevant(items)).None?
                  && exists i | 0 <= i < |items| ::
                       items[i].Verification? && !Admissible(storage, items[..i], items[i]))
            && (Conflict(storage, items).None? ==> accepted)
  {
    hide AllGapless, SameEvents, CosmosSinkSpec, Admissible, Conflict;
    CosmosAgrees(c, storage, items, key);
    AcceptedIff(storage, items);
    StoredFit(storage, items);
    if |StoredOnly(items)| == 0 {
      OnlyChecks(items);
      FirstFits(storage, items);
    }
  }

  lemma FirstFits<M>(storage: Storage<M>, items: seq<Item<M>>)
    ensures Conflict(storage, items).None? ==> Conflict(storage, Take(items, 1)).None?
  {
    if |items| > 0 {
      AcceptedIff(storage, items);
      AcceptedIff(storage, Take(items, 1));
      assert Take(items, 1) == [items[0]] && [items[0]][..0] == items[..0];
    }
  }

  /** Without verification a batch of one stream is always appended, under the numbers that are next. */
  lemma UnverifiedIsAppended<E>(c: Container<E>, docs: seq<Draft<E>>, key: string)
    requires AllGapless(c) && OneStream(docs, key)
    ensures var (c', r) := BulkInsertSpec(c, docs, key, false, None);
            && r.Committed? && Partition(c', key) == Partition(c, key) + Created(|Partition(c, key)|, docs)
            && forall k | k != key :: Partition(c', k) == Partition(c, k)
  {
    var stream := Partition(c, key);
    assert |stream| > 0 ==> stream[|stream| - 1].sn == |stream|;
    assert LastSn(0, stream) == |stream|;
  }

  /** What becomes of a chunk of one key whose `refused`-th document the database does not take: it is stored
      if its numbers continue the stream and no such document is in it; otherwise nothing is stored, and it
      counts as a conflict exactly if a number is wrong in front of that document or at it. */
  lemma SunkIff<M>(c: Container<M>, items: seq<Item<M>>, refused: Option<nat>, key: string)
    requires AllGapless(c) && OneKey(items, key) && |StoredOnly(items)| > 0
    ensures var (c', r) := CosmosSinkSpec(c, items, refused);
            var docs, n := Drafts(items), |Partition(c, key)|;
            var hit := refused.Some? && refused.value < |docs|;
            && (r.Accepted? <==> Continues(n, docs) && !hit)
            && (r.Failed? <==> hit && Continues(n, docs[..refused.value + 1]))
            && (r.Accepted? ==> Partition(c', key) == Partition(c, key) + Created(n, docs))
            && (!r.Accepted? ==> c' == c)
  {
    hide AllGapless, Branched, StoredOnly, Drafts, BulkInsertSpec;
    DraftAt(items);
    DraftsOfKey(items, key);
    InsertOutcome(c, Drafts(items), key, refused);
    assert Drafts(items)[0].streamId == key;
    var (c', r) := BulkInsertSpec(c, Drafts(items), key, true, refused);
    assert CosmosSinkSpec(c, items, refused).0 == c';
  }

  lemma DraftsOfKey<M>(items: seq<Item<M>>, key: string)
    requires OneKey(items, key)
    ensures OneStream(Drafts(items), key)
  {
    hide Branched;
    DraftAt(items);
  }

  /** The stored procedure names the first document with a wrong number, that number, and the last one in
      front of it, unless the database refuses an earlier document. */
  lemma InsertOutcome<E>(c: Container<E>, docs: seq<Draft<E>>, key: string, refused: Option<nat>)
    requires AllGapless(c) && OneStream(docs, key) && |docs| > 0
    ensures var (c', r) := BulkInsertSpec(c, docs, key, true, refused);
            var n := |Partition(c, key)|;
            var hit := refused.Some? && refused.value < |docs|;
            && (r.Committed? <==> Continues(n, docs) && !hit)
            && (r.Aborted? <==> hit && Continues(n, docs[..refused.value + 1]))
            && (r.SnConflict? ==>
                  && r.index < |docs| && docs[r.index].sn != n + 1 + r.index && Continues(n, docs[..r.index])
                  && (hit ==> r.index <= refused.value) && r.newSn == docs[r.index].sn && r.actualSn == n + r.index)
            && (r.Committed? ==> Partition(c', key) == Partition(c, key) + Created(n, docs))
            && (!r.Committed? ==> c' == c)
  {
    var stream := Partition(c, key);
    assert |stream| > 0 ==> stream[|stream| - 1].sn == |stream|;
    assert LastSn(0, stream) == |stream|;
    hide AllGapless, FirstFailure, LastSn, Created;
    var i := FirstFailure(|stream|, docs, key, true, refused, |docs|);
    forall j | 0 <= j < i ensures docs[j].sn == |stream| + 1 + j && refused != Some(j) {
      assert !Fails(|stream|, docs, key, true, refused, j);
    }
    assert forall k, j | 0 <= j < k <= |docs| :: docs[..k][j] == docs[j];
    if i < |docs| {
      assert Fails(|stream|, docs, key, true, refused, i);
      if docs[i].sn != |stream| + 1 + i && refused.Some? && refused.value < |docs| {
        assert docs[..refused.value + 1][i] == docs[i];
      }
    }
  }

  // ---------- what the coordinator sends to such a store ----------

  ghost predicate SingleKeys<M>(calls: seq<Call<Item<M>>>) {
    forall i | 0 <= i < |calls| :: SingleKey(calls[i].batch)
  }

  ghost predicate SingleKey<M>(batch: seq<Item<M>>) {
    exists key :: OneKey(batch, key)
  }

  lemma {:induction false} HomogeneousKey<M>(batch: seq<Item<M>>, i: nat, grouping: (Item<M>, Item<M>) -> bool)
    requires Homogeneous(batch, grouping) && i < |batch|
    requires forall p, c :: grouping(p, c) == (p.state.key == c.state.key)
    ensures batch[i].state.key == batch[0].state.key
  {
    if i > 0 {
      HomogeneousKey(batch, i - 1, grouping);
    }
  }

  lemma PassSingleKeys<S, M, P>(t: Target<S, Item<M>, Context<M, P>>, s: S, items: seq<Context<M, P>>, size: int)
    requires forall p, c :: t.grouping(p, c) == (p.state.key == c.state.key)
    ensures SingleKeys(Attempt(t, s, items, size).calls)
  {
    if size > 0 {
      var cfg := t.Config(size);
      var chunks := Chunks(cfg, items);
      ChunksAreFaithful(cfg, items);
      RunShape(t, s, chunks);
      var p := RunChunks(t, s, chunks);
      forall i | 0 <= i < |p.calls| ensures SingleKey(p.calls[i].batch) {
        assert Fair(cfg, chunks[i].batch);
        var batch := chunks[i].batch;
        var key := if |batch| > 0 then batch[0].state.key else "";
        forall j | 0 <= j < |batch| ensures batch[j].state.key == key {
          HomogeneousKey(batch, j, t.grouping);
        }
        assert OneKey(batch, key);
      }
    }
  }

  lemma {:induction false} HandledSingleKeys<S, M, P>(t: Target<S, Item<M>, Context<M, P>>, s: S,
      items: seq<Context<M, P>>, size: int)
    requires forall p, c :: t.grouping(p, c) == (p.state.key == c.state.key)
    ensures SingleKeys(HandleAt(t, s, items, size).calls)
    decreases if size > 0 then size else 0
  {
    hide HandleAt, Attempt, SingleKey;
    HandleCases(t, s, items, size);
    if |Flat(items, t.accessor)| > 0 {
      PassSingleKeys(t, s, items, size);
      var p := Attempt(t, s, items, size);
      if p.error.Some? && t.MayRetry(items) && size > 1 {
        HandledSingleKeys(t, p.state, items[p.completed..], size / 2);
      }
    }
  }

  /** A store that is atomic per partition is never sent a chunk with two streams, which is what lets the
      bulk insert take the partition of the first document for all of them. */
  lemma DeliveredSingleKeys<S, Q, M, P>(sinks: Sinks<S, Q, M, P>, s: S, q: Q, epochs: map<string, nat>,
      contexts: seq<Context<M, P>>)
    requires sinks.storeConsistency.AtomicPerPartition?
    ensures SingleKeys(CoordinateSpec(sinks, s, q, epochs, contexts).storeCalls)
  {
    hide CoordinateSpec, HandleAt, GoodCount, SingleKeys;
    StoreOutcome(sinks, s, q, epochs, contexts);
    var t := sinks.StoreTarget();
    var good := contexts[..GoodCount(epochs, contexts)];
    HandledSingleKeys(t, s, good, EffectiveSize(None, t.maxBatchSize, |Flat(good, t.accessor)|));
  }
}
