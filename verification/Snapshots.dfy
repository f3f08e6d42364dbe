/** Snapshots next to an event log: packages/azure/src/event-sourced/internal/BlobStorageSnapshotOutputSink.ts,
    BlobStorageSnapshotProvider.ts and CosmosStateAggregationSource.ts. */
module Snapshots {
  import opened Wrappers
  import opened Model
  import opened EventSourcing

  // ---------- the index of a key's snapshots ----------

  ghost predicate Ascending(list: seq<nat>) {
    forall i, j | 0 <= i < j < |list| :: list[i] < list[j]
  }

  /** lodash's `sortedIndex` on a sorted list: where `x` would go, in front of what is not smaller. */
  function SortedIndex(list: seq<nat>, x: nat): (i: nat)
    ensures i <= |list| && (forall j | 0 <= j < i :: list[j] < x) && (i < |list| ==> list[i] >= x)
  {
    if |list| == 0 || list[0] >= x then 0 else 1 + SortedIndex(list[1..], x)
  }

  /** BlobStorageSnapshotProvider.ts:15-32; `None` stands for -1. */
  function RetrieveSnapshotIndex(target: nat, list: seq<nat>): Option<nat> {
    var size := |list|;
    if size < 1 then None
    else if target < list[0] then None
    else if target >= list[size - 1] then Some(size - 1)
    else
      var i := SortedIndex(list, target);
      if i < size && target == list[i] then Some(i) else if i > 0 then Some(i - 1) else None
  }

  /** The search finds the greatest number that is not above the target. */
  lemma GreatestAtOrBelow(target: nat, list: seq<nat>)
    requires Ascending(list)
    ensures var r := RetrieveSnapshotIndex(target, list);
            match r
            case None => forall j | 0 <= j < |list| :: list[j] > target
            case Some(i) => i < |list| && list[i] <= target && forall j | 0 <= j < |list| && list[j] <= target ::
                list[j] <= list[i]
  {
  }

  /** BlobStorageSnapshotOutputSink.ts:66-74. */
  function Indexed(list: seq<nat>, n: nat): seq<nat> {
    var i := SortedIndex(list, n);
    if i < |list| && list[i] == n then list else list[..i] + [n] + list[i..]
  }

  /** Adding to the index keeps it sorted and free of duplicates, and loses nothing. */
  lemma IndexedAscending(list: seq<nat>, n: nat)
    requires Ascending(list)
    ensures Ascending(Indexed(list, n)) && forall x :: x in Indexed(list, n) <==> x in list || x == n
  {
  }

  // ---------- the blobs ----------

  /** Every key has a blob that lists its snapshots, and every snapshot is a blob of its own. */
  datatype Blobs<+N> = Blobs(listers: map<string, seq<nat>>, snapshots: map<(string, nat), N>)

  function Lister<N>(b: Blobs<N>, key: string): seq<nat> {
    if key in b.listers then b.listers[key] else []
  }

  /** A stored message whose payload is a snapshot. */
  datatype Snapshot<+N> = Snapshot(state: StateRef, payload: N)

  predicate Due(frequency: nat, atSn: nat) {
    frequency > 0 && atSn % frequency == 0
  }

  function Saved<N>(b: Blobs<N>, key: string, atSn: nat, payload: N): Blobs<N> {
    Blobs(b.listers[key := Indexed(Lister(b, key), atSn)], b.snapshots[(key, atSn) := payload])
  }

  function SavedAll<N>(frequency: nat, b: Blobs<N>, items: seq<Snapshot<N>>): Blobs<N> {
    if |items| == 0 then b
    else
      var x := items[|items| - 1];
      var before := SavedAll(frequency, b, items[..|items| - 1]);
      if Due(frequency, x.state.seqNum + 1) then Saved(before, x.state.key, x.state.seqNum + 1, x.payload) else before
  }

  class BlobStorageSnapshotOutputSink<N> {
    const frequency: nat
    var listers: map<string, seq<nat>>
    var snapshots: map<(string, nat), N>

    constructor (frequency: nat, blobs: Blobs<N>)
      ensures this.frequency == frequency && View() == blobs
    {
      this.frequency, listers, snapshots := frequency, blobs.listers, blobs.snapshots;
    }

    function View(): Blobs<N>
      reads this
    {
      Blobs(listers, snapshots)
    }

    ghost predicate Valid()
      reads this
    {
      forall k | k in listers :: Ascending(listers[k])
    }

    /** BlobStorageSnapshotOutputSink.ts:39-76; a frequency of zero gives NaN, which is never zero. */
    method Sink(output: seq<Snapshot<N>>)
      requires Valid()
      modifies this
      ensures Valid() && View() == SavedAll(frequency, old(View()), output)
    {
      hide Saved, Ascending;
      for i := 0 to |output|
        invariant Valid() && View() == SavedAll(frequency, old(View()), output[..i])
      {
        var item := output[i];
        assert output[..i + 1][..i] == output[..i];
        var atSn := item.state.seqNum + 1;
        if frequency == 0 || atSn % frequency != 0 {
          continue;
        }
        Save(item.state.key, atSn, item.payload);
      }
      assert output[..|output|] == output;
    }

    /** Lines 45-74. */
    method Save(key: string, atSn: nat, payload: N)
      requires Valid()
      modifies this
      ensures Valid() && View() == Saved(old(View()), key, atSn, payload)
    {
      snapshots := snapshots[(key, atSn) := payload];
      var sequenceList: seq<nat> := if key in listers then listers[key] else [];
      IndexedAscending(sequenceList, atSn);
      hide Ascending;
      var insertionIndex := SortedIndex(sequenceList, atSn);
      var exactMatch := false;
      if insertionIndex < |sequenceList| {
        exactMatch := atSn == sequenceList[insertionIndex];
      }
      ghost var before := listers;
      if !exactMatch {
        sequenceList := sequenceList[..insertionIndex] + [atSn] + sequenceList[insertionIndex..];
        listers := listers[key := sequenceList];
      }
      assert listers == before[key := sequenceList];
    }
  }

  /** BlobStorageSnapshotProvider.ts:47-73; a missing lister or snapshot counts as none. */
  function GetSnapshot<N>(b: Blobs<N>, key: string, atSn: Option<nat>): (nat, Option<N>) {
    var list := Lister(b, key);
    var index :=
      if atSn.Some? then RetrieveSnapshotIndex(atSn.value, list)
      else if |list| > 0 then Some(|list| - 1) else None;
    if index.None? || index.value >= |list| then (0, None)
    else
      var n := list[index.value];
      if (key, n) in b.snapshots then (n, Some(b.snapshots[(key, n)])) else (0, None)
  }

  // ---------- the log ----------

  /** One event document; numbers may be missing. */
  datatype Document<+E> = Document(sn: nat, event: E)

  /** The documents of a stream, in the order of their numbers, which start with one. */
  ghost predicate Ordered<E>(docs: seq<Document<E>>) {
    (forall i | 0 <= i < |docs| :: docs[i].sn > 0) && forall i, j | 0 <= i < j < |docs| :: docs[i].sn < docs[j].sn
  }

  function EventsIn<E>(docs: seq<Document<E>>): seq<E> {
    seq(|docs|, (i: int) requires 0 <= i < |docs| => docs[i].event)
  }

  /** The query's WHERE clause. */
  function FromSn<E>(docs: seq<Document<E>>, sn: nat): seq<Document<E>> {
    if |docs| == 0 then []
    else
      var d := docs[|docs| - 1];
      FromSn(docs[..|docs| - 1], sn) + if d.sn >= sn then [d] else []
  }

  function UpToSn<E>(docs: seq<Document<E>>, sn: nat): seq<Document<E>> {
    if |docs| == 0 then []
    else
      var d := docs[|docs| - 1];
      UpToSn(docs[..|docs| - 1], sn) + if d.sn <= sn then [d] else []
  }

  /** SELECT TOP @max ... WHERE r.sn >= @sn ORDER BY r.sn ASC. */
  function Query<E>(docs: seq<Document<E>>, sn: nat, max: Option<nat>): seq<Document<E>> {
    var found := FromSn(docs, sn);
    if max.Some? then Take(found, max.value) else found
  }

  /** How many documents have numbers up to `n`. */
  function Cut<E>(docs: seq<Document<E>>, n: nat): (c: nat)
    ensures c <= |docs| && (c > 0 ==> docs[c - 1].sn <= n)
  {
    if |docs| == 0 then 0 else if docs[|docs| - 1].sn <= n then |docs| else Cut(docs[..|docs| - 1], n)
  }

  lemma OrderedPrefix<E>(docs: seq<Document<E>>, m: nat)
    requires Ordered(docs) && m <= |docs|
    ensures Ordered(docs[..m]) && (0 < m < |docs| ==> docs[m - 1].sn < docs[m].sn)
  {
  }

  /** All documents have numbers up to `n` if the last has. */
  lemma AllUpTo<E>(docs: seq<Document<E>>, n: nat)
    requires |docs| == 0 || docs[|docs| - 1].sn <= n
    ensures Cut(docs, n) == |docs|
  {
  }

  /** The filters of the query cut the stream in two. */
  ghost predicate CutsInTwo<E>(docs: seq<Document<E>>, n: nat) {
    FromSn(docs, n + 1) == docs[Cut(docs, n)..] && UpToSn(docs, n) == docs[..Cut(docs, n)]
  }

  lemma CutsSnoc<E>(init: seq<Document<E>>, d: Document<E>, n: nat)
    requires CutsInTwo(init, n) && (|init| == 0 || init[|init| - 1].sn < d.sn)
    ensures CutsInTwo(init + [d], n)
  {
  }

  lemma {:induction false} FromIsSuffix<E>(docs: seq<Document<E>>, n: nat)
    requires Ordered(docs)
    ensures CutsInTwo(docs, n)
  {
    if |docs| > 0 {
      var m := |docs| - 1;
      OrderedPrefix(docs, m);
      hide Ordered, CutsInTwo;
      FromIsSuffix(docs[..m], n);
      CutsSnoc(docs[..m], docs[m], n);
      assert docs[..m] + [docs[m]] == docs;
    }
  }

  // ---------- loading ----------

  /** The snapshot stands for all documents up to its number. */
  ghost predicate Represents<S(!new), N, E>(agg: Aggregator<S, N, E>, docs: seq<Document<E>>, n: nat,
      snapshot: Option<N>) {
    agg.create(snapshot) == agg.Replay(EventsIn(docs[..Cut(docs, n)]))
  }

  class CosmosStateAggregationSource<N, E> {
    /** The data losses that were reported. */
    var reported: seq<nat>

    constructor ()
      ensures reported == []
    {
      reported := [];
    }

    /** CosmosStateAggregationSource.ts:55-117, with what the snapshot provider returned. */
    method Load(docs: seq<Document<E>>, provided: (nat, Option<N>), atSn: Option<nat>) returns (r: Aggregable<N, E>)
      modifies this
      ensures r == LoadSpec(docs, provided, atSn)
      ensures reported == old(reported) + Reports(Start(provided, atSn).0, Found(docs, provided, atSn), atSn)
    {
      hide Query, Kept, Reports, EventsIn, LastSn;
      var (snapshotSeqNum, snapshot) := provided;
      if atSn.Some? && snapshotSeqNum > atSn.value {
        snapshotSeqNum := 0;
        snapshot := None;
      }
      var start := snapshotSeqNum + 1;
      var maxEvents: Option<nat> := if atSn.Some? then Some(atSn.value - start + 1) else None;
      var result := Query(docs, start, maxEvents);
      var events, lastSn := Collect(result, snapshotSeqNum, atSn);
      r := Aggregable(events, lastSn, snapshot);
    }

    /** Lines 79-110. */
    method Collect(result: seq<Document<E>>, snapshotSeqNum: nat, atSn: Option<nat>) returns (events: seq<E>,
        lastSn: nat)
      modifies this
      ensures events == EventsIn(Kept(result, atSn)) && lastSn == LastSn(snapshotSeqNum, Kept(result, atSn))
      ensures reported == old(reported) + Reports(snapshotSeqNum, result, atSn)
    {
      hide Range, Kept, Reports, EventsIn, LastSn;
      lastSn := snapshotSeqNum;
      events := [];
      NothingLoaded<E>(snapshotSeqNum, atSn);
      assert result[..0] == [];
      for i := 0 to |result|
        invariant events == EventsIn(Kept(result[..i], atSn))
        invariant lastSn == LastSn(snapshotSeqNum, Kept(result[..i], atSn))
        invariant reported == old(reported) + Reports(snapshotSeqNum, result[..i], atSn)
      {
        var item := result[i];
        LoadStep(snapshotSeqNum, result, i, atSn);
        ReportGaps(lastSn, item.sn);
        if atSn.None? || item.sn <= atSn.value {
          lastSn := item.sn;
          events := events + [item.event];
        }
      }
      assert result[..|result|] == result;
    }

    /** Lines 83-88. */
    method ReportGaps(lastSn: nat, sn: nat)
      modifies this
      ensures reported == old(reported) + Range(lastSn + 1, sn)
    {
      var gap := lastSn + 1;
      while gap < sn
        invariant lastSn + 1 <= gap && (gap <= sn || gap == lastSn + 1)
        invariant reported == old(reported) + Range(lastSn + 1, gap)
      {
        reported := reported + [gap];
        gap := gap + 1;
      }
      assert sn <= gap && (gap == sn || Range(lastSn + 1, sn) == []);
    }
  }

  function Range(from: nat, to: nat): seq<nat> {
    if to <= from then [] else Range(from, to - 1) + [to - 1]
  }

  function Kept<E>(result: seq<Document<E>>, atSn: Option<nat>): seq<Document<E>> {
    if atSn.Some? then UpToSn(result, atSn.value) else result
  }

  function LastSn<E>(from: nat, docs: seq<Document<E>>): nat {
    if |docs| == 0 then from else docs[|docs| - 1].sn
  }

  /** The numbers reported as lost: those between a document and the last one kept before it. */
  function Reports<E>(from: nat, result: seq<Document<E>>, atSn: Option<nat>): seq<nat> {
    if |result| == 0 then []
    else
      var n := |result| - 1;
      Reports(from, result[..n], atSn) + Range(LastSn(from, Kept(result[..n], atSn)) + 1, result[n].sn)
  }

  lemma NothingLoaded<E>(from: nat, atSn: Option<nat>)
    ensures Kept<E>([], atSn) == [] && EventsIn<E>([]) == [] && LastSn<E>(from, []) == from
        && Reports<E>(from, [], atSn) == []
  {
  }

  lemma LoadStep<E>(from: nat, result: seq<Document<E>>, i: nat, atSn: Option<nat>)
    requires i < |result|
    ensures var a, b, d := Kept(result[..i], atSn), Kept(result[..i + 1], atSn), result[i];
            && (if atSn.None? || d.sn <= atSn.value
                then EventsIn(b) == EventsIn(a) + [d.event] && LastSn(from, b) == d.sn
                else b == a)
            && Reports(from, result[..i + 1], atSn)
                == Reports(from, result[..i], atSn) + Range(LastSn(from, a) + 1, d.sn)
  {
    hide Range;
    assert result[..i + 1][..i] == result[..i];
    var a, d := Kept(result[..i], atSn), result[i];
    if atSn.None? || d.sn <= atSn.value {
      assert Kept(result[..i + 1], atSn) == a + [d];
      assert EventsIn(a + [d]) == EventsIn(a) + [d.event];
    }
  }

  /** Lines 62-65. */
  function Start<N>(provided: (nat, Option<N>), atSn: Option<nat>): (nat, Option<N>) {
    if atSn.Some? && provided.0 > atSn.value then (0, None) else provided
  }

  function Found<N, E>(docs: seq<Document<E>>, provided: (nat, Option<N>), atSn: Option<nat>): seq<Document<E>> {
    var n := Start(provided, atSn).0;
    Query(docs, n + 1, if atSn.Some? && n <= atSn.value then Some(atSn.value - n) else None)
  }

  function LoadSpec<N, E>(docs: seq<Document<E>>, provided: (nat, Option<N>), atSn: Option<nat>): Aggregable<N, E> {
    var (n, snapshot) := Start(provided, atSn);
    var kept := Kept(Found(docs, provided, atSn), atSn);
    Aggregable(EventsIn(kept), LastSn(n, kept), snapshot)
  }

  // ---------- loading is replaying ----------

  /** Numbers that grow are at least as far apart as their positions. */
  lemma {:induction false} Apart<E>(docs: seq<Document<E>>, a: nat, b: nat)
    requires Ordered(docs) && a <= b < |docs|
    ensures docs[b].sn >= docs[a].sn + (b - a)
  {
    if a < b {
      Apart(docs, a, b - 1);
    }
  }

  /** The bound on the query never drops a document that is needed. */
  lemma TopDropsNothing<E>(docs: seq<Document<E>>, n: nat, atSn: nat)
    requires Ordered(docs) && n <= atSn
    ensures var a, b := Cut(docs, n), Cut(docs, atSn); a <= b && b - a <= atSn - n
  {
    var a, b := Cut(docs, n), Cut(docs, atSn);
    CutBelow(docs, n);
    CutBelow(docs, atSn);
    if a < b {
      Apart(docs, a, b - 1);
    }
  }

  lemma {:induction false} CutAbove<E>(docs: seq<Document<E>>, n: nat, i: nat)
    requires Cut(docs, n) <= i < |docs|
    ensures docs[i].sn > n
  {
    if i < |docs| - 1 {
      CutAbove(docs[..|docs| - 1], n, i);
    }
  }

  lemma CutBelow<E>(docs: seq<Document<E>>, n: nat)
    requires Ordered(docs)
    ensures forall i | 0 <= i < |docs| :: docs[i].sn <= n <==> i < Cut(docs, n)
  {
  }

  lemma SliceOrdered<E>(docs: seq<Document<E>>, a: nat, b: nat)
    requires Ordered(docs) && a <= b <= |docs|
    ensures Ordered(docs[a..b])
  {
  }

  /** Of a slice that starts behind the snapshot, what is not behind `atSn`. */
  lemma SliceUpTo<E>(docs: seq<Document<E>>, a: nat, end: nat, atSn: nat)
    requires Ordered(docs) && a <= Cut(docs, atSn) <= end <= |docs|
    ensures UpToSn(docs[a..end], atSn) == docs[a..Cut(docs, atSn)]
  {
    hide Ordered;
    var r, c := docs[a..end], Cut(docs, atSn) - a;
    SliceOrdered(docs, a, end);
    CutBelow(docs, atSn);
    CutBelow(r, atSn);
    FromIsSuffix(r, atSn);
    CutIsThere(r, atSn, c);
    assert r[..c] == docs[a..a + c];
  }

  lemma CutIsThere<E>(docs: seq<Document<E>>, n: nat, c: nat)
    requires c <= |docs| && forall i | 0 <= i < |docs| :: docs[i].sn <= n <==> i < c
    requires forall i | 0 <= i < |docs| :: docs[i].sn <= n <==> i < Cut(docs, n)
    ensures Cut(docs, n) == c
  {
  }

  /** What the loop keeps is exactly what lies behind the snapshot and not behind `atSn`. */
  lemma KeptIsNeeded<E>(docs: seq<Document<E>>, n: nat, atSn: nat)
    requires Ordered(docs) && n <= atSn
    ensures Cut(docs, n) <= Cut(docs, atSn)
    ensures UpToSn(Query(docs, n + 1, Some(atSn - n)), atSn) == docs[Cut(docs, n)..Cut(docs, atSn)]
  {
    hide Ordered, UpToSn, FromSn;
    var end := QueryTop(docs, n, atSn);
    SliceUpTo(docs, Cut(docs, n), end, atSn);
  }

  /** The documents that count for a request. */
  function Asked<E>(docs: seq<Document<E>>, atSn: Option<nat>): seq<Document<E>> {
    if atSn.Some? then UpToSn(docs, atSn.value) else docs
  }

  /** Whatever is provided, what is loaded are the documents behind the snapshot up to `atSn`. */
  lemma Loaded<N, E>(docs: seq<Document<E>>, provided: (nat, Option<N>), atSn: Option<nat>) returns (a: nat, b: nat)
    requires Ordered(docs)
    ensures a == Cut(docs, Start(provided, atSn).0) && a <= b <= |docs| && Asked(docs, atSn) == docs[..b]
    ensures Kept(Found(docs, provided, atSn), atSn) == docs[a..b]
  {
    hide Ordered, UpToSn, Query, Cut;
    var n := Start(provided, atSn).0;
    a := Cut(docs, n);
    if atSn.Some? {
      b := Cut(docs, atSn.value);
      KeptIsNeeded(docs, n, atSn.value);
      FromIsSuffix(docs, atSn.value);
    } else {
      b := |docs|;
      QueryAll(docs, n);
      assert docs[..|docs|] == docs;
    }
  }

  /** Loading from a true snapshot and aggregating gives the state that all documents up to `atSn` (all,
      if it is not given) make, whatever snapshot was provided and whatever numbers are missing. */
  lemma LoadIsReplay<S(!new), N, E>(agg: Aggregator<S, N, E>, docs: seq<Document<E>>, provided: (nat, Option<N>),
      atSn: Option<nat>)
    requires Ordered(docs) && Represents(agg, docs, provided.0, provided.1)
    ensures var r: Aggregable<N, E> := LoadSpec(docs, provided, atSn);
            agg.Fold(agg.create(r.snapshot), r.events) == agg.Replay(EventsIn(Asked(docs, atSn)))
  {
    hide Ordered, UpToSn, Cut, Asked, Kept, Found, EventsIn;
    var a, b := Loaded(docs, provided, atSn);
    StartRepresents(agg, docs, provided, atSn);
    FoldDocuments(agg, docs, a, b);
  }

  /** The sequence number that comes with it is that of the last document, or the snapshot's if it is
      ahead of them all. */
  lemma LoadedNumber<N, E>(docs: seq<Document<E>>, provided: (nat, Option<N>), atSn: Option<nat>)
    requires Ordered(docs)
    ensures var n, last := Start(provided, atSn).0, LastSn(0, Asked(docs, atSn));
            LoadSpec(docs, provided, atSn).lastSn == if n > last then n else last
  {
    hide Ordered, UpToSn, Asked, Kept, Found;
    var n := Start(provided, atSn).0;
    var a, b := Loaded(docs, provided, atSn);
    if a == b {
      assert docs[a..b] == [];
      assert b > 0 ==> docs[..b][b - 1] == docs[b - 1];
    } else {
      CutAbove(docs, n, b - 1);
      assert docs[a..b][b - a - 1] == docs[b - 1] == docs[..b][b - 1];
    }
  }

  lemma QueryAll<E>(docs: seq<Document<E>>, n: nat)
    requires Ordered(docs)
    ensures Query(docs, n + 1, None) == docs[Cut(docs, n)..]
  {
  }

  lemma StartRepresents<S(!new), N, E>(agg: Aggregator<S, N, E>, docs: seq<Document<E>>, provided: (nat, Option<N>),
      atSn: Option<nat>)
    requires Ordered(docs) && Represents(agg, docs, provided.0, provided.1)
    ensures Represents(agg, docs, Start(provided, atSn).0, Start(provided, atSn).1)
  {
  }

  lemma FoldDocuments<S(!new), N, E>(agg: Aggregator<S, N, E>, docs: seq<Document<E>>, a: nat, b: nat)
    requires a <= b <= |docs|
    ensures agg.Fold(agg.Replay(EventsIn(docs[..a])), EventsIn(docs[a..b])) == agg.Replay(EventsIn(docs[..b]))
  {
    assert EventsIn(docs[..b]) == EventsIn(docs[..a]) + EventsIn(docs[a..b]);
    FoldAppend(agg, agg.create(None), EventsIn(docs[..a]), EventsIn(docs[a..b]));
  }

  // ---------- the sink and the provider keep snapshots true ----------

  type Log<E> = map<string, seq<Document<E>>>

  function Docs<E>(log: Log<E>, key: string): seq<Document<E>> {
    if key in log then log[key] else []
  }

  /** Every listed snapshot exists and stands for the documents up to its number, all of which are there. */
  ghost predicate TrueBlobs<S(!new), N, E>(agg: Aggregator<S, N, E>, log: Log<E>, b: Blobs<N>) {
    forall k | k in b.listers :: Ascending(b.listers[k])
      && forall i | 0 <= i < |b.listers[k]| :: TrueSnapshot(agg, Docs(log, k), b, k, b.listers[k][i])
  }

  ghost predicate TrueSnapshot<S(!new), N, E>(agg: Aggregator<S, N, E>, docs: seq<Document<E>>, b: Blobs<N>,
      key: string, n: nat) {
    n <= LastSn(0, docs) && (key, n) in b.snapshots && Represents(agg, docs, n, Some(b.snapshots[(key, n)]))
  }

  /** The message holds the snapshot of the state behind the event it was stored for. */
  ghost predicate TrueMessage<S(!new), N, E>(agg: Aggregator<S, N, E>, log: Log<E>,
      x: Snapshot<N>) {
    var n := x.state.seqNum + 1;
    n <= LastSn(0, Docs(log, x.state.key)) && Represents(agg, Docs(log, x.state.key), n, Some(x.payload))
  }

  lemma SavedTrue<S(!new), N, E>(agg: Aggregator<S, N, E>, log: Log<E>, b: Blobs<N>,
      x: Snapshot<N>)
    requires TrueBlobs(agg, log, b) && TrueMessage(agg, log, x)
    ensures TrueBlobs(agg, log, Saved(b, x.state.key, x.state.seqNum + 1, x.payload))
  {
    hide Represents, Ascending, LastSn, Indexed, Docs;
    var key, n := x.state.key, x.state.seqNum + 1;
    var after := Saved(b, key, n, x.payload);
    NoneAscending();
    IndexedAscending(Lister(b, key), n);
    forall k, i | k in after.listers && 0 <= i < |after.listers[k]|
      ensures TrueSnapshot(agg, Docs(log, k), after, k, after.listers[k][i])
    {
      var m := after.listers[k][i];
      if k != key || m != n {
        assert m in Lister(b, k);
        var j :| 0 <= j < |b.listers[k]| && b.listers[k][j] == m;
        assert TrueSnapshot(agg, Docs(log, k), b, k, b.listers[k][j]);
      }
    }
  }

  lemma NoneAscending()
    ensures Ascending([])
  {
  }

  /** However many snapshots the sink is given, again or out of order, the index stays true. */
  lemma {:induction false} SinkKeepsTrue<S(!new), N, E>(
      agg: Aggregator<S, N, E>, log: Log<E>, frequency: nat, b: Blobs<N>, items: seq<Snapshot<N>>)
    requires TrueBlobs(agg, log, b) && forall i | 0 <= i < |items| :: TrueMessage(agg, log, items[i])
    ensures TrueBlobs(agg, log, SavedAll(frequency, b, items))
  {
    hide TrueBlobs, TrueMessage, Saved;
    if |items| > 0 {
      SinkKeepsTrue(agg, log, frequency, b, items[..|items| - 1]);
      SavedTrue(agg, log, SavedAll(frequency, b, items[..|items| - 1]), items[|items| - 1]);
    }
  }

  /** A true snapshot stays true when the stream grows. */
  lemma GrowthKeepsTrue<S(!new), N, E>(agg: Aggregator<S, N, E>, docs: seq<Document<E>>, more: seq<Document<E>>,
      n: nat, snapshot: Option<N>)
    requires Ordered(docs + more) && n <= LastSn(0, docs) && Represents(agg, docs, n, snapshot)
    ensures Represents(agg, docs + more, n, snapshot)
  {
    hide Ordered, LastSn;
    CutGrows(docs, more, n);
    assert (docs + more)[..Cut(docs, n)] == docs[..Cut(docs, n)];
  }

  lemma CutGrows<E>(docs: seq<Document<E>>, more: seq<Document<E>>, n: nat)
    requires Ordered(docs + more) && n <= LastSn(0, docs)
    ensures Cut(docs + more, n) == Cut(docs, n)
  {
    hide Ordered, LastSn, Cut;
    var all := docs + more;
    OrderedPrefix(all, |docs|);
    assert all[..|docs|] == docs;
    CutBelow(docs, n);
    CutBelow(all, n);
    BehindLast(docs, more, n);
    forall i | 0 <= i < |all| ensures all[i].sn <= n <==> i < Cut(docs, n) {
      if i < |docs| {
        assert all[i] == docs[i];
      }
    }
    CutIsThere(all, n, Cut(docs, n));
  }

  lemma BehindLast<E>(docs: seq<Document<E>>, more: seq<Document<E>>, n: nat)
    requires Ordered(docs + more) && n <= LastSn(0, docs)
    ensures forall i | |docs| <= i < |docs + more| :: (docs + more)[i].sn > n
  {
    var all := docs + more;
    if |docs| > 0 {
      assert all[|docs| - 1] == docs[|docs| - 1];
    }
  }

  /** What the provider returns stands for the documents up to its number, whether or not it finds any. */
  lemma ProvidedIsTrue<S(!new), N, E>(agg: Aggregator<S, N, E>, log: Log<E>, b: Blobs<N>,
      key: string, atSn: Option<nat>)
    requires TrueBlobs(agg, log, b) && Ordered(Docs(log, key))
    ensures var p := GetSnapshot(b, key, atSn);
            && Represents(agg, Docs(log, key), p.0, p.1)
            && (atSn.Some? ==> p.0 <= atSn.value)
            && forall i | 0 <= i < |Lister(b, key)| && (atSn.Some? ==> Lister(b, key)[i] <= atSn.value) ::
                Lister(b, key)[i] <= p.0
  {
    hide Represents, Ordered, RetrieveSnapshotIndex, Docs;
    NothingStands(agg, Docs(log, key));
    var list := Lister(b, key);
    if key in b.listers {
      if atSn.Some? {
        GreatestAtOrBelow(atSn.value, list);
      }
      LastIsGreatest(list);
      forall i | 0 <= i < |list| ensures TrueSnapshot(agg, Docs(log, key), b, key, list[i]) {
        assert TrueSnapshot(agg, Docs(log, key), b, key, b.listers[key][i]);
      }
    } else if atSn.Some? {
      NoneAscending();
      GreatestAtOrBelow(atSn.value, list);
    }
  }

  lemma LastIsGreatest(list: seq<nat>)
    requires Ascending(list)
    ensures forall i | 0 <= i < |list| :: list[i] <= list[|list| - 1]
  {
  }

  lemma NothingStands<S(!new), N, E>(agg: Aggregator<S, N, E>, docs: seq<Document<E>>)
    requires Ordered(docs)
    ensures Represents(agg, docs, 0, None)
  {
  }

  // ---------- a store that grows while snapshots are taken ----------

  /** Documents are appended to a stream, or the sink is given snapshots. */
  datatype Happening<+N, +E> = Appended(key: string, docs: seq<Document<E>>) | Taken(items: seq<Snapshot<N>>)

  /** The log and the blobs after what has happened so far. */
  function After<N, E>(frequency: nat, hs: seq<Happening<N, E>>): (Log<E>, Blobs<N>) {
    if |hs| == 0 then (map[], Blobs(map[], map[]))
    else
      var (log, b) := After(frequency, hs[..|hs| - 1]);
      match hs[|hs| - 1]
      case Appended(key, docs) => (log[key := Docs(log, key) + docs], b)
      case Taken(items) => (log, SavedAll(frequency, b, items))
  }

  /** What is appended continues its stream, and a snapshot is that of its key's stream by then. */
  ghost predicate Proper<S(!new), N, E>(agg: Aggregator<S, N, E>, log: Log<E>, h: Happening<N, E>) {
    match h
    case Appended(key, docs) => Ordered(Docs(log, key) + docs)
    case Taken(items) => forall i | 0 <= i < |items| :: TrueMessage(agg, log, items[i])
  }

  ghost predicate AllProper<S(!new), N, E>(agg: Aggregator<S, N, E>, frequency: nat, hs: seq<Happening<N, E>>) {
    forall i | 0 <= i < |hs| :: Proper(agg, After(frequency, hs[..i]).0, hs[i])
  }

  ghost predicate AllOrdered<E>(log: Log<E>) {
    forall k | k in log :: Ordered(log[k])
  }

  lemma GrownTrue<S(!new), N, E>(agg: Aggregator<S, N, E>, log: Log<E>, b: Blobs<N>, key: string,
      docs: seq<Document<E>>)
    requires TrueBlobs(agg, log, b) && Ordered(Docs(log, key) + docs)
    ensures TrueBlobs(agg, log[key := Docs(log, key) + docs], b)
  {
    hide Represents, Ascending, LastSn, Ordered;
    var later := log[key := Docs(log, key) + docs];
    forall k, i | k in b.listers && 0 <= i < |b.listers[k]|
      ensures TrueSnapshot(agg, Docs(later, k), b, k, b.listers[k][i])
    {
      var n := b.listers[k][i];
      assert TrueSnapshot(agg, Docs(log, k), b, k, n);
      if k == key {
        GrowthKeepsTrue(agg, Docs(log, key), docs, n, Some(b.snapshots[(k, n)]));
        LastGrows(Docs(log, key), docs);
      }
    }
  }

  lemma LastGrows<E>(docs: seq<Document<E>>, more: seq<Document<E>>)
    requires Ordered(docs + more)
    ensures LastSn(0, docs) <= LastSn(0, docs + more)
  {
    if |docs| > 0 {
      assert (docs + more)[|docs| - 1] == docs[|docs| - 1];
    }
  }

  lemma {:induction false} StaysTrue<S(!new), N, E>(agg: Aggregator<S, N, E>, frequency: nat, hs: seq<Happening<N, E>>)
    requires AllProper(agg, frequency, hs)
    ensures var (log, b) := After(frequency, hs); TrueBlobs(agg, log, b) && AllOrdered(log)
  {
    hide TrueMessage, Ordered, SavedAll;
    if |hs| > 0 {
      hide TrueBlobs;
      var init, h := hs[..|hs| - 1], hs[|hs| - 1];
      forall i | 0 <= i < |init| ensures Proper(agg, After(frequency, init[..i]).0, init[i]) {
        assert init[..i] == hs[..i];
      }
      StaysTrue(agg, frequency, init);
      var (log, b) := After(frequency, init);
      assert Proper(agg, log, h);
      match h
      case Appended(key, docs) => GrownTrue(agg, log, b, key, docs);
      case Taken(items) => SinkKeepsTrue(agg, log, frequency, b, items);
    }
  }

  ghost predicate AllAscending<N>(b: Blobs<N>) {
    forall k | k in b.listers :: Ascending(b.listers[k])
  }

  /** One of the messages holds the state of `key` behind event `n`. */
  ghost predicate HoldsState<N>(items: seq<Snapshot<N>>, key: string, n: nat) {
    exists i | 0 <= i < |items| :: items[i].state.key == key && items[i].state.seqNum + 1 == n
  }

  lemma {:induction false} SavedIff<N>(frequency: nat, b: Blobs<N>, items: seq<Snapshot<N>>, key: string, n: nat)
    requires AllAscending(b)
    ensures AllAscending(SavedAll(frequency, b, items))
    ensures n in Lister(SavedAll(frequency, b, items), key) <==>
            n in Lister(b, key) || (HoldsState(items, key, n) && frequency > 0 && n % frequency == 0)
  {
    hide Ascending;
    if |items| > 0 {
      var init, x := items[..|items| - 1], items[|items| - 1];
      SavedIff(frequency, b, init, key, n);
      var before := SavedAll(frequency, b, init);
      NoneAscending();
      IndexedAscending(Lister(before, x.state.key), x.state.seqNum + 1);
      HoldsSnoc(items, key, n);
      hide HoldsState, Indexed;
    }
  }

  lemma HoldsSnoc<N>(items: seq<Snapshot<N>>, key: string, n: nat)
    requires |items| > 0
    ensures var m := |items| - 1;
            HoldsState(items, key, n) <==>
            HoldsState(items[..m], key, n) || (items[m].state.key == key && items[m].state.seqNum + 1 == n)
  {
    var m := |items| - 1;
    if i :| 0 <= i < m && items[i].state.key == key && items[i].state.seqNum + 1 == n {
      assert items[..m][i] == items[i];
    }
    if HoldsState(items[..m], key, n) {
      var i :| 0 <= i < m && items[..m][i].state.key == key && items[..m][i].state.seqNum + 1 == n;
      assert items[i] == items[..m][i];
    }
  }

  /** The sink was given the state of `key` behind event `n`. */
  ghost predicate WasTaken<N, E>(hs: seq<Happening<N, E>>, key: string, n: nat) {
    exists i | 0 <= i < |hs| :: hs[i].Taken? && HoldsState(hs[i].items, key, n)
  }

  /** Exactly the states that were offered at a multiple of the frequency have a snapshot on the list. */
  lemma {:induction false} ListedIff<N, E>(frequency: nat, hs: seq<Happening<N, E>>, key: string, n: nat)
    ensures AllAscending(After(frequency, hs).1)
    ensures n in Lister(After(frequency, hs).1, key) <==>
            WasTaken(hs, key, n) && frequency > 0 && n % frequency == 0
  {
    hide HoldsState, SavedAll, Ascending;
    if |hs| > 0 {
      var init, h := hs[..|hs| - 1], hs[|hs| - 1];
      ListedIff(frequency, init, key, n);
      TakenSnoc(hs, key, n);
      if h.Taken? {
        SavedIff(frequency, After(frequency, init).1, h.items, key, n);
      }
      hide WasTaken;
    }
  }

  lemma TakenSnoc<N, E>(hs: seq<Happening<N, E>>, key: string, n: nat)
    requires |hs| > 0
    ensures var m := |hs| - 1;
            WasTaken(hs, key, n) <==> WasTaken(hs[..m], key, n) || (hs[m].Taken? && HoldsState(hs[m].items, key, n))
  {
    hide HoldsState;
    var m := |hs| - 1;
    forall i | 0 <= i < m ensures hs[..m][i] == hs[i] {
    }
  }

  /** End to end: whatever has been appended to the streams and whatever snapshots have been taken in
      between, in any order and more than once, the state of any key at any time is loaded as if there were
      no snapshots at all. */
  lemma SnapshotsAreInvisible<S(!new), N, E>(agg: Aggregator<S, N, E>, frequency: nat, hs: seq<Happening<N, E>>,
      key: string, atSn: Option<nat>)
    requires AllProper(agg, frequency, hs)
    ensures var (log, b) := After(frequency, hs);
            var r: Aggregable<N, E> := LoadSpec(Docs(log, key), GetSnapshot(b, key, atSn), atSn);
            agg.Fold(agg.create(r.snapshot), r.events) == agg.Replay(EventsIn(Asked(Docs(log, key), atSn)))
  {
    hide AllProper, GetSnapshot, LoadSpec, After, Asked, TrueBlobs;
    StaysTrue(agg, frequency, hs);
    var (log, b) := After(frequency, hs);
    assert Ordered(Docs(log, key));
    hide Ordered, Docs;
    ProvidedIsTrue(agg, log, b, key, atSn);
    LoadIsReplay(agg, Docs(log, key), GetSnapshot(b, key, atSn), atSn);
  }

  // ---------- what is reported as lost ----------

  lemma {:induction false} RangeMembers(from: nat, to: nat, x: nat)
    ensures x in Range(from, to) <==> from <= x < to
  {
    if from < to {
      RangeMembers(from, to - 1, x);
    }
  }

  /** What is reported lies between a document and the last one kept before it. */
  lemma {:induction false} ReportedIff<E>(from: nat, result: seq<Document<E>>, atSn: Option<nat>, x: nat)
    ensures x in Reports(from, result, atSn) <==> exists i: nat :: ReportedAt(from, result, atSn, x, i)
  {
    hide Reports, ReportedAt, LastSn, Kept;
    if |result| > 0 {
      var n := |result| - 1;
      ReportsSnoc(from, result, atSn, x);
      ReportedIff(from, result[..n], atSn, x);
      ReportedSnoc(from, result, atSn, x);
    } else {
      NoneReported(from, result, atSn, x);
    }
  }

  lemma NoneReported<E>(from: nat, result: seq<Document<E>>, atSn: Option<nat>, x: nat)
    requires |result| == 0
    ensures x !in Reports(from, result, atSn) && forall i: nat :: !ReportedAt(from, result, atSn, x, i)
  {
  }

  lemma ReportsSnoc<E>(from: nat, result: seq<Document<E>>, atSn: Option<nat>, x: nat)
    requires |result| > 0
    ensures var n := |result| - 1;
            x in Reports(from, result, atSn)
            <==> x in Reports(from, result[..n], atSn) || LastSn(from, Kept(result[..n], atSn)) < x < result[n].sn
  {
    hide Range, LastSn, Kept;
    var n := |result| - 1;
    RangeMembers(LastSn(from, Kept(result[..n], atSn)) + 1, result[n].sn, x);
  }

  lemma ReportedSnoc<E>(from: nat, result: seq<Document<E>>, atSn: Option<nat>, x: nat)
    requires |result| > 0
    ensures var n := |result| - 1;
            (exists i: nat :: ReportedAt(from, result, atSn, x, i))
            <==>
            || (exists i: nat :: ReportedAt(from, result[..n], atSn, x, i))
            || LastSn(from, Kept(result[..n], atSn)) < x < result[n].sn
  {
    hide LastSn, Kept;
    var n := |result| - 1;
    assert ReportedAt(from, result, atSn, x, n) <==> LastSn(from, Kept(result[..n], atSn)) < x < result[n].sn;
    forall i: nat | i < n ensures ReportedAt(from, result[..n], atSn, x, i) == ReportedAt(from, result, atSn, x, i) {
      assert result[..n][..i] == result[..i];
    }
  }

  predicate ReportedAt<E>(from: nat, result: seq<Document<E>>, atSn: Option<nat>, x: nat, i: nat) {
    i < |result| && LastSn(from, Kept(result[..i], atSn)) < x < result[i].sn
  }

  /** The query returns a stretch of the stream, of which the loop keeps the front. */
  lemma FoundSlice<N, E>(docs: seq<Document<E>>, provided: (nat, Option<N>), atSn: Option<nat>)
      returns (a: nat, b: nat, end: nat)
    requires Ordered(docs)
    ensures var n := Start(provided, atSn).0;
            && a == Cut(docs, n) && b == (if atSn.Some? then Cut(docs, atSn.value) else |docs|)
            && end == (if atSn.Some? && a + (atSn.value - n) <= |docs| then a + (atSn.value - n) else |docs|)
            && a <= b <= end <= |docs| && Found(docs, provided, atSn) == docs[a..end]
            && (a > 0 ==> docs[a - 1].sn <= n) && (a < |docs| ==> docs[a].sn > n)
    ensures forall i | a <= i <= end :: Kept(docs[a..i], atSn) == docs[a..if i < b then i else b]
  {
    hide Ordered, UpToSn, FromSn, Query, Cut;
    var n := Start(provided, atSn).0;
    a := Cut(docs, n);
    if a < |docs| {
      CutAbove(docs, n, a);
    }
    if atSn.Some? {
      TopDropsNothing(docs, n, atSn.value);
      b := Cut(docs, atSn.value);
      end := QueryTop(docs, n, atSn.value);
      forall i | a <= i <= end ensures UpToSn(docs[a..i], atSn.value) == docs[a..if i < b then i else b] {
        KeptOfSlice(docs, a, i, atSn.value);
      }
    } else {
      b, end := |docs|, |docs|;
      QueryAll(docs, n);
    }
  }

  lemma QueryTop<E>(docs: seq<Document<E>>, n: nat, atSn: nat) returns (end: nat)
    requires Ordered(docs) && n <= atSn
    ensures end == if Cut(docs, n) + (atSn - n) <= |docs| then Cut(docs, n) + (atSn - n) else |docs|
    ensures Cut(docs, n) <= Cut(docs, atSn) <= end <= |docs|
    ensures Query(docs, n + 1, Some(atSn - n)) == docs[Cut(docs, n)..end]
  {
    hide Ordered, FromSn, UpToSn;
    var a := Cut(docs, n);
    TopDropsNothing(docs, n, atSn);
    FromIsSuffix(docs, n);
    end := if a + (atSn - n) <= |docs| then a + (atSn - n) else |docs|;
  }

  lemma KeptOfSlice<E>(docs: seq<Document<E>>, a: nat, i: nat, atSn: nat)
    requires Ordered(docs) && a <= i <= |docs| && a <= Cut(docs, atSn)
    ensures UpToSn(docs[a..i], atSn) == docs[a..if i < Cut(docs, atSn) then i else Cut(docs, atSn)]
  {
    hide Ordered;
    if i < Cut(docs, atSn) {
      CutBelow(docs, atSn);
      SliceOrdered(docs, a, i);
      FromIsSuffix(docs[a..i], atSn);
      AllUpTo(docs[a..i], atSn);
      assert docs[a..i][..i - a] == docs[a..i];
    } else {
      SliceUpTo(docs, a, i, atSn);
    }
  }

  ghost predicate Lost<E>(docs: seq<Document<E>>, x: nat) {
    forall j | 0 <= j < |docs| :: docs[j].sn != x
  }

  /** How many numbers behind `from`, up to `to`, have no document. */
  function Missing<E>(docs: seq<Document<E>>, from: nat, to: nat): int {
    (to - from) - (Cut(docs, to) - Cut(docs, from))
  }

  /** At most one number is missing up to `atSn`, or at most one document lies behind it. */
  predicate AtMostOneOver<E>(docs: seq<Document<E>>, n: nat, atSn: Option<nat>) {
    atSn.None? || Missing(docs, n, atSn.value) <= 1 || |docs| - Cut(docs, atSn.value) <= 1
  }

  lemma AlarmsAreReal<E>(docs: seq<Document<E>>, n: nat, atSn: Option<nat>, a: nat, b: nat, end: nat, x: nat)
    requires Ordered(docs) && a <= b <= end <= |docs| && end <= b + 1 && (a > 0 ==> docs[a - 1].sn <= n)
    requires forall i | a <= i <= end :: Kept(docs[a..i], atSn) == docs[a..if i < b then i else b]
    requires x in Reports(n, docs[a..end], atSn)
    ensures Lost(docs, x)
  {
    hide Ordered, Kept, Reports;
    ReportedIff(n, docs[a..end], atSn, x);
    var i: nat :| ReportedAt(n, docs[a..end], atSn, x, i);
    SliceOfSlice(docs, a, end, i);
    Between(docs, n, a, a + i, x);
  }

  lemma AlarmIsFalse<E>(docs: seq<Document<E>>, n: nat, atSn: Option<nat>, a: nat, b: nat, end: nat)
    requires Ordered(docs) && a <= b <= end <= |docs| && end > b + 1 && docs[a].sn > n
    requires forall i | a <= i <= end :: Kept(docs[a..i], atSn) == docs[a..if i < b then i else b]
    ensures docs[b].sn in Reports(n, docs[a..end], atSn) && !Lost(docs, docs[b].sn)
  {
    hide Ordered, Kept, Reports;
    var x := docs[b].sn;
    ReportedIff(n, docs[a..end], atSn, x);
    SliceOfSlice(docs, a, end, b + 1 - a);
    FalseAlarm(docs, n, a, b);
    assert ReportedAt(n, docs[a..end], atSn, x, b + 1 - a);
  }

  /** Every number reported as lost is really missing exactly if, up to `atSn`, at most one number is missing
      behind the snapshot, or at most one document lies behind `atSn`; otherwise the query fills up with
      documents behind `atSn`, and the first of them is itself reported as lost. */
  lemma AlarmsAreRealIff<N, E>(docs: seq<Document<E>>, provided: (nat, Option<N>), atSn: Option<nat>)
    requires Ordered(docs)
    ensures var n := Start(provided, atSn).0;
            (forall x | x in Reports(n, Found(docs, provided, atSn), atSn) :: Lost(docs, x))
                <==> AtMostOneOver(docs, n, atSn)
  {
    hide Ordered, Found, Kept, Reports, Start, Cut, Lost;
    var n := Start(provided, atSn).0;
    var a, b, end := FoundSlice(docs, provided, atSn);
    if end <= b + 1 {
      forall x | x in Reports(n, docs[a..end], atSn) ensures Lost(docs, x) {
        AlarmsAreReal(docs, n, atSn, a, b, end, x);
      }
    } else {
      AlarmIsFalse(docs, n, atSn, a, b, end);
    }
  }

  lemma SliceOfSlice<T>(s: seq<T>, a: nat, end: nat, i: nat)
    requires a + i <= end <= |s|
    ensures s[a..end][..i] == s[a..a + i]
  {
  }

  lemma Between<E>(docs: seq<Document<E>>, n: nat, a: nat, i: nat, x: nat)
    requires Ordered(docs) && a <= i < |docs| && (a > 0 ==> docs[a - 1].sn <= n)
    requires LastSn(n, docs[a..i]) < x < docs[i].sn
    ensures Lost(docs, x)
  {
  }

  lemma FalseAlarm<E>(docs: seq<Document<E>>, n: nat, a: nat, b: nat)
    requires Ordered(docs) && a <= b && b + 1 < |docs| && docs[a].sn > n
    ensures LastSn(n, docs[a..b]) < docs[b].sn < docs[b + 1].sn
  {
  }
}
