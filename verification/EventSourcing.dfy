/** States as folds of event streams: packages/core/src/defaults/ConventionBasedStateAggregator.ts,
    EventSourcedStateProvider.ts and InMemoryStateAggregationSource.ts. */
module EventSourcing {
  import opened Wrappers
  import opened Model
  import opened InMemorySink

  /** A state class and its aggregation handlers: `new TState(snapshot)`, `state.snap()` and the handler
      for an event, which leaves the state alone when the target has none. */
  datatype Aggregator<!S(!new), !N, !E> = Aggregator(create: Option<N> -> S, snap: S -> N, apply: (S, E) -> S)
  {
    /** What the original asks of a state class: a state can be rebuilt from its snapshot. */
    ghost predicate SnapRestores() {
      forall s: S :: create(Some(snap(s))) == s
    }

    function Fold(s: S, events: seq<E>): S {
      if |events| == 0 then s else apply(Fold(s, events[..|events| - 1]), events[|events| - 1])
    }

    /** The state after all of `events`, from nothing. */
    function Replay(events: seq<E>): S {
      Fold(create(None), events)
    }
  }

  /** model/state.ts, `IAggregableState`. */
  datatype Aggregable<+N, +E> = Aggregable(events: seq<E>, lastSn: nat, snapshot: Option<N>)

  /** A `StateRef` together with its state. */
  datatype Version<+S> = Version(state: S, key: string, seqNum: nat, epoch: Option<nat>)
  {
    function Ref(): StateRef {
      StateRef(key, seqNum, epoch)
    }
  }

  /** The version holds exactly what its first `seqNum` events make of the state. */
  ghost predicate Replays<S(!new), N, E>(agg: Aggregator<S, N, E>, stream: seq<E>, v: Version<S>) {
    v.seqNum <= |stream| && v.state == agg.Replay(stream[..v.seqNum])
  }

  /** ConventionBasedStateAggregator.ts:19-25. */
  method Aggregate<S(!new), N, E>(agg: Aggregator<S, N, E>, source: Aggregable<N, E>) returns (state: S)
    ensures state == agg.Fold(agg.create(source.snapshot), source.events)
  {
    state := agg.create(source.snapshot);
    for i := 0 to |source.events|
      invariant state == agg.Fold(agg.create(source.snapshot), source.events[..i])
    {
      assert source.events[..i + 1][..i] == source.events[..i];
      state := agg.apply(state, source.events[i]);
    }
    assert source.events[..|source.events|] == source.events;
  }

  /** JavaScript's `slice(0, n - 1)`: a negative bound counts from the end. */
  function SliceBefore<E>(stream: seq<E>, n: nat): seq<E> {
    if n > 0 then Take(stream, n - 1) else if |stream| > 0 then stream[..|stream| - 1] else []
  }

  /** InMemoryStateAggregationSource.ts:16-35. */
  function Load<N, E>(storage: Storage<E>, key: string, atSn: Option<nat>): Aggregable<N, E> {
    var events := if atSn.None? then Stream(storage, key) else SliceBefore(Stream(storage, key), atSn.value);
    Aggregable(events, |events|, None)
  }

  /** EventSourcedStateProvider.ts:48-56. */
  function Fetch<S(!new), N, E>(agg: Aggregator<S, N, E>, storage: Storage<E>, key: string,
      atSn: Option<nat>): Version<S> {
    var data: Aggregable<N, E> := Load(storage, key, atSn);
    Version(agg.Fold(agg.create(data.snapshot), data.events), key, data.lastSn, None)
  }

  /** EventSourcedStateProvider.ts:58-66. */
  function Compute<S(!new), N, E>(agg: Aggregator<S, N, E>, v: Version<S>, events: seq<E>): Version<S> {
    Version(agg.Fold(agg.create(Some(agg.snap(v.state))), events), v.key, v.seqNum + |events|, None)
  }

  lemma {:induction false} FoldAppend<S(!new), N, E>(agg: Aggregator<S, N, E>, s: S, a: seq<E>, b: seq<E>)
    ensures agg.Fold(s, a + b) == agg.Fold(agg.Fold(s, a), b)
  {
    if b == [] {
      assert a + b == a;
    } else {
      var n := |b| - 1;
      assert (a + b)[..|a + b| - 1] == a + b[..n];
      FoldAppend(agg, s, a, b[..n]);
    }
  }

  /** Computing in two steps is computing in one. */
  lemma ComputeComposes<S(!new), N, E>(agg: Aggregator<S, N, E>, v: Version<S>, a: seq<E>, b: seq<E>)
    requires agg.SnapRestores()
    ensures Compute(agg, Compute(agg, v, a), b) == Compute(agg, v, a + b)
  {
    FoldAppend(agg, v.state, a, b);
  }

  /** Adding the events that follow a version gives the version a full replay would give. */
  lemma ComputeReplays<S(!new), N, E>(agg: Aggregator<S, N, E>, stream: seq<E>, v: Version<S>, events: seq<E>)
    requires agg.SnapRestores() && Replays(agg, stream, v)
    requires v.seqNum + |events| <= |stream| && stream[v.seqNum..v.seqNum + |events|] == events
    ensures Replays(agg, stream, Compute(agg, v, events))
  {
    assert stream[..v.seqNum + |events|] == stream[..v.seqNum] + events;
    FoldAppend(agg, agg.create(None), stream[..v.seqNum], events);
  }

  /** Whatever is asked for, what is loaded is some prefix of the stream, replayed. */
  lemma FetchReplays<S(!new), N, E>(agg: Aggregator<S, N, E>, storage: Storage<E>, key: string, atSn: Option<nat>)
    ensures Replays(agg, Stream(storage, key), Fetch(agg, storage, key, atSn))
  {
    var s := Stream(storage, key);
    var v := Fetch(agg, storage, key, atSn);
    assert s[..|s|] == s;
    assert v.state == agg.Replay(s[..v.seqNum]);
  }

  /** Later events do not change what a version means. */
  lemma StillReplays<S(!new), N, E>(agg: Aggregator<S, N, E>, stream: seq<E>, longer: seq<E>, v: Version<S>)
    requires Replays(agg, stream, v) && stream <= longer
    ensures Replays(agg, longer, v)
  {
    assert stream[..v.seqNum] == longer[..v.seqNum];
  }

  /** Asked for the state at `n`, the in-memory source leaves out the `n`-th event; what it returns is
      the first `n` events exactly when the stream is shorter than that. */
  lemma LoadAtIsOneShort<N, E>(storage: Storage<E>, key: string, n: nat)
    ensures var stream := Stream(storage, key);
            var loaded: Aggregable<N, E> := Load(storage, key, Some(n));
            loaded.events == Take(stream, n) <==> |stream| < n || |stream| == 0 || (n == 0 && |stream| == 1)
  {
  }
}
