/** Any number of producers and one consumer on a bounded priority queue, one step for each stretch of
    BoundedPriorityQueue.ts between two `await`s. */
module BoundedQueueRuns {
  import opened Wrappers
  import opened BoundedQueue

  // ---------- what a call does to the stored items ----------

  function Items<T>(q: Queue<T>, p: int): seq<T> {
    if p in q.queues then q.queues[p] else []
  }

  /** An accepted item is the last of its priority; a call that is refused or has to wait leaves nothing
      behind, and no call touches the items of other priorities. */
  lemma EnqueueStores<T>(capacity: nat, q: Queue<T>, item: T, p: int)
    ensures var (q', r) := TryEnqueueSpec(capacity, q, item, p);
            && Items(q', p) == (if r.Accepted? then Items(q, p) + [item] else Items(q, p))
            && (forall x | x != p :: Items(q', x) == Items(q, x))
            && q'.total == (if r.Accepted? then q.total + 1 else q.total)
            && (r.Accepted? <==> |Items(q, p)| < capacity)
            && (r.Refused? ==> q.closed)
  {
  }

  /** What is dequeued is the oldest item of the highest priority that has any; the consumer waits, or
      ends, only if there is nothing. */
  lemma DequeueServes<T>(capacity: nat, q: Queue<T>)
    requires Shape(capacity, q)
    ensures var (q', r) := TryDequeueSpec(capacity, q);
            match r
            case Got(p, item) =>
              && Items(q, p) == [item] + Items(q', p) && (forall x | x > p :: Items(q, x) == [])
              && (forall x | x != p :: Items(q', x) == Items(q, x)) && q'.total == q.total - 1
            case Ended => q' == q && q.closed && q.total == 0 && forall x :: Items(q, x) == []
            case Awaits(f) => q' == q && !q.closed && f == q.notEmpty && q.total == 0 && forall x :: Items(q, x) == []
  {
    var i := FirstNonEmpty(q.queues, q.sorted);
    TotalZero(q.queues, q.sorted);
    if i < |q.sorted| && !(q.closed && q.total == 0) {
      ShiftedItems(capacity, q, q.sorted[i]);
      HigherEmpty(capacity, q, i);
    } else {
      AllEmpty(capacity, q);
    }
  }

  lemma ShiftedItems<T>(capacity: nat, q: Queue<T>, p: int)
    requires p in q.queues && |q.queues[p]| > 0
    ensures var q' := Shifted(capacity, q, p);
            Items(q, p) == [q.queues[p][0]] + Items(q', p) && forall x | x != p :: Items(q', x) == Items(q, x)
  {
  }

  lemma HigherEmpty<T>(capacity: nat, q: Queue<T>, i: nat)
    requires Shape(capacity, q) && i < |q.sorted| && forall j | 0 <= j < i :: Size(q.queues, q.sorted[j]) == 0
    ensures forall x | x > q.sorted[i] :: Items(q, x) == []
  {
  }

  lemma AllEmpty<T>(capacity: nat, q: Queue<T>)
    requires Shape(capacity, q) && forall j | 0 <= j < |q.sorted| :: Size(q.queues, q.sorted[j]) == 0
    ensures forall x :: Items(q, x) == []
  {
  }

  // ---------- runs ----------

  datatype Call<+T> = Call(item: T, priority: int)

  datatype Consumer = Free | Waiting(future: nat) | Over

  /** Calls of `enqueue` are numbered; `producers` are those that wait, with the future they wait for;
      `results` are the values the others returned, `accepted` those that returned true in that order. */
  datatype System<+T> = System(
    q: Queue<T>, calls: seq<Call<T>>, producers: map<nat, nat>, results: map<nat, bool>, accepted: seq<nat>,
    consumer: Consumer, delivered: seq<Call<T>>)

  datatype Step<+T> = Enqueue(call: Call<T>) | Resume(id: nat) | Dequeue | Wake | Close

  function Start<T>(): System<T> {
    System(Empty(), [], map[], map[], [], Free, [])
  }

  predicate Enabled<T>(s: System<T>, step: Step<T>) {
    match step
    case Enqueue(_) => true
    case Resume(id) => id in s.producers && id < |s.calls| && s.producers[id] in s.q.resolved
    case Dequeue => s.consumer.Free?
    case Wake => s.consumer.Waiting? && s.consumer.future in s.q.resolved
    case Close => true
  }

  function Settled<T>(s: System<T>, id: nat, q: Queue<T>, r: Enqueued): System<T> {
    match r
    case Accepted => s.(q := q, producers := s.producers - {id}, results := s.results[id := true],
        accepted := s.accepted + [id])
    case Refused => s.(q := q, producers := s.producers - {id}, results := s.results[id := false])
    case Blocked(f) => s.(q := q, producers := s.producers[id := f])
  }

  function Served<T>(s: System<T>, q: Queue<T>, r: Dequeued<T>): System<T> {
    match r
    case Got(p, item) => s.(q := q, consumer := Free, delivered := s.delivered + [Call(item, p)])
    case Ended => s.(q := q, consumer := Over)
    case Awaits(f) => s.(q := q, consumer := Waiting(f))
  }

  function Next<T>(capacity: nat, s: System<T>, step: Step<T>): System<T>
    requires Enabled(s, step)
  {
    match step
    case Enqueue(call) =>
      var (q, r) := TryEnqueueSpec(capacity, s.q, call.item, call.priority);
      Settled(s.(calls := s.calls + [call]), |s.calls|, q, r)
    case Resume(id) =>
      var (q, r) := ResumeEnqueueSpec(capacity, s.q, s.calls[id].item, s.calls[id].priority);
      Settled(s, id, q, r)
    case Dequeue =>
      var (q, r) := TryDequeueSpec(capacity, s.q);
      Served(s, q, r)
    case Wake =>
      var (q, r) := ResumeDequeueSpec(capacity, s.q);
      Served(s, q, r)
    case Close => s.(q := Closed(s.q))
  }

  function Exec<T>(capacity: nat, steps: seq<Step<T>>): Option<System<T>> {
    if |steps| == 0 then Some(Start())
    else
      var s := Exec(capacity, steps[..|steps| - 1]);
      var step := steps[|steps| - 1];
      if s.Some? && Enabled(s.value, step) then Some(Next(capacity, s.value, step)) else None
  }

  ghost predicate Reachable<T(!new)>(capacity: nat, s: System<T>) {
    exists steps: seq<Step<T>> :: Exec(capacity, steps) == Some(s)
  }

  // ---------- the invariant ----------

  /** The items of priority `p` among the accepted calls. */
  function AcceptedItems<T>(calls: seq<Call<T>>, ids: seq<nat>, p: int): seq<T> {
    if |ids| == 0 then []
    else
      var id := ids[|ids| - 1];
      AcceptedItems(calls, ids[..|ids| - 1], p)
      + if id < |calls| && calls[id].priority == p then [calls[id].item] else []
  }

  function DeliveredItems<T>(delivered: seq<Call<T>>, p: int): seq<T> {
    if |delivered| == 0 then []
    else
      var d := delivered[|delivered| - 1];
      DeliveredItems(delivered[..|delivered| - 1], p) + if d.priority == p then [d.item] else []
  }

  /** What was accepted is what was delivered and what is stored, in order, priority by priority. */
  ghost predicate Conserved<T>(s: System<T>) {
    forall p :: AcceptedItems(s.calls, s.accepted, p) == DeliveredItems(s.delivered, p) + Items(s.q, p)
  }

  /** Every call waits or has returned; those that returned true, and no others, were accepted, once. */
  ghost predicate Accounted<T>(s: System<T>) {
    && (forall id :: id in s.producers || id in s.results <==> 0 <= id < |s.calls|)
    && (forall id | id in s.producers :: id !in s.results)
    && (forall i | 0 <= i < |s.accepted| :: s.accepted[i] in s.results && s.results[s.accepted[i]])
    && (forall id | id in s.results && s.results[id] :: id in s.accepted)
    && (forall i, j | 0 <= i < j < |s.accepted| :: s.accepted[i] != s.accepted[j])
  }

  /** A producer whose future is unresolved waits for the current future of its priority, and rightly so:
      the queue of that priority is full. */
  ghost predicate ProducersAwake<T>(capacity: nat, s: System<T>) {
    forall id | id in s.producers ::
      id < |s.calls| && (s.producers[id] !in s.q.resolved ==>
          FullFor(capacity, s.q, s.calls[id].priority, s.producers[id]))
  }

  predicate FullFor<T>(capacity: nat, q: Queue<T>, p: int, future: nat) {
    p in q.queues && |q.queues[p]| == capacity && p in q.notFull && q.notFull[p] == future
  }

  /** A waiting consumer waits for the current future, which is resolved if there is anything to do. */
  predicate ConsumerAwake<T>(s: System<T>) {
    s.consumer.Waiting? ==>
      s.consumer.future == s.q.notEmpty && (s.q.total > 0 || s.q.closed ==> s.q.notEmpty in s.q.resolved)
  }

  ghost predicate Inv<T>(capacity: nat, s: System<T>) {
    && Shape(capacity, s.q) && s.q.notFull.Keys <= s.q.queues.Keys
    && Conserved(s) && Accounted(s) && ProducersAwake(capacity, s) && ConsumerAwake(s)
  }

  // ---------- the queue under one call ----------

  lemma EnqueueKeys<T>(capacity: nat, q: Queue<T>, item: T, p: int)
    requires q.notFull.Keys <= q.queues.Keys
    ensures var q' := TryEnqueueSpec(capacity, q, item, p).0; q'.notFull.Keys <= q'.queues.Keys
  {
  }

  lemma DequeueKeys<T>(capacity: nat, q: Queue<T>)
    requires Shape(capacity, q) && q.notFull.Keys <= q.queues.Keys
    ensures var q' := TryDequeueSpec(capacity, q).0; q'.notFull.Keys <= q'.queues.Keys
  {
  }

  /** Who has to wait waits rightly, and the calls of others do not change that. */
  lemma EnqueueKeepsFull<T>(capacity: nat, q: Queue<T>, item: T, p: int)
    requires Shape(capacity, q)
    ensures var (q', r) := TryEnqueueSpec(capacity, q, item, p);
            && q.resolved <= q'.resolved
            && (forall x, f | FullFor(capacity, q, x, f) :: FullFor(capacity, q', x, f))
            && (r.Blocked? ==> FullFor(capacity, q', p, r.future))
  {
    hide Descending, Total, Insert;
  }

  /** Making room in a full queue resolves the future its producers wait for. */
  lemma DequeueKeepsFull<T>(capacity: nat, q: Queue<T>)
    requires Shape(capacity, q)
    ensures var q' := TryDequeueSpec(capacity, q).0;
            && q.resolved <= q'.resolved
            && forall x, f | FullFor(capacity, q, x, f) :: f in q'.resolved || FullFor(capacity, q', x, f)
  {
  }

  /** The first item to be stored resolves the future the consumer waits for. */
  lemma EnqueueWakes<T>(capacity: nat, q: Queue<T>, item: T, p: int)
    requires Shape(capacity, q) && (q.total > 0 || q.closed ==> q.notEmpty in q.resolved)
    ensures var q' := TryEnqueueSpec(capacity, q, item, p).0;
            q'.notEmpty == q.notEmpty && (q'.total > 0 || q'.closed ==> q'.notEmpty in q'.resolved)
  {
    hide Descending, Insert;
  }

  // ---------- every step keeps the invariant ----------

  /** The invariant while call `id` is being served: it neither waits nor has returned. */
  ghost predicate Serving<T>(capacity: nat, s: System<T>, id: nat) {
    && Shape(capacity, s.q) && s.q.notFull.Keys <= s.q.queues.Keys
    && Conserved(s) && ConsumerAwake(s)
    && (forall x | x in s.producers && x != id ::
          x < |s.calls| && (s.producers[x] !in s.q.resolved ==>
              FullFor(capacity, s.q, s.calls[x].priority, s.producers[x])))
    && id < |s.calls| && id !in s.results
    && (forall x | x != id :: x in s.producers || x in s.results <==> 0 <= x < |s.calls|)
    && (forall x | x in s.producers :: x !in s.results)
    && (forall i | 0 <= i < |s.accepted| :: s.accepted[i] in s.results && s.results[s.accepted[i]])
    && (forall x | x in s.results && s.results[x] :: x in s.accepted)
    && (forall i, j | 0 <= i < j < |s.accepted| :: s.accepted[i] != s.accepted[j])
  }

  lemma AcceptedSnoc<T>(calls: seq<Call<T>>, ids: seq<nat>, id: nat, p: int)
    ensures AcceptedItems(calls, ids + [id], p)
            == AcceptedItems(calls, ids, p) + if id < |calls| && calls[id].priority == p then [calls[id].item] else []
  {
  }

  lemma DeliveredSnoc<T>(delivered: seq<Call<T>>, d: Call<T>, p: int)
    ensures DeliveredItems(delivered + [d], p)
            == DeliveredItems(delivered, p) + if d.priority == p then [d.item] else []
  {
  }

  lemma {:induction false} MoreCalls<T>(calls: seq<Call<T>>, call: Call<T>, ids: seq<nat>, p: int)
    requires forall i | 0 <= i < |ids| :: ids[i] < |calls|
    ensures AcceptedItems(calls + [call], ids, p) == AcceptedItems(calls, ids, p)
  {
    if |ids| > 0 {
      MoreCalls(calls, call, ids[..|ids| - 1], p);
    }
  }

  lemma CallArrives<T>(capacity: nat, s: System<T>, call: Call<T>)
    requires Inv(capacity, s)
    ensures Serving(capacity, s.(calls := s.calls + [call]), |s.calls|)
  {
    hide Shape, AcceptedItems, DeliveredItems, Items, FullFor;
    var t := s.(calls := s.calls + [call]);
    forall p ensures AcceptedItems(t.calls, t.accepted, p) == DeliveredItems(t.delivered, p) + Items(t.q, p) {
      assert forall i | 0 <= i < |s.accepted| :: s.accepted[i] in s.results;
      MoreCalls(s.calls, call, s.accepted, p);
    }
  }

  lemma SettledConserved<T>(capacity: nat, s: System<T>, id: nat)
    requires Conserved(s) && id < |s.calls|
    ensures var (q, r) := TryEnqueueSpec(capacity, s.q, s.calls[id].item, s.calls[id].priority);
            Conserved(Settled(s, id, q, r))
  {
    hide TryEnqueueSpec, Items;
    var (q, r) := TryEnqueueSpec(capacity, s.q, s.calls[id].item, s.calls[id].priority);
    EnqueueStores(capacity, s.q, s.calls[id].item, s.calls[id].priority);
    var t := Settled(s, id, q, r);
    forall p ensures AcceptedItems(t.calls, t.accepted, p) == DeliveredItems(t.delivered, p) + Items(t.q, p) {
      assert AcceptedItems(s.calls, s.accepted, p) == DeliveredItems(s.delivered, p) + Items(s.q, p);
      AcceptedSnoc(s.calls, s.accepted, id, p);
    }
  }

  lemma SettledAccounted<T>(capacity: nat, s: System<T>, id: nat, q: Queue<T>, r: Enqueued)
    requires Serving(capacity, s, id)
    ensures Accounted(Settled(s, id, q, r))
  {
    hide Shape, Conserved, ConsumerAwake, FullFor;
    var t := Settled(s, id, q, r);
    if r.Accepted? {
      assert t.accepted[|s.accepted|] == id;
      forall x | x in t.results && t.results[x] ensures x in t.accepted {
        if x != id {
          var i :| 0 <= i < |s.accepted| && s.accepted[i] == x;
          assert t.accepted[i] == x;
        }
      }
    }
  }

  lemma SettledInv<T>(capacity: nat, s: System<T>, id: nat)
    requires Serving(capacity, s, id)
    ensures var (q, r) := TryEnqueueSpec(capacity, s.q, s.calls[id].item, s.calls[id].priority);
            Inv(capacity, Settled(s, id, q, r))
  {
    hide Shape, Conserved, Accounted, TryEnqueueSpec, FullFor;
    var (q, r) := TryEnqueueSpec(capacity, s.q, s.calls[id].item, s.calls[id].priority);
    var item, p := s.calls[id].item, s.calls[id].priority;
    EnqueueShape(capacity, s.q, item, p);
    EnqueueKeys(capacity, s.q, item, p);
    EnqueueKeepsFull(capacity, s.q, item, p);
    if s.consumer.Waiting? {
      EnqueueWakes(capacity, s.q, item, p);
    }
    SettledConserved(capacity, s, id);
    SettledAccounted(capacity, s, id, q, r);
  }

  lemma RefusedInv<T>(capacity: nat, s: System<T>, id: nat)
    requires Serving(capacity, s, id)
    ensures Inv(capacity, Settled(s, id, s.q, Refused))
  {
    hide Shape, Accounted, FullFor;
    SettledAccounted(capacity, s, id, s.q, Refused);
  }

  lemma ServedConserved<T>(capacity: nat, s: System<T>)
    requires Shape(capacity, s.q) && Conserved(s)
    ensures var (q, r) := TryDequeueSpec(capacity, s.q); Conserved(Served(s, q, r))
  {
    hide Shape, TryDequeueSpec, Items;
    DequeueServes(capacity, s.q);
    var (q, r) := TryDequeueSpec(capacity, s.q);
    var t := Served(s, q, r);
    forall p ensures AcceptedItems(t.calls, t.accepted, p) == DeliveredItems(t.delivered, p) + Items(t.q, p) {
      assert AcceptedItems(s.calls, s.accepted, p) == DeliveredItems(s.delivered, p) + Items(s.q, p);
      if r.Got? {
        DeliveredSnoc(s.delivered, Call(r.item, r.priority), p);
      }
    }
  }

  lemma ServedInv<T>(capacity: nat, s: System<T>)
    requires Inv(capacity, s)
    ensures var (q, r) := TryDequeueSpec(capacity, s.q); Inv(capacity, Served(s, q, r))
  {
    hide Shape, Accounted, Conserved, TryDequeueSpec, FullFor, Items;
    var (q, r) := TryDequeueSpec(capacity, s.q);
    DequeueShape(capacity, s.q);
    DequeueKeys(capacity, s.q);
    DequeueKeepsFull(capacity, s.q);
    DequeueServes(capacity, s.q);
    ServedConserved(capacity, s);
    AccountedAlike(s, Served(s, q, r));
  }

  lemma AccountedAlike<T>(s: System<T>, t: System<T>)
    requires Accounted(s) && t.calls == s.calls && t.producers == s.producers && t.results == s.results
        && t.accepted == s.accepted
    ensures Accounted(t)
  {
  }

  /** Lines 97-99: a new future replaces the one that has just been awaited. */
  lemma RenewedInv<T>(capacity: nat, s: System<T>)
    requires Inv(capacity, s) && s.consumer.Waiting?
    ensures Inv(capacity, s.(consumer := Free, q := s.q.(notEmpty := s.q.nextFuture, nextFuture := s.q.nextFuture + 1)))
    ensures Inv(capacity, s.(consumer := Free))
  {
    hide Accounted, Descending, Total;
    AccountedAlike(s, s.(consumer := Free));
    AccountedAlike(s, s.(consumer := Free, q := s.q.(notEmpty := s.q.nextFuture, nextFuture := s.q.nextFuture + 1)));
  }

  lemma ClosedInv<T>(capacity: nat, s: System<T>)
    requires Inv(capacity, s)
    ensures Inv(capacity, s.(q := Closed(s.q)))
  {
  }

  lemma StepInv<T>(capacity: nat, s: System<T>, step: Step<T>)
    requires Inv(capacity, s) && Enabled(s, step)
    ensures Inv(capacity, Next(capacity, s, step))
  {
    hide Inv, Serving, TryEnqueueSpec, TryDequeueSpec, Closed, Settled;
    match step
    case Enqueue(call) =>
      CallArrives(capacity, s, call);
      SettledInv(capacity, s.(calls := s.calls + [call]), |s.calls|);
    case Resume(id) =>
      ResumesServing(capacity, s, id);
      if s.q.closed {
        RefusedInv(capacity, s, id);
      } else {
        SettledInv(capacity, s, id);
      }
    case Dequeue =>
      ServedInv(capacity, s);
    case Wake =>
      RenewedInv(capacity, s);
      var q := if s.q.closed then s.q else s.q.(notEmpty := s.q.nextFuture, nextFuture := s.q.nextFuture + 1);
      ServedInv(capacity, s.(consumer := Free, q := q));
    case Close =>
      ClosedInv(capacity, s);
  }

  lemma ResumesServing<T>(capacity: nat, s: System<T>, id: nat)
    requires Inv(capacity, s) && id in s.producers
    ensures Serving(capacity, s, id)
  {
  }

  lemma {:induction false} ExecInv<T>(capacity: nat, steps: seq<Step<T>>)
    requires Exec(capacity, steps).Some?
    ensures Inv(capacity, Exec(capacity, steps).value)
  {
    hide Inv, Enabled, Next;
    if |steps| == 0 {
      StartInv<T>(capacity);
    } else {
      ExecInv(capacity, steps[..|steps| - 1]);
      StepInv(capacity, Exec(capacity, steps[..|steps| - 1]).value, steps[|steps| - 1]);
    }
  }

  lemma StartInv<T>(capacity: nat)
    ensures Inv<T>(capacity, Start())
  {
  }

  lemma ReachableInv<T(!new)>(capacity: nat, s: System<T>)
    requires Reachable(capacity, s)
    ensures Inv(capacity, s)
  {
    var steps: seq<Step<T>> :| Exec(capacity, steps) == Some(s);
    ExecInv(capacity, steps);
  }

  // ---------- nobody is woken over and over ----------

  /** Futures are numbered in order; on an open queue those that producers wait for are unresolved and belong
      to one priority each. */
  ghost predicate Futures<T>(q: Queue<T>) {
    && (forall f | f in q.resolved :: f < q.nextFuture) && q.notEmpty < q.nextFuture
    && (forall p | p in q.notFull :: q.notFull[p] < q.nextFuture)
    && (!q.closed ==> forall p | p in q.notFull :: q.notFull[p] !in q.resolved && q.notFull[p] != q.notEmpty)
    && (!q.closed ==> forall p, x | p in q.notFull && x in q.notFull && p != x :: q.notFull[p] != q.notFull[x])
  }

  lemma EnqueueFutures<T>(capacity: nat, q: Queue<T>, item: T, p: int)
    requires Futures(q)
    ensures var (q', r) := TryEnqueueSpec(capacity, q, item, p);
            Futures(q') && q'.closed == q.closed && (r.Blocked? && !q.closed ==> r.future !in q'.resolved)
  {
    hide Insert;
  }

  lemma DequeueFutures<T>(capacity: nat, q: Queue<T>)
    requires Futures(q) && Shape(capacity, q)
    ensures Futures(TryDequeueSpec(capacity, q).0) && TryDequeueSpec(capacity, q).0.closed == q.closed
  {
    SortedKnown(capacity, q);
    hide Without, Shape;
  }

  function Renewed<T>(q: Queue<T>): Queue<T> {
    if q.closed then q else q.(notEmpty := q.nextFuture, nextFuture := q.nextFuture + 1)
  }

  lemma RenewedFutures<T>(capacity: nat, q: Queue<T>)
    requires Futures(q) && Shape(capacity, q)
    ensures Futures(Renewed(q)) && Shape(capacity, Renewed(q))
    ensures !q.closed ==> Renewed(q).notEmpty !in Renewed(q).resolved
  {
    hide Descending, Total;
  }

  /** A producer that calls on an open queue, or is woken, and has to wait waits for an unresolved future. */
  ghost predicate RightlyBlocked<T>(s: System<T>, step: Step<T>, t: System<T>) {
    && (step.Enqueue? && |s.calls| in t.producers && !t.q.closed ==> t.producers[|s.calls|] !in t.q.resolved)
    && (step.Resume? && step.id in t.producers && !t.q.closed ==> t.producers[step.id] !in t.q.resolved)
    && (step.Wake? && t.consumer.Waiting? && !t.q.closed ==> t.consumer.future !in t.q.resolved)
  }

  lemma FuturesStep<T>(capacity: nat, s: System<T>, step: Step<T>)
    requires Inv(capacity, s) && Futures(s.q) && Enabled(s, step)
    ensures Futures(Next(capacity, s, step).q) && RightlyBlocked(s, step, Next(capacity, s, step))
  {
    FuturesNeed(capacity, s);
    hide Inv, Futures, Shape, TryEnqueueSpec, TryDequeueSpec, Next;
    match step
    case Enqueue(call) => FuturesEnqueue(capacity, s, call);
    case Resume(id) => FuturesResume(capacity, s, id);
    case Dequeue => FuturesDequeue(capacity, s);
    case Wake => FuturesWake(capacity, s);
    case Close => FuturesClose(capacity, s);
  }

  lemma FuturesEnqueue<T>(capacity: nat, s: System<T>, call: Call<T>)
    requires Futures(s.q) && Enabled(s, Enqueue(call))
    ensures var t := Next(capacity, s, Enqueue(call)); Futures(t.q) && RightlyBlocked(s, Enqueue(call), t)
  {
    EnqueueFutures(capacity, s.q, call.item, call.priority);
    NewCall(capacity, s, call);
    hide Futures, TryEnqueueSpec, Next;
  }

  lemma NewCall<T>(capacity: nat, s: System<T>, call: Call<T>)
    requires Enabled(s, Enqueue(call))
    ensures var t := Next(capacity, s, Enqueue(call));
            var (q, r) := TryEnqueueSpec(capacity, s.q, call.item, call.priority);
            t.q == q && (|s.calls| in t.producers ==> r.Blocked? && t.producers[|s.calls|] == r.future)
  {
    hide TryEnqueueSpec;
    var (q, r) := TryEnqueueSpec(capacity, s.q, call.item, call.priority);
    assert Next(capacity, s, Enqueue(call)) == Settled(s.(calls := s.calls + [call]), |s.calls|, q, r);
    match r
    case Accepted =>
    case Refused =>
    case Blocked(_) =>
  }

  lemma FuturesResume<T>(capacity: nat, s: System<T>, id: nat)
    requires Futures(s.q) && Enabled(s, Resume(id))
    ensures var t := Next(capacity, s, Resume(id)); Futures(t.q) && RightlyBlocked(s, Resume(id), t)
  {
    EnqueueFutures(capacity, s.q, s.calls[id].item, s.calls[id].priority);
    hide Futures, TryEnqueueSpec;
  }

  lemma FuturesDequeue<T>(capacity: nat, s: System<T>)
    requires Futures(s.q) && Shape(capacity, s.q) && Enabled(s, Step<T>.Dequeue)
    ensures var t := Next(capacity, s, Dequeue); Futures(t.q) && RightlyBlocked(s, Dequeue, t)
  {
    DequeueFutures(capacity, s.q);
    hide Futures, TryDequeueSpec, Shape;
  }

  lemma FuturesWake<T>(capacity: nat, s: System<T>)
    requires Futures(s.q) && Shape(capacity, s.q) && Enabled(s, Step<T>.Wake)
    ensures var t := Next(capacity, s, Wake); Futures(t.q) && RightlyBlocked(s, Wake, t)
  {
    RenewedFutures(capacity, s.q);
    hide Futures, TryDequeueSpec, Shape;
    DequeueFutures(capacity, Renewed(s.q));
    DequeueServes(capacity, Renewed(s.q));
  }

  lemma FuturesClose<T>(capacity: nat, s: System<T>)
    requires Futures(s.q)
    ensures var t := Next(capacity, s, Close); Futures(t.q) && RightlyBlocked(s, Close, t)
  {
    ClosedFutures(s.q);
    hide Futures;
  }

  lemma FuturesNeed<T>(capacity: nat, s: System<T>)
    requires Inv(capacity, s)
    ensures Shape(capacity, s.q) && forall id | id in s.producers :: id < |s.calls| && id !in s.results
  {
    hide Shape, Conserved;
  }

  lemma ClosedFutures<T>(q: Queue<T>)
    requires Futures(q)
    ensures Futures(Closed(q))
  {
  }

  lemma {:induction false} ExecFutures<T(!new)>(capacity: nat, steps: seq<Step<T>>)
    requires Exec(capacity, steps).Some?
    ensures Futures(Exec(capacity, steps).value.q)
  {
    hide Inv, Enabled, Next, Futures;
    if |steps| == 0 {
      StartFutures<T>();
    } else {
      var init := steps[..|steps| - 1];
      ExecFutures(capacity, init);
      ExecInv(capacity, init);
      FuturesStep(capacity, Exec(capacity, init).value, steps[|steps| - 1]);
    }
  }

  lemma StartFutures<T>()
    ensures Futures<T>(Empty())
  {
  }

  /** Nobody spins: whoever finds on an open queue that there is nothing to do for it, be it in its first
      attempt as a producer or after being woken, waits for a future that is still unresolved. */
  lemma NobodySpins<T(!new)>(capacity: nat, s: System<T>, step: Step<T>)
    requires Reachable(capacity, s) && Enabled(s, step)
    ensures RightlyBlocked(s, step, Next(capacity, s, step))
  {
    hide Inv, Enabled, Next, Futures, RightlyBlocked;
    var steps: seq<Step<T>> :| Exec(capacity, steps) == Some(s);
    ReachableInv(capacity, s);
    ExecFutures(capacity, steps);
    FuturesStep(capacity, s, step);
  }

  // ---------- closing ----------

  /** Closing wakes everybody who waits. */
  lemma CloseWakesAll<T(!new)>(capacity: nat, s: System<T>)
    requires Reachable(capacity, s)
    ensures var t := Next(capacity, s, Close);
            && t.q.closed && t.producers == s.producers && t.consumer == s.consumer
            && (forall id | id in s.producers :: s.producers[id] in t.q.resolved)
            && (s.consumer.Waiting? ==> s.consumer.future in t.q.resolved)
  {
    hide Shape, Conserved, Accounted;
    ReachableInv(capacity, s);
  }

  /** Of the first `n` calls none waits in vain, and the queue is closed. */
  ghost predicate NobodyLeft<T>(s: System<T>, n: nat) {
    && s.q.closed && n <= |s.calls|
    && (forall id | id in s.producers && id < n :: s.producers[id] in s.q.resolved)
  }

  lemma NobodyLeftStep<T>(capacity: nat, s: System<T>, step: Step<T>, n: nat)
    requires NobodyLeft(s, n) && Enabled(s, step)
    ensures NobodyLeft(Next(capacity, s, step), n)
  {
    match step
    case Enqueue(call) => EnqueueOnly(capacity, s.q, call.item, call.priority);
    case Resume(id) =>
    case Dequeue => DequeueOnly(capacity, s.q);
    case Wake => DequeueOnly(capacity, s.q);
    case Close =>
  }

  lemma EnqueueOnly<T>(capacity: nat, q: Queue<T>, item: T, p: int)
    ensures var q' := TryEnqueueSpec(capacity, q, item, p).0; q.resolved <= q'.resolved && q'.closed == q.closed
  {
    hide Insert;
  }

  lemma DequeueOnly<T>(capacity: nat, q: Queue<T>)
    ensures var q' := TryDequeueSpec(capacity, q).0; q.resolved <= q'.resolved && q'.closed == q.closed
  {
    hide Without;
  }

  lemma {:induction false} ExecFrom<T>(capacity: nat, steps: seq<Step<T>>, more: seq<Step<T>>)
    requires Exec(capacity, steps + more).Some?
    ensures Exec(capacity, steps).Some?
  {
    if more == [] {
      assert steps + more == steps;
    } else {
      assert (steps + more)[..|steps + more| - 1] == steps + more[..|more| - 1];
      ExecFrom(capacity, steps, more[..|more| - 1]);
    }
  }

  /** Who has called `enqueue` before the queue was closed does not wait for an unresolved future at any time
      after that. */
  lemma {:induction false} NoneWaitsBeyondClose<T(!new)>(capacity: nat, steps: seq<Step<T>>, more: seq<Step<T>>)
    requires Exec(capacity, steps + [Close] + more).Some?
    ensures Exec(capacity, steps).Some?
    ensures NobodyLeft(Exec(capacity, steps + [Close] + more).value, |Exec(capacity, steps).value.calls|)
  {
    hide Enabled, Next, NobodyLeft;
    var closed := steps + [Close];
    ExecFrom(capacity, closed, more);
    ExecFrom(capacity, steps, [Close]);
    var s := Exec(capacity, steps).value;
    if more == [] {
      assert closed + more == closed && closed[..|steps|] == steps;
      assert Reachable(capacity, s);
      ClosedLeavesNobody(capacity, s);
    } else {
      var n := |more| - 1;
      assert (closed + more)[..|closed + more| - 1] == closed + more[..n] && (closed + more)[|closed| + n] == more[n];
      NoneWaitsBeyondClose(capacity, steps, more[..n]);
      NobodyLeftStep(capacity, Exec(capacity, closed + more[..n]).value, more[n], |s.calls|);
    }
  }

  lemma ClosedLeavesNobody<T(!new)>(capacity: nat, s: System<T>)
    requires Reachable(capacity, s) && Enabled<T>(s, Close)
    ensures NobodyLeft(Next(capacity, s, Close), |s.calls|)
  {
    CloseWakesAll(capacity, s);
  }

  /** Who calls after that may still have to wait: a priority that is used for the first time gets a future
      that no `close` has resolved. */
  lemma LateCallWaits<T>(item: T, p: int) returns (s: System<T>)
    ensures Exec(1, [Close, Enqueue(Call(item, p)), Enqueue(Call(item, p))]) == Some(s)
    ensures s.q.closed && 1 in s.producers && s.producers[1] !in s.q.resolved
  {
    var a := Next<T>(1, Start(), Close);
    var b := Next(1, a, Enqueue(Call(item, p)));
    s := Next(1, b, Enqueue(Call(item, p)));
    var steps: seq<Step<T>> := [Close, Enqueue(Call(item, p)), Enqueue(Call(item, p))];
    assert steps[..2] == [Close, Enqueue(Call(item, p))] && steps[..2][..1] == [Close] && steps[..1][..0] == [];
    assert Exec<T>(1, []) == Some(Start());
    assert Exec(1, steps[..2][..1]) == Some(a);
    assert Exec(1, steps[..2]) == Some(b);
  }

  // ---------- what that means ----------

  /** No wake-up is lost: whoever waits for an unresolved future waits for the one that the next change
      in its favour resolves, and there is nothing to do for it now. */
  lemma NoLostWakeups<T(!new)>(capacity: nat, s: System<T>)
    requires Reachable(capacity, s)
    ensures s.consumer.Waiting? && s.consumer.future !in s.q.resolved ==>
              s.consumer.future == s.q.notEmpty && s.q.total == 0 && !s.q.closed && forall p :: Items(s.q, p) == []
    ensures forall id | id in s.producers && s.producers[id] !in s.q.resolved ::
              id < |s.calls| && FullFor(capacity, s.q, s.calls[id].priority, s.producers[id])
  {
    hide Descending, Conserved, Accounted;
    ReachableInv(capacity, s);
    TotalZero(s.q.queues, s.q.sorted);
    if s.consumer.Waiting? && s.consumer.future !in s.q.resolved {
      AllEmpty(capacity, s.q);
    }
  }

  /** Producers and consumer never wait for each other. */
  lemma NeverBothStuck<T(!new)>(capacity: nat, s: System<T>, id: nat)
    requires capacity > 0 && Reachable(capacity, s)
    requires id in s.producers && s.consumer.Waiting?
    ensures s.producers[id] in s.q.resolved || s.consumer.future in s.q.resolved
  {
    NoLostWakeups(capacity, s);
    if s.producers[id] !in s.q.resolved {
      FullIsNotEmpty(capacity, s.q, s.calls[id].priority, s.producers[id]);
    }
  }

  lemma FullIsNotEmpty<T>(capacity: nat, q: Queue<T>, p: int, future: nat)
    requires capacity > 0 && FullFor(capacity, q, p, future)
    ensures Items(q, p) != []
  {
  }

  /** Nothing is lost, repeated or reordered within its priority, and a call that returned false left
      nothing behind. */
  lemma QueueConservation<T(!new)>(capacity: nat, s: System<T>)
    requires Reachable(capacity, s)
    ensures Conserved(s) && Accounted(s)
    ensures s.consumer.Free? && Next(capacity, s, Dequeue).consumer.Over? ==>
              forall p :: DeliveredItems(s.delivered, p) == AcceptedItems(s.calls, s.accepted, p)
  {
    ReachableInv(capacity, s);
    hide Accounted, TryDequeueSpec, Items;
    DequeueServes(capacity, s.q);
  }
}
