/** The bounded priority queue between the loops: packages/core/src/utils/BoundedPriorityQueue.ts. A method
    is one stretch of the original between two `await`s; a future is its number, resolved or not. */
module BoundedQueue {

  // ---------- the state and one function per stretch ----------

  datatype Queue<+T> = Queue(
    queues: map<int, seq<T>>, notFull: map<int, nat>, notEmpty: nat, sorted: seq<int>,
    total: int, closed: bool, resolved: set<nat>, nextFuture: nat)

  function Empty<T>(): Queue<T> {
    Queue(map[], map[], 0, [], 0, false, {}, 1)
  }

  /** What a call of `enqueue` comes to: it returns true or false, or awaits a future. */
  datatype Enqueued = Accepted | Refused | Blocked(future: nat)

  datatype Dequeued<+T> = Got(priority: int, item: T) | Ended | Awaits(future: nat)

  /** Descending sort of the priorities and a new one. */
  function Insert(ps: seq<int>, p: int): seq<int> {
    if |ps| == 0 || p > ps[0] then [p] + ps else [ps[0]] + Insert(ps[1..], p)
  }

  function Without(ps: seq<int>, p: int): seq<int> {
    if |ps| == 0 then [] else (if ps[0] == p then [] else [ps[0]]) + Without(ps[1..], p)
  }

  function Opened<T>(q: Queue<T>, p: int): Queue<T> {
    if p in q.queues then q
    else q.(queues := q.queues[p := []], notFull := q.notFull[p := q.nextFuture],
            sorted := Insert(q.sorted, p), nextFuture := q.nextFuture + 1)
  }

  function Pushed<T>(q: Queue<T>, item: T, p: int): Queue<T>
    requires p in q.queues
  {
    q.(queues := q.queues[p := q.queues[p] + [item]], total := q.total + 1,
       resolved := if q.total + 1 == 1 then q.resolved + {q.notEmpty} else q.resolved)
  }

  function TryEnqueueSpec<T>(capacity: nat, q: Queue<T>, item: T, p: int): (Queue<T>, Enqueued) {
    var o := Opened(q, p);
    if |o.queues[p]| < capacity then (Pushed(o, item, p), Accepted)
    else if p in o.notFull then (o, Blocked(o.notFull[p]))
    else if o.closed then (o, Refused)
    else (o.(notFull := o.notFull[p := o.nextFuture], nextFuture := o.nextFuture + 1), Blocked(o.nextFuture))
  }

  /** Once the future a call awaited is resolved. */
  function ResumeEnqueueSpec<T>(capacity: nat, q: Queue<T>, item: T, p: int): (Queue<T>, Enqueued) {
    if q.closed then (q, Refused) else TryEnqueueSpec(capacity, q, item, p)
  }

  function Size<T>(queues: map<int, seq<T>>, p: int): nat {
    if p in queues then |queues[p]| else 0
  }

  function FirstNonEmpty<T>(queues: map<int, seq<T>>, ps: seq<int>): (i: nat)
    ensures i <= |ps| && (forall j | 0 <= j < i :: Size(queues, ps[j]) == 0)
    ensures i < |ps| ==> Size(queues, ps[i]) > 0
  {
    if |ps| == 0 || Size(queues, ps[0]) > 0 then 0 else 1 + FirstNonEmpty(queues, ps[1..])
  }

  /** The head of queue `p` leaves. */
  function Shifted<T>(capacity: nat, q: Queue<T>, p: int): Queue<T>
    requires p in q.queues && |q.queues[p]| > 0
  {
    var rest := q.queues[p][1..];
    var wake := |rest| + 1 == capacity && p in q.notFull;
    var drop := p > 0 && |rest| == 0;
    var queues := q.queues[p := rest];
    var notFull := if wake then q.notFull - {p} else q.notFull;
    q.(queues := if drop then queues - {p} else queues,
       total := q.total - 1,
       resolved := if wake then q.resolved + {q.notFull[p]} else q.resolved,
       notFull := if drop then notFull - {p} else notFull,
       sorted := if drop then Without(q.sorted, p) else q.sorted)
  }

  function TryDequeueSpec<T>(capacity: nat, q: Queue<T>): (Queue<T>, Dequeued<T>)
  {
    if q.closed && q.total == 0 then (q, Ended)
    else
      var i := FirstNonEmpty(q.queues, q.sorted);
      if i < |q.sorted| then (Shifted(capacity, q, q.sorted[i]), Got(q.sorted[i], q.queues[q.sorted[i]][0]))
      else (q, Awaits(q.notEmpty))
  }

  function ResumeDequeueSpec<T>(capacity: nat, q: Queue<T>): (Queue<T>, Dequeued<T>)
  {
    TryDequeueSpec(capacity, if q.closed then q else q.(notEmpty := q.nextFuture, nextFuture := q.nextFuture + 1))
  }

  function Closed<T>(q: Queue<T>): Queue<T> {
    q.(closed := true, resolved := q.resolved + {q.notEmpty} + set p | p in q.notFull :: q.notFull[p])
  }

  // ---------- the queue ----------

  class BoundedPriorityQueue<T> {
    const capacity: nat
    var queues: map<int, seq<T>>
    var whenNotEmpty: nat
    var whenNotFullList: map<int, nat>
    var sortedPriorities: seq<int>
    var totalCount: int
    var closed: bool
    var resolved: set<nat>
    var nextFuture: nat

    constructor (capacity: nat)
      ensures this.capacity == capacity && View() == Empty() && Valid()
    {
      this.capacity := capacity;
      queues, whenNotFullList, sortedPriorities, totalCount, closed := map[], map[], [], 0, false;
      whenNotEmpty, nextFuture, resolved := 0, 1, {};
    }

    function View(): Queue<T>
      reads this
    {
      Queue(queues, whenNotFullList, whenNotEmpty, sortedPriorities, totalCount, closed, resolved, nextFuture)
    }

    ghost predicate Valid()
      reads this
    {
      Shape(capacity, View())
    }

    method NewFuture() returns (f: nat)
      modifies this`nextFuture
      ensures f == old(nextFuture) && nextFuture == f + 1
    {
      f := nextFuture;
      nextFuture := nextFuture + 1;
    }

    /** Lines 39-46. */
    method Open(priority: int)
      modifies this
      ensures View() == Opened(old(View()), priority) && priority in queues
    {
      hide Insert;
      if priority !in queues {
        queues := queues[priority := []];
        var future := NewFuture();
        whenNotFullList := whenNotFullList[priority := future];
        sortedPriorities := Insert(sortedPriorities, priority);
      }
    }

    /** Lines 39-67, up to the `await` or the result. */
    method TryEnqueue(item: T, priority: int) returns (r: Enqueued)
      requires Valid()
      modifies this
      ensures Valid() && (View(), r) == TryEnqueueSpec(capacity, old(View()), item, priority)
    {
      hide Shape, Insert, Opened;
      EnqueueShape(capacity, View(), item, priority);
      Open(priority);
      if |queues[priority]| < capacity {
        queues := queues[priority := queues[priority] + [item]];
        totalCount := totalCount + 1;
        if totalCount == 1 {
          resolved := resolved + {whenNotEmpty};
        }
        return Accepted;
      }
      if priority in whenNotFullList {
        return Blocked(whenNotFullList[priority]);
      }
      if closed {
        return Refused;
      }
      var future := NewFuture();
      whenNotFullList := whenNotFullList[priority := future];
      return Blocked(future);
    }

    /** Lines 60-67, after the `await`. */
    method ResumeEnqueue(item: T, priority: int) returns (r: Enqueued)
      requires Valid()
      modifies this
      ensures Valid() && (View(), r) == ResumeEnqueueSpec(capacity, old(View()), item, priority)
    {
      if closed {
        return Refused;
      }
      r := TryEnqueue(item, priority);
    }

    /** Lines 79-92. */
    method TakeFrom(priority: int) returns (item: T)
      requires priority in queues && |queues[priority]| > 0
      modifies this
      ensures item == old(queues)[priority][0] && View() == Shifted(capacity, old(View()), priority)
    {
      hide Without;
      item := queues[priority][0];
      queues := queues[priority := queues[priority][1..]];
      totalCount := totalCount - 1;
      var left := |queues[priority]|;
      if left + 1 == capacity && priority in whenNotFullList {
        resolved := resolved + {whenNotFullList[priority]};
        whenNotFullList := whenNotFullList - {priority};
      }
      if priority > 0 && left == 0 {
        queues := queues - {priority};
        whenNotFullList := whenNotFullList - {priority};
        sortedPriorities := Without(sortedPriorities, priority);
      }
    }

    /** Lines 71-96, up to the `await` or the result. */
    method TryDequeue() returns (r: Dequeued<T>)
      requires Valid()
      modifies this
      ensures Valid() && (View(), r) == TryDequeueSpec(capacity, old(View()))
    {
      SortedKnown(capacity, View());
      hide Shape, Shifted;
      DequeueShape(capacity, View());
      if closed && totalCount == 0 {
        return Ended;
      }
      var i := 0;
      while i < |sortedPriorities|
        invariant i <= FirstNonEmpty(queues, sortedPriorities) && View() == old(View())
      {
        var priority := sortedPriorities[i];
        if |queues[priority]| > 0 {
          var item := TakeFrom(priority);
          return Got(priority, item);
        }
        i := i + 1;
      }
      return Awaits(whenNotEmpty);
    }

    /** Lines 97-101, after the `await`. */
    method ResumeDequeue() returns (r: Dequeued<T>)
      requires Valid()
      modifies this
      ensures Valid() && (View(), r) == ResumeDequeueSpec(capacity, old(View()))
    {
      if !closed {
        whenNotEmpty := NewFuture();
      }
      r := TryDequeue();
    }

    /** Lines 108-118. */
    method Close()
      requires Valid()
      modifies this
      ensures Valid() && View() == Closed(old(View()))
    {
      closed := true;
      resolved := resolved + {whenNotEmpty};
      var rest := whenNotFullList.Keys;
      while |rest| > 0
        invariant rest <= whenNotFullList.Keys
        invariant resolved == old(resolved) + {whenNotEmpty} + set p | p in whenNotFullList && p !in rest ::
            whenNotFullList[p]
        invariant View() == old(View()).(closed := true, resolved := resolved)
        decreases rest
      {
        NoMembers(rest);
        var p: int :| p in rest;
        resolved := resolved + {whenNotFullList[p]};
        rest := rest - {p};
      }
      assert rest == {};
      assert (set p | p in whenNotFullList && p !in rest :: whenNotFullList[p])
          == (set p | p in whenNotFullList :: whenNotFullList[p]);
    }
  }

  // ---------- what every state looks like ----------

  ghost predicate Descending(ps: seq<int>) {
    forall i, j | 0 <= i < j < |ps| :: ps[i] > ps[j]
  }

  function Total<T>(queues: map<int, seq<T>>, ps: seq<int>): nat {
    if |ps| == 0 then 0 else Size(queues, ps[0]) + Total(queues, ps[1..])
  }

  /** The priorities are those of the queues, highest first; no queue is over its capacity; the count is
      the number of stored items. */
  ghost predicate Shape<T>(capacity: nat, q: Queue<T>) {
    && Descending(q.sorted) && (forall p :: p in q.queues <==> p in q.sorted)
    && (forall p | p in q.queues :: |q.queues[p]| <= capacity)
    && q.total == Total(q.queues, q.sorted)
  }

  lemma NoMembers(s: set<int>)
    ensures (forall p: int :: p !in s) ==> |s| == 0
  {
    if forall p: int :: p !in s {
      assert s == {};
    }
  }

  lemma SortedKnown<T>(capacity: nat, q: Queue<T>)
    requires Shape(capacity, q)
    ensures forall i | 0 <= i < |q.sorted| :: q.sorted[i] in q.queues
  {
  }

  lemma {:induction false} InsertDescending(ps: seq<int>, p: int)
    requires Descending(ps) && p !in ps
    ensures Descending(Insert(ps, p)) && forall x :: x in Insert(ps, p) <==> x in ps || x == p
  {
    if |ps| > 0 && p <= ps[0] {
      InsertDescending(ps[1..], p);
      var r := Insert(ps[1..], p);
      assert ps == [ps[0]] + ps[1..];
      forall i | 0 <= i < |r| ensures r[i] < ps[0] {
        assert r[i] in r;
      }
    }
  }

  lemma {:induction false} WithoutMembers(ps: seq<int>, p: int, x: int)
    ensures x in Without(ps, p) <==> x in ps && x != p
  {
    if |ps| > 0 {
      WithoutMembers(ps[1..], p, x);
      assert ps == [ps[0]] + ps[1..];
    }
  }

  lemma {:induction false} WithoutDescending(ps: seq<int>, p: int)
    requires Descending(ps)
    ensures Descending(Without(ps, p)) && forall x :: x in Without(ps, p) <==> x in ps && x != p
  {
    forall x ensures x in Without(ps, p) <==> x in ps && x != p {
      WithoutMembers(ps, p, x);
    }
    if |ps| > 0 {
      WithoutDescending(ps[1..], p);
      var r := Without(ps[1..], p);
      forall i | 0 <= i < |r| ensures r[i] < ps[0] {
        assert r[i] in r;
      }
    }
  }

  lemma {:induction false} TotalSame<T>(queues: map<int, seq<T>>, other: map<int, seq<T>>, ps: seq<int>)
    requires forall i | 0 <= i < |ps| :: Size(queues, ps[i]) == Size(other, ps[i])
    ensures Total(queues, ps) == Total(other, ps)
  {
    if |ps| > 0 {
      TotalSame(queues, other, ps[1..]);
    }
  }

  lemma {:induction false} TotalInsert<T>(queues: map<int, seq<T>>, ps: seq<int>, p: int)
    ensures Total(queues, Insert(ps, p)) == Total(queues, ps) + Size(queues, p)
  {
    if |ps| > 0 && p <= ps[0] {
      assert Insert(ps, p)[1..] == Insert(ps[1..], p);
      TotalInsert(queues, ps[1..], p);
    } else {
      assert Insert(ps, p)[1..] == ps;
    }
  }

  /** One queue changes its length. */
  lemma {:induction false} TotalUpdate<T>(queues: map<int, seq<T>>, ps: seq<int>, p: int, s: seq<T>)
    requires Descending(ps) && p in ps
    ensures Total(queues[p := s], ps) == Total(queues, ps) - Size(queues, p) + |s|
  {
    if ps[0] == p {
      TotalSame(queues, queues[p := s], ps[1..]);
    } else {
      TotalUpdate(queues, ps[1..], p, s);
    }
  }

  /** An empty queue goes. */
  lemma {:induction false} TotalWithout<T>(queues: map<int, seq<T>>, ps: seq<int>, p: int)
    requires Descending(ps) && p in ps
    ensures Total(queues - {p}, Without(ps, p)) == Total(queues, ps) - Size(queues, p)
  {
    hide Size;
    forall x | x != p ensures Size(queues - {p}, x) == Size(queues, x) {
      SizeOfOthers(queues, p, x);
    }
    if ps[0] == p {
      NothingWithout(ps[1..], p);
      assert Without(ps, p) == ps[1..];
      TotalSame(queues, queues - {p}, ps[1..]);
    } else {
      assert p in ps[1..];
      assert Without(ps, p)[1..] == Without(ps[1..], p);
      TotalWithout(queues, ps[1..], p);
    }
  }

  lemma SizeOfOthers<T>(queues: map<int, seq<T>>, p: int, x: int)
    requires x != p
    ensures Size(queues - {p}, x) == Size(queues, x)
  {
  }

  lemma {:induction false} NothingWithout(ps: seq<int>, p: int)
    requires forall i | 0 <= i < |ps| :: ps[i] != p
    ensures Without(ps, p) == ps
  {
    if |ps| > 0 {
      NothingWithout(ps[1..], p);
    }
  }

  lemma OpenedShape<T>(capacity: nat, q: Queue<T>, p: int)
    requires Shape(capacity, q)
    ensures Shape(capacity, Opened(q, p)) && Opened(q, p).total == q.total
  {
    if p !in q.queues {
      InsertDescending(q.sorted, p);
      TotalSame(q.queues, q.queues[p := []], q.sorted);
      TotalInsert(q.queues[p := []], q.sorted, p);
    }
  }

  lemma OpenedHas<T>(q: Queue<T>, p: int)
    ensures p in Opened(q, p).queues
  {
  }

  lemma EnqueueShape<T>(capacity: nat, q: Queue<T>, item: T, p: int)
    requires Shape(capacity, q)
    ensures Shape(capacity, TryEnqueueSpec(capacity, q, item, p).0)
  {
    hide Descending, Opened;
    OpenedShape(capacity, q, p);
    OpenedHas(q, p);
    var o := Opened(q, p);
    TotalUpdate(o.queues, o.sorted, p, o.queues[p] + [item]);
  }

  lemma DroppedShape<T>(capacity: nat, q: Queue<T>, p: int)
    requires Shape(capacity, q) && p in q.queues && |q.queues[p]| == 1
    ensures Shape(capacity, q.(queues := q.queues - {p}, total := q.total - 1, sorted := Without(q.sorted, p)))
  {
    hide Descending;
    WithoutDescending(q.sorted, p);
    TotalWithout(q.queues, q.sorted, p);
  }

  lemma ShortenedShape<T>(capacity: nat, q: Queue<T>, p: int)
    requires Shape(capacity, q) && p in q.queues && |q.queues[p]| > 0
    ensures Shape(capacity, q.(queues := q.queues[p := q.queues[p][1..]], total := q.total - 1))
  {
    hide Descending;
    TotalUpdate(q.queues, q.sorted, p, q.queues[p][1..]);
  }

  lemma ShiftedShape<T>(capacity: nat, q: Queue<T>, p: int)
    requires Shape(capacity, q) && p in q.queues && |q.queues[p]| > 0
    ensures Shape(capacity, Shifted(capacity, q, p))
  {
    hide Descending, Total;
    var rest := q.queues[p][1..];
    if p > 0 && |rest| == 0 {
      assert q.queues[p := rest] - {p} == q.queues - {p};
      DroppedShape(capacity, q, p);
    } else {
      ShortenedShape(capacity, q, p);
    }
  }

  lemma DequeueShape<T>(capacity: nat, q: Queue<T>)
    requires Shape(capacity, q)
    ensures Shape(capacity, TryDequeueSpec(capacity, q).0)
  {
    hide Descending, Shifted;
    var i := FirstNonEmpty(q.queues, q.sorted);
    if i < |q.sorted| {
      ShiftedShape(capacity, q, q.sorted[i]);
    }
  }

  lemma {:induction false} TotalZero<T>(queues: map<int, seq<T>>, ps: seq<int>)
    ensures Total(queues, ps) == 0 <==> forall i | 0 <= i < |ps| :: Size(queues, ps[i]) == 0
  {
    if |ps| > 0 {
      TotalZero(queues, ps[1..]);
      if forall i | 0 <= i < |ps| - 1 :: Size(queues, ps[1..][i]) == 0 {
        assert forall i | 1 <= i < |ps| :: ps[i] == ps[1..][i - 1];
      }
    }
  }
}
