/** The rendezvous between one sender and one reader: packages/core/src/utils/AsyncPipe.ts. Every call
    returns a promise, named by the number of the call. */
module AsyncPipes {
  import opened Wrappers

  datatype Pending<+A> = Pending(id: nat, value: A)

  /** `waiting` is the promise of an unanswered `next` (`_resolve` and `_reject`, which are always set and
      reset together), `sent` that of an unread `send` with its value, `thrown` that of a `throw` whose
      error is still to be read. */
  datatype Pipe<+T, +X> = Pipe(closed: bool, waiting: Option<nat>, sent: Option<Pending<T>>, thrown: Option<Pending<X>>)

  /** How a promise is settled. */
  datatype Settled<+T, +X> = Fulfilled | Refused | Item(value: T) | Done | DoneWith(error: X) | Failed(error: X)

  type Settlements<+T, +X> = map<nat, Settled<T, X>>

  function SendSpec<T, X>(p: Pipe<T, X>, id: nat, value: T): (Pipe<T, X>, Settlements<T, X>) {
    if p.closed || p.thrown.Some? || p.sent.Some? then (p, map[id := Refused])
    else if p.waiting.Some? then (p.(waiting := None), map[p.waiting.value := Item(value), id := Fulfilled])
    else (p.(sent := Some(Pending(id, value))), map[])
  }

  function ThrowSpec<T, X>(p: Pipe<T, X>, id: nat, e: X): (Pipe<T, X>, Settlements<T, X>) {
    if p.closed then (p, map[id := DoneWith(e)])
    else if p.waiting.Some? then (p.(waiting := None, closed := true),
        map[p.waiting.value := Failed(e), id := DoneWith(e)])
    else (p.(thrown := Some(Pending(id, e))), map[])
  }

  function CloseSpec<T, X>(p: Pipe<T, X>, id: nat): (Pipe<T, X>, Settlements<T, X>) {
    var none: Settlements<T, X> := map[];
    var s1 := if p.waiting.Some? then none[p.waiting.value := Done] else none;
    var s2 := if p.sent.Some? then s1[p.sent.value.id := Fulfilled] else s1;
    var s3 := if p.thrown.Some? then s2[p.thrown.value.id := Done] else s2;
    (Pipe(true, None, None, None), s3[id := Fulfilled])
  }

  function NextSpec<T, X>(p: Pipe<T, X>, id: nat): (Pipe<T, X>, Settlements<T, X>) {
    if p.closed then (p, map[id := Done])
    else if p.sent.Some? then (p.(sent := None), map[p.sent.value.id := Fulfilled, id := Item(p.sent.value.value)])
    else if p.thrown.Some? then
      var e := p.thrown.value.value;
      (Pipe(true, p.waiting, None, None), map[p.thrown.value.id := DoneWith(e), id := Failed(e)])
    else (p.(waiting := Some(id)), map[])
  }

  class AsyncPipe<T, X> {
    var closed: bool
    var waiting: Option<nat>
    var sent: Option<nat>
    var thrown: Option<nat>
    var value: Option<T>
    var err: Option<X>

    ghost predicate Valid()
      reads this
    {
      (sent.Some? ==> value.Some?) && (thrown.Some? ==> err.Some?)
    }

    function View(): Pipe<T, X>
      requires Valid()
      reads this
    {
      Pipe(closed, waiting,
           if sent.Some? then Some(Pending(sent.value, value.value)) else None,
           if thrown.Some? then Some(Pending(thrown.value, err.value)) else None)
    }

    constructor ()
      ensures Valid() && View() == Pipe(false, None, None, None)
    {
      closed, waiting, sent, thrown, value, err := false, None, None, None, None, None;
    }

    /** Lines 32-49. */
    method Send(id: nat, v: T) returns (r: Settlements<T, X>)
      requires Valid()
      modifies this
      ensures Valid() && (View(), r) == SendSpec(old(View()), id, v)
    {
      if closed || thrown.Some? {
        r := map[id := Refused];
      } else if sent.Some? {
        r := map[id := Refused];
      } else if waiting.Some? {
        var cb := waiting.value;
        waiting := None;
        r := map[cb := Item(v), id := Fulfilled];
      } else {
        value := Some(v);
        sent := Some(id);
        r := map[];
      }
    }

    /** Lines 51-67. */
    method Throw(id: nat, e: X) returns (r: Settlements<T, X>)
      requires Valid()
      modifies this
      ensures Valid() && (View(), r) == ThrowSpec(old(View()), id, e)
    {
      if closed {
        r := map[id := DoneWith(e)];
      } else if waiting.Some? {
        var cb := waiting.value;
        waiting := None;
        closed := true;
        r := map[cb := Failed(e), id := DoneWith(e)];
      } else {
        err := Some(e);
        thrown := Some(id);
        r := map[];
      }
    }

    /** Lines 69-93. */
    method Close(id: nat) returns (r: Settlements<T, X>)
      requires Valid()
      modifies this
      ensures Valid() && (View(), r) == CloseSpec(old(View()), id)
    {
      closed := true;
      r := map[];
      if waiting.Some? {
        r := r[waiting.value := Done];
        waiting := None;
      }
      if sent.Some? {
        r := r[sent.value := Fulfilled];
        sent := None;
        value := None;
      }
      if thrown.Some? {
        r := r[thrown.value := Done];
        thrown := None;
        err := None;
      }
      r := r[id := Fulfilled];
    }

    /** Lines 103-129. */
    method Next(id: nat) returns (r: Settlements<T, X>)
      requires Valid()
      modifies this
      ensures Valid() && (View(), r) == NextSpec(old(View()), id)
    {
      if closed {
        r := map[id := Done];
      } else if sent.Some? {
        r := map[sent.value := Fulfilled, id := Item(value.value)];
        sent := None;
        value := None;
      } else if thrown.Some? {
        r := map[thrown.value := DoneWith(err.value), id := Failed(err.value)];
        value := None;
        err := None;
        sent := None;
        thrown := None;
        closed := true;
      } else {
        waiting := Some(id);
        r := map[];
      }
    }
  }

  // ---------- runs ----------

  datatype Call<+T, +X> = Send(value: T) | Throw(error: X) | Close | Next

  /** A run: `settled` says how the promises were settled; `accepted` are the values of the sends that
      were not refused, `delivered` those that a `next` was answered with, in order; `dropped` is what
      was unread on closing. */
  datatype Run<+T, +X> = Run(
    pipe: Pipe<T, X>, calls: seq<Call<T, X>>, settled: Settlements<T, X>,
    accepted: seq<T>, delivered: seq<T>, dropped: seq<T>)

  function Start<T, X>(): Run<T, X> {
    Run(Pipe(false, None, None, None), [], map[], [], [], [])
  }

  function Answer<T, X>(p: Pipe<T, X>, id: nat, c: Call<T, X>): (Pipe<T, X>, Settlements<T, X>) {
    match c
    case Send(v) => SendSpec(p, id, v)
    case Throw(e) => ThrowSpec(p, id, e)
    case Close => CloseSpec(p, id)
    case Next => NextSpec(p, id)
  }

  /** The value that answers a `next` in this step. */
  function Handed<T, X>(p: Pipe<T, X>, c: Call<T, X>): seq<T> {
    match c
    case Send(v) => if !p.closed && p.thrown.None? && p.sent.None? && p.waiting.Some? then [v] else []
    case Next => if !p.closed && p.sent.Some? then [p.sent.value.value] else []
    case _ => []
  }

  function Step<T, X>(r: Run<T, X>, c: Call<T, X>): Run<T, X> {
    var id := |r.calls|;
    var (p, s) := Answer(r.pipe, id, c);
    Run(p, r.calls + [c], r.settled + s,
        if c.Send? && !(id in s && s[id].Refused?) then r.accepted + [c.value] else r.accepted,
        r.delivered + Handed(r.pipe, c),
        if c.Close? && r.pipe.sent.Some? then r.dropped + [r.pipe.sent.value.value] else r.dropped)
  }

  /** The reader calls `next` only after its previous call has been answered. */
  predicate Proper<T, X>(r: Run<T, X>, c: Call<T, X>) {
    c.Next? ==> r.pipe.waiting.None?
  }

  function Exec<T, X>(calls: seq<Call<T, X>>): Option<Run<T, X>> {
    if |calls| == 0 then Some(Start())
    else
      var r := Exec(calls[..|calls| - 1]);
      if r.Some? && Proper(r.value, calls[|calls| - 1]) then Some(Step(r.value, calls[|calls| - 1])) else None
  }

  function PendingValue<T, X>(p: Pipe<T, X>): seq<T> {
    if p.sent.Some? then [p.sent.value.value] else []
  }

  /** The promises of the pipe itself that are still open. */
  predicate Open<T, X>(p: Pipe<T, X>, id: nat) {
    p.waiting == Some(id) || (p.sent.Some? && p.sent.value.id == id) || (p.thrown.Some? && p.thrown.value.id == id)
  }

  ghost predicate Inv<T, X>(r: Run<T, X>) {
    && Rendezvous(r.pipe)
    && r.accepted == r.delivered + PendingValue(r.pipe) + r.dropped
    && |r.dropped| <= 1 && (r.dropped != [] ==> r.pipe.closed)
  }

  /** A pending send and a pending `next` never coexist, nor do a pending error and a pending `next`; a
      closed pipe has nothing pending. */
  predicate Rendezvous<T, X>(p: Pipe<T, X>) {
    && !(p.sent.Some? && p.waiting.Some?) && !(p.thrown.Some? && p.waiting.Some?)
    && (p.closed ==> p.waiting.None? && p.sent.None? && p.thrown.None?)
  }

  lemma StepInv<T, X>(r: Run<T, X>, c: Call<T, X>)
    requires Inv(r) && Proper(r, c)
    ensures Inv(Step(r, c))
  {
  }

  /** At every moment: what was accepted is what was delivered, in order and once each, followed by the
      one value that is still unread, or by the one that closing has dropped. */
  lemma {:induction false} PipeInvariant<T, X>(calls: seq<Call<T, X>>)
    requires Exec(calls).Some?
    ensures Inv(Exec(calls).value)
  {
    if |calls| > 0 {
      PipeInvariant(calls[..|calls| - 1]);
      StepInv(Exec(calls[..|calls| - 1]).value, calls[|calls| - 1]);
    }
  }

  lemma FailingStep<T, X>(r: Run<T, X>, c: Call<T, X>, id: nat)
    requires Inv(r) && Proper(r, c)
    requires var r' := Step(r, c);
             id in r'.settled && r'.settled[id].Failed? && (id in r.settled ==> !r.settled[id].Failed?)
    ensures var r' := Step(r, c);
            r'.pipe.closed && r'.delivered == r'.accepted && r'.dropped == []
  {
  }

  /** When the reader is handed an error, it has been handed every accepted value before, and the pipe is
      closed. */
  lemma ErrorComesLast<T, X>(calls: seq<Call<T, X>>, c: Call<T, X>, id: nat)
    requires Exec(calls + [c]).Some?
    requires var r := Exec(calls + [c]).value; id in r.settled && r.settled[id].Failed?
    requires Exec(calls).Some? && (id in Exec(calls).value.settled ==> !Exec(calls).value.settled[id].Failed?)
    ensures var r := Exec(calls + [c]).value;
            r.pipe.closed && r.delivered == r.accepted && r.dropped == []
  {
    hide Step, Inv;
    assert (calls + [c])[..|calls|] == calls;
    PipeInvariant(calls);
    FailingStep(Exec(calls).value, c, id);
  }

  lemma StepCalls<T, X>(r: Run<T, X>, c: Call<T, X>)
    ensures Step(r, c).calls == r.calls + [c]
  {
  }

  lemma {:induction false} ExecCalls<T, X>(calls: seq<Call<T, X>>)
    requires Exec(calls).Some?
    ensures Exec(calls).value.calls == calls
  {
    hide Step;
    if |calls| > 0 {
      ExecCalls(calls[..|calls| - 1]);
      StepCalls(Exec(calls[..|calls| - 1]).value, calls[|calls| - 1]);
    }
  }

  lemma ClosedStep<T, X>(r: Run<T, X>, c: Call<T, X>)
    requires Inv(r) && r.pipe.closed
    ensures var r' := Step(r, c);
            && r'.delivered == r.delivered && r'.accepted == r.accepted && r'.pipe == r.pipe
            && |r.calls| in r'.settled && !r'.settled[|r.calls|].Item?
  {
  }

  /** Nothing is delivered or accepted once the pipe is closed, and every call is answered at once. */
  lemma NothingAfterClose<T, X>(calls: seq<Call<T, X>>, c: Call<T, X>)
    requires Exec(calls + [c]).Some? && Exec(calls).Some? && Exec(calls).value.pipe.closed
    ensures var r, r' := Exec(calls).value, Exec(calls + [c]).value;
            && r'.delivered == r.delivered && r'.accepted == r.accepted && r'.pipe == r.pipe
            && |calls| in r'.settled && !r'.settled[|calls|].Item?
  {
    hide Step, Inv;
    assert (calls + [c])[..|calls|] == calls;
    PipeInvariant(calls);
    ExecCalls(calls);
    ClosedStep(Exec(calls).value, c);
  }

  // ---------- which promises are settled ----------

  predicate DistinctIds<T, X>(p: Pipe<T, X>) {
    p.sent.Some? && p.thrown.Some? ==> p.sent.value.id != p.thrown.value.id
  }

  /** The error of `throw` number `id` is still to be read. */
  predicate ErrorPending<T, X>(p: Pipe<T, X>, id: nat) {
    p.thrown.Some? && p.thrown.value.id == id
  }

  /** A call settles its own promise or open ones of the pipe; an open one stays open unless it is settled
      or is a `throw` overtaken by this one. */
  lemma AnswerSettles<T, X>(p: Pipe<T, X>, id: nat, c: Call<T, X>)
    requires Rendezvous(p) && DistinctIds(p) && !Open(p, id) && (c.Next? ==> p.waiting.None?)
    ensures var (p', s) := Answer(p, id, c);
            && DistinctIds(p')
            && (forall x | x in s :: x == id || Open(p, x))
            && (forall x: nat | Open(p', x) :: x !in s && (x == id || Open(p, x)))
            && (forall x: nat | Open(p, x) ::
                  if c.Throw? && ErrorPending(p, x) then x !in s && !Open(p', x) else x in s || Open(p', x))
            && (id in s || Open(p', id))
  {
  }

  /** Call `n` is a `throw` that comes while the error of `throw` number `id` is still to be read. */
  ghost predicate OvertakenAt<T, X>(calls: seq<Call<T, X>>, id: nat, n: nat) {
    n < |calls| && calls[n].Throw? && Exec(calls[..n]).Some? && ErrorPending(Exec(calls[..n]).value.pipe, id)
  }

  /** `throw` number `id` was overtaken by another one while it was pending. */
  ghost predicate Overtaken<T, X>(calls: seq<Call<T, X>>, id: nat) {
    exists n: nat :: OvertakenAt(calls, id, n)
  }

  lemma OvertakenSnoc<T, X>(calls: seq<Call<T, X>>, c: Call<T, X>, id: nat)
    requires Exec(calls).Some?
    ensures Overtaken(calls + [c], id) <==>
            || Overtaken(calls, id)
            || (c.Throw? && ErrorPending(Exec(calls).value.pipe, id))
  {
    hide Exec, ErrorPending;
    var more := calls + [c];
    assert more[..|calls|] == calls;
    assert OvertakenAt(more, id, |calls|) <==> c.Throw? && ErrorPending(Exec(calls).value.pipe, id);
    forall n: nat | n < |calls| ensures OvertakenAt(more, id, n) == OvertakenAt(calls, id, n) {
      assert more[..n] == calls[..n];
    }
  }

  /** Every promise is either settled, or open, or that of an overtaken `throw`. */
  ghost predicate Fate<T, X>(r: Run<T, X>, id: nat) {
    && (id in r.settled || Open(r.pipe, id) || Overtaken(r.calls, id))
    && !(id in r.settled && Open(r.pipe, id))
    && (Overtaken(r.calls, id) ==> id !in r.settled && !Open(r.pipe, id))
  }

  ghost predicate PromisesKept<T, X>(r: Run<T, X>) {
    && (forall id: nat | id < |r.calls| :: Fate(r, id))
    && (forall id: nat | id >= |r.calls| :: id !in r.settled && !Open(r.pipe, id) && !Overtaken(r.calls, id))
    && DistinctIds(r.pipe)
  }

  lemma OneFate<T, X>(r: Run<T, X>, c: Call<T, X>, id: nat)
    requires Exec(r.calls) == Some(r)
    requires Rendezvous(r.pipe) && PromisesKept(r) && Proper(r, c)
    ensures var r' := Step(r, c);
            if id < |r'.calls| then Fate(r', id)
            else id !in r'.settled && !Open(r'.pipe, id) && !Overtaken(r'.calls, id)
  {
    hide Answer, Overtaken, Handed, Exec;
    AnswerSettles(r.pipe, |r.calls|, c);
    OvertakenSnoc(r.calls, c, id);
    if id < |r.calls| {
      assert Fate(r, id);
    }
  }

  lemma StepPromises<T, X>(r: Run<T, X>, c: Call<T, X>)
    requires Exec(r.calls) == Some(r)
    requires Rendezvous(r.pipe) && PromisesKept(r) && Proper(r, c)
    ensures PromisesKept(Step(r, c))
    ensures forall id | id in r.settled :: id in Step(r, c).settled && Step(r, c).settled[id] == r.settled[id]
  {
    hide Answer, Open, Overtaken, Handed, Exec, Fate;
    AnswerSettles(r.pipe, |r.calls|, c);
    forall id: nat
      ensures var r' := Step(r, c);
              if id < |r'.calls| then Fate(r', id)
              else id !in r'.settled && !Open(r'.pipe, id) && !Overtaken(r'.calls, id)
    {
      OneFate(r, c, id);
    }
    forall id: nat | id in r.settled ensures id < |r.calls| && !Open(r.pipe, id) {
      SettledIsShut(r, id);
    }
  }

  lemma SettledIsShut<T, X>(r: Run<T, X>, id: nat)
    requires PromisesKept(r) && id in r.settled
    ensures id < |r.calls| && !Open(r.pipe, id)
  {
    if id < |r.calls| {
      assert Fate(r, id);
    }
  }

  lemma {:induction false} AllPromisesKept<T, X>(calls: seq<Call<T, X>>)
    requires Exec(calls).Some?
    ensures Inv(Exec(calls).value) && PromisesKept(Exec(calls).value) && Rendezvous(Exec(calls).value.pipe)
  {
    PipeInvariant(calls);
    if |calls| == 0 {
      NoPromises<T, X>();
    } else {
      hide Step, PromisesKept;
      var init := calls[..|calls| - 1];
      AllPromisesKept(init);
      ExecCalls(init);
      StepPromises(Exec(init).value, calls[|calls| - 1]);
    }
  }

  lemma NoPromises<T, X>()
    ensures PromisesKept<T, X>(Start())
  {
    forall id: nat ensures !Overtaken<T, X>([], id) {
      assert forall n: nat :: !OvertakenAt<T, X>([], id, n);
    }
  }

  lemma ClosedIsIdle<T, X>(p: Pipe<T, X>)
    requires Rendezvous(p)
    ensures p.closed ==> forall id: nat :: !Open(p, id)
  {
  }

  /** On a closed pipe exactly the promises of overtaken throws are unsettled; as long as it is open, those
      of the calls it still has to answer as well. */
  lemma SettledIff<T, X>(calls: seq<Call<T, X>>, id: nat)
    requires Exec(calls).Some? && id < |calls|
    ensures var r := Exec(calls).value;
            && (id in r.settled <==> !Open(r.pipe, id) && !Overtaken(calls, id))
            && (r.pipe.closed ==> (id in r.settled <==> !Overtaken(calls, id)))
  {
    hide Step, Overtaken, Inv, Open;
    AllPromisesKept(calls);
    ExecCalls(calls);
    ClosedIsIdle(Exec(calls).value.pipe);
    assert Fate(Exec(calls).value, id);
  }

  /** No promise is settled twice or in two ways. */
  lemma SettledOnce<T, X>(calls: seq<Call<T, X>>, c: Call<T, X>, id: nat)
    requires Exec(calls + [c]).Some? && Exec(calls).Some? && id in Exec(calls).value.settled
    ensures id in Exec(calls + [c]).value.settled
    ensures Exec(calls + [c]).value.settled[id] == Exec(calls).value.settled[id]
  {
    hide Step, Inv, PromisesKept;
    assert (calls + [c])[..|calls|] == calls;
    AllPromisesKept(calls);
    ExecCalls(calls);
    StepPromises(Exec(calls).value, c);
  }

  lemma SendStep<T, X>(r: Run<T, X>, v: T)
    requires Inv(r) && |r.calls| !in r.settled
    ensures var id, r' := |r.calls|, Step(r, Send(v));
            var refused := id in r'.settled && r'.settled[id].Refused?;
            && (refused <==> r.pipe.closed || r.delivered != r.accepted || r.pipe.thrown.Some?)
            && r'.accepted == if refused then r.accepted else r.accepted + [v]
  {
    assert r.delivered + [] == r.delivered;
  }

  /** A value is refused exactly if the pipe is closed, or the value before it or an error is still unread. */
  lemma RefusedIff<T, X>(calls: seq<Call<T, X>>, v: T)
    requires Exec(calls).Some?
    ensures Exec(calls + [Send(v)]).Some?
    ensures var r, r' := Exec(calls).value, Exec(calls + [Send(v)]).value;
            var refused := |calls| in r'.settled && r'.settled[|calls|].Refused?;
            && (refused <==> r.pipe.closed || r.delivered != r.accepted || exists id: nat :: ErrorPending(r.pipe, id))
            && r'.accepted == if refused then r.accepted else r.accepted + [v]
  {
    hide Step, Inv, Fate;
    assert (calls + [Send(v)])[..|calls|] == calls;
    AllPromisesKept(calls);
    ExecCalls(calls);
    var r := Exec(calls).value;
    SendStep(r, v);
    assert r.pipe.thrown.Some? ==> ErrorPending(r.pipe, r.pipe.thrown.value.id);
  }

  // ---------- what the reader has got ----------

  predicate IsItem<T, X>(settled: Settlements<T, X>, id: nat) {
    id in settled && settled[id].Item?
  }

  /** The values that the first `n` calls were answered with, in the order of the calls. */
  function Got<T, X>(settled: Settlements<T, X>, n: nat): seq<T> {
    if n == 0 then [] else Got(settled, n - 1) + if IsItem(settled, n - 1) then [settled[n - 1].value] else []
  }

  /** No later call than the waiting one was answered with a value. */
  ghost predicate WaitsLast<T, X>(r: Run<T, X>) {
    && (forall id: nat | IsItem(r.settled, id) :: id < |r.calls|)
    && (r.pipe.waiting.Some? ==>
          r.pipe.waiting.value < |r.calls| && forall id: nat | IsItem(r.settled, id) :: id < r.pipe.waiting.value)
  }

  lemma {:induction false} GotSame<T, X>(a: Settlements<T, X>, b: Settlements<T, X>, n: nat)
    requires forall id: nat | id < n :: IsItem(a, id) == IsItem(b, id) && (IsItem(a, id) ==> a[id] == b[id])
    ensures Got(a, n) == Got(b, n)
  {
    if n > 0 {
      GotSame(a, b, n - 1);
    }
  }

  lemma {:induction false} GotBeyond<T, X>(a: Settlements<T, X>, m: nat, n: nat)
    requires m <= n && forall id: nat | m <= id < n :: !IsItem(a, id)
    ensures Got(a, n) == Got(a, m)
  {
    if m < n {
      GotBeyond(a, m, n - 1);
    }
  }

  /** The call that `c` answers with a value, if any. */
  function Served<T, X>(p: Pipe<T, X>, id: nat, c: Call<T, X>): Option<nat> {
    if Handed(p, c) == [] then None else if c.Next? then Some(id) else p.waiting
  }

  lemma AnswerItems<T, X>(p: Pipe<T, X>, id: nat, c: Call<T, X>)
    requires Rendezvous(p) && (c.Next? ==> p.waiting.None?) && p.waiting != Some(id)
    ensures var (p', s) := Answer(p, id, c);
            var at := Served(p, id, c);
            && (forall x: nat :: IsItem(s, x) <==> at == Some(x))
            && (at.Some? ==> Handed(p, c) == [s[at.value].value] && p'.waiting.None?)
            && (at.None? ==> Handed(p, c) == [])
            && (p'.waiting == p.waiting || p'.waiting.None? || (c.Next? && p'.waiting == Some(id)))
  {
  }

  lemma GotOne<T, X>(a: Settlements<T, X>, b: Settlements<T, X>, at: nat, n: nat, m: nat)
    requires at < m && n <= m && forall id: nat | IsItem(a, id) :: id < at && id < n
    requires IsItem(b, at)
    requires forall id: nat | id != at :: IsItem(a, id) == IsItem(b, id) && (IsItem(a, id) ==> a[id] == b[id])
    ensures Got(b, m) == Got(a, n) + [b[at].value]
  {
    GotBeyond(b, at + 1, m);
    GotSame(a, b, at);
    if at <= n {
      GotBeyond(a, at, n);
    } else {
      GotBeyond(a, n, at);
    }
  }

  ghost predicate DeliveredIs<T, X>(r: Run<T, X>) {
    WaitsLast(r) && r.delivered == Got(r.settled, |r.calls|)
  }

  lemma DeliveredStep<T, X>(r: Run<T, X>, c: Call<T, X>)
    requires Inv(r) && PromisesKept(r) && Proper(r, c) && DeliveredIs(r) && Exec(r.calls) == Some(r)
    ensures DeliveredIs(Step(r, c))
  {
    hide Answer, Handed, Got, PromisesKept, Exec, IsItem;
    var id := |r.calls|;
    AnswerItems(r.pipe, id, c);
    StepPromises(r, c);
    ItemsKept(r, c);
    var r' := Step(r, c);
    var at := Served(r.pipe, id, c);
    if at.Some? {
      GotOne(r.settled, r'.settled, at.value, id, id + 1);
    } else {
      GotBeyond(r'.settled, id, id + 1);
      GotSame(r.settled, r'.settled, id);
      assert r.delivered + [] == r.delivered;
    }
  }

  /** Values that were answered stay, and only the call served now is added. */
  lemma ItemsKept<T, X>(r: Run<T, X>, c: Call<T, X>)
    requires Inv(r) && Proper(r, c) && r.pipe.waiting != Some(|r.calls|)
    requires forall id | id in r.settled :: id in Step(r, c).settled && Step(r, c).settled[id] == r.settled[id]
    ensures var at, r' := Served(r.pipe, |r.calls|, c), Step(r, c);
            && (forall x: nat | at != Some(x) ::
                  IsItem(r.settled, x) == IsItem(r'.settled, x)
                  && (IsItem(r.settled, x) ==> r.settled[x] == r'.settled[x]))
            && (at.Some? ==> IsItem(r'.settled, at.value) && r'.delivered == r.delivered + [r'.settled[at.value].value])
  {
    hide Answer, Handed;
    AnswerItems(r.pipe, |r.calls|, c);
  }

  /** What the reader has got are the values that its calls of `next` were answered with, in the order of the
      calls. */
  lemma {:induction false} ReaderGets<T, X>(calls: seq<Call<T, X>>)
    requires Exec(calls).Some?
    ensures DeliveredIs(Exec(calls).value)
  {
    if |calls| > 0 {
      hide Step, DeliveredIs, Inv, PromisesKept;
      var init := calls[..|calls| - 1];
      ReaderGets(init);
      AllPromisesKept(init);
      ExecCalls(init);
      DeliveredStep(Exec(init).value, calls[|calls| - 1]);
    }
  }

  /** A `throw` that comes while another one is pending makes it forgotten: after any calls before, and
      whatever calls follow, the promise of the pending one is never settled. */
  lemma OvertakenIsForgotten<T, X>(before: seq<Call<T, X>>, e: X, more: seq<Call<T, X>>, id: nat)
    requires Exec(before).Some? && ErrorPending(Exec(before).value.pipe, id)
    requires Exec(before + [Throw(e)] + more).Some?
    ensures id !in Exec(before + [Throw(e)] + more).value.settled
  {
    hide Step, Inv, PromisesKept, ErrorPending;
    var calls := before + [Throw(e)] + more;
    assert calls[..|before|] == before && calls[|before|] == Throw(e);
    assert OvertakenAt(calls, id, |before|);
    PendingIsEarlier(before, id);
    SettledIff(calls, id);
  }

  lemma PendingIsEarlier<T, X>(calls: seq<Call<T, X>>, id: nat)
    requires Exec(calls).Some? && ErrorPending(Exec(calls).value.pipe, id)
    ensures id < |calls|
  {
    hide Step, Inv;
    AllPromisesKept(calls);
    ExecCalls(calls);
    assert Open(Exec(calls).value.pipe, id);
  }
}
