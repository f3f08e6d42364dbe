/** When a reprocessing round of the concurrent strategy can end: lines 372-406 and 462-488 of
    ConcurrentMessageProcessor.ts with the loops around them. */
module ProcessorRounds {
  import opened Wrappers
  import opened Processor
  import opened ProcessorRuns
  import opened ProcessorEviction

  // ---------- the line of messages on their way to the output loop ----------

  /** The messages between the input queue's high priority and the output loop, the next one first. */
  function Line(s: State): seq<nat> {
    OutputHolds(s) + Msgs(s.queue) + HandlerHolds(s) + s.high
  }

  function Requeues(s: State): seq<nat> {
    if s.output.Finishing? then s.output.requeue else []
  }

  /** The line and behind it what the `finally` block has still to send back. */
  function Path(s: State): seq<nat> {
    Line(s) + Requeues(s)
  }

  function IndexOf(q: seq<nat>, m: nat): (i: nat)
    ensures i <= |q| && (forall j | 0 <= j < i :: q[j] != m) && (i < |q| ==> q[i] == m)
  {
    if |q| == 0 || q[0] == m then 0 else 1 + IndexOf(q[1..], m)
  }

  /** The round waits for `m`, which is not marked as evicted. */
  ghost predicate Pending(c: Config, s: State, m: nat) {
    RoundInv(c, s) && s.repro == Some(m) && m !in s.marked
  }

  lemma InPath(c: Config, s: State, m: nat)
    requires Pending(c, s, m)
    ensures m in Path(s)
  {
    hide Msgs, Occurs;
    OccursIff(InputHolds(s), m);
    OccursIff(s.low, m);
    OccursIff(s.high, m);
    OccursIff(HandlerHolds(s), m);
    OccursIff(Msgs(s.queue), m);
    OccursIff(OutputHolds(s), m);
    OccursIff(BatchHolds(s), m);
    OccursIff(s.released, m);
    assert Count(s, m) == 1;
    OccursNone(m);
  }

  // ---------- how a step moves the line ----------

  lemma {:induction false} IndexIn(q: seq<nat>, m: nat)
    requires m in q
    ensures IndexOf(q, m) < |q|
  {
    if q[0] != m {
      assert m in q[1..];
      IndexIn(q[1..], m);
    }
  }

  lemma IndexIs(q: seq<nat>, m: nat, i: nat)
    requires i < |q| && q[i] == m && forall j | 0 <= j < i :: q[j] != m
    ensures IndexOf(q, m) == i
  {
  }

  lemma IndexBehind(x: nat, rest: seq<nat>, more: seq<nat>, m: nat)
    requires x != m && m in rest
    ensures IndexOf([x] + rest, m) == IndexOf(rest + more, m) + 1
  {
    IndexIn(rest, m);
    var i := IndexOf(rest, m);
    IndexIs([x] + rest, m, i + 1);
    IndexIs(rest + more, m, i);
  }

  lemma IndexWithout(a: seq<nat>, x: nat, b: seq<nat>, m: nat)
    requires x != m && m in a + b
    ensures IndexOf(a + b, m) <= IndexOf(a + [x] + b, m)
  {
    IndexIn(a + b, m);
    var i, q := IndexOf(a + b, m), a + [x] + b;
    if i < |a| {
      assert forall j | 0 <= j <= i :: q[j] == (a + b)[j];
      IndexIs(q, m, i);
    } else {
      forall j | 0 <= j < i + 1 ensures q[j] != m {
        assert q[j] == if j < |a| then (a + b)[j] else if j == |a| then x else (a + b)[j - 1];
      }
      assert q[i + 1] == (a + b)[i];
      IndexIs(q, m, i + 1);
    }
  }

  lemma EmitLine(c: Config, s: State)
    requires Enabled(c, s, Emit)
    ensures Line(Next(c, s, Emit)) == Line(s)
  {
    hide Signals, Msgs;
    MsgsSnoc(s.queue, s.handler.job);
  }

  lemma DequeueLine(c: Config, s: State)
    requires Enabled(c, s, Dequeue)
    ensures Line(Next(c, s, Dequeue)) == Line(s)
  {
    hide Signals, Msgs;
    MsgsHead(s.queue);
  }

  lemma TakeHighLine(c: Config, s: State)
    requires Enabled(c, s, Take) && s.high != []
    ensures Line(Next(c, s, Take)) == Line(s)
  {
    hide Signals, Msgs;
    assert s.high == [s.high[0]] + s.high[1..];
  }

  lemma TakeLowLine(c: Config, s: State)
    requires Enabled(c, s, Take) && s.high == []
    ensures Line(Next(c, s, Take)) == Line(s) + [s.low[0]]
  {
    hide Signals, Msgs;
  }

  /** Steps that do not touch the line. */
  predicate LeavesLine(step: Step) {
    step.Yield? || step.Dupe? || step.PushLow? || step.SourceEnd? || step.Close? || step.Mark? || step.Handle?
    || step.Evict? || step.Stop? || step.End? || step.Release? || step.Reset?
  }

  lemma SameLine(c: Config, s: State, step: Step)
    requires Enabled(c, s, step) && LeavesLine(step)
    ensures Line(Next(c, s, step)) == Line(s)
  {
    hide Signals, Msgs, AllReleased;
  }

  lemma RequeueLine(c: Config, s: State)
    requires Enabled(c, s, Requeue)
    ensures Line(Next(c, s, Requeue)) == Line(s) + [s.output.requeue[0]]
  {
    hide Signals, Msgs;
  }

  lemma RequeuePath(c: Config, s: State)
    requires Enabled(c, s, Requeue)
    ensures Path(Next(c, s, Requeue)) == Path(s)
  {
    RequeueLine(c, s);
    hide Line;
    var q := s.output.requeue;
    assert q == [q[0]] + q[1..];
    assert (Line(s) + [q[0]]) + q[1..] == Line(s) + q;
  }

  predicate MovesOn(s: State, step: Step) {
    step.Handle? || step.Evict? || step.Emit? || step.Dequeue? || step.Requeue? || step.Release? || step.Reset?
    || (step.Take? && s.high != [])
  }

  /** Steps that move a message on, or only the loop itself, leave the path as it is. */
  lemma SamePath(c: Config, s: State, step: Step)
    requires Enabled(c, s, step) && MovesOn(s, step)
    ensures Path(Next(c, s, step)) == Path(s)
  {
    hide Signals, Line;
    if step.Requeue? {
      RequeuePath(c, s);
    } else if step.Emit? {
      EmitLine(c, s);
    } else if step.Dequeue? {
      DequeueLine(c, s);
    } else if step.Take? {
      TakeHighLine(c, s);
    } else {
      SameLine(c, s, step);
    }
  }

  lemma ProcessPath(c: Config, s: State)
    requires Enabled(c, s, Process) && s.repro.Some? && s.output.job.msg != s.repro.value
    ensures Path(Next(c, s, Process)) == Path(s)
  {
    hide Signals, Msgs;
  }

  lemma SkipLine(c: Config, s: State)
    requires Enabled(c, s, Skip)
    ensures var rest := Msgs(s.queue) + HandlerHolds(s) + s.high;
            Line(s) == [s.output.job.msg] + rest && Line(Next(c, s, Skip)) == rest + [s.output.job.msg]
  {
    hide Signals, Msgs;
  }

  lemma SkipPath(c: Config, s: State)
    requires Enabled(c, s, Skip)
    ensures Path(s) == Line(s) && Path(Next(c, s, Skip)) == Line(Next(c, s, Skip))
  {
    hide Line;
  }

  lemma RejectPath(c: Config, s: State)
    requires Enabled(c, s, Reject)
    ensures var a, b := OutputHolds(s) + Msgs(s.queue), s.high + Requeues(s);
            Path(s) == a + [s.handler.job.msg] + b && Path(Next(c, s, Reject)) == a + b
  {
    hide Signals, Msgs;
  }

  // ---------- a measure ----------

  function HandlerWork(s: State): nat {
    if s.handler.Handling? then 4 else if s.handler.Emitting? || s.handler.Rejecting? then 3 else 0
  }

  /** How far the messages on the path are from being looked at. */
  function Work(s: State): nat {
    6 * |Requeues(s)| + 5 * |s.high| + HandlerWork(s) + 2 * |s.queue| + if s.output.Got? then 1 else 0
  }

  function Cleanup(s: State): nat {
    if s.output.Finishing? then |s.output.release| + 1 else 0
  }

  /** `m` comes up earlier, or the same messages are in front of it and something has moved on. */
  predicate Closer(s: State, t: State, m: nat) {
    var i, j := IndexOf(Path(s), m), IndexOf(Path(t), m);
    j < i || (j == i && (Work(t) < Work(s) || (Work(t) == Work(s) && Cleanup(t) < Cleanup(s))))
  }

  /** A step of the processor that brings the round forward. */
  ghost predicate Helps(c: Config, s: State, step: Step, m: nat) {
    && Enabled(c, s, step) && !step.Mark? && !step.Sink?
    && (if step.Process? && s.output.job.msg == m then true else Closer(s, Next(c, s, step), m))
  }

  lemma MoveHelps(c: Config, s: State, step: Step, m: nat)
    requires Enabled(c, s, step) && MovesOn(s, step)
    ensures Helps(c, s, step, m)
  {
    hide Signals, Path, IndexOf;
    SamePath(c, s, step);
  }

  lemma ProcessHelps(c: Config, s: State, m: nat)
    requires Enabled(c, s, Process) && s.repro == Some(m)
    ensures Helps(c, s, Process, m)
  {
    hide Signals, Path, IndexOf;
    if s.output.job.msg != m {
      ProcessPath(c, s);
    }
  }

  lemma SkipHelps(c: Config, s: State, m: nat)
    requires Enabled(c, s, Skip) && Pending(c, s, m)
    ensures Helps(c, s, Skip, m)
  {
    var x, rest := s.output.job.msg, Msgs(s.queue) + HandlerHolds(s) + s.high;
    assert x != m;
    InPath(c, s, m);
    hide Signals, Msgs, Path, IndexOf, Inv, Pending, RoundOk, HandlerHolds, Work, Cleanup;
    SkipPath(c, s);
    SkipLine(c, s);
    IndexBehind(x, rest, [x], m);
  }

  lemma RejectWork(c: Config, s: State)
    requires Enabled(c, s, Reject)
    ensures Work(Next(c, s, Reject)) < Work(s)
  {
  }

  lemma RejectsOther(c: Config, s: State, m: nat)
    requires Enabled(c, s, Reject) && Pending(c, s, m)
    ensures s.handler.job.msg != m
  {
    hide Inv, RoundOk;
  }

  lemma RejectHelps(c: Config, s: State, m: nat)
    requires Enabled(c, s, Reject) && Pending(c, s, m)
    ensures Helps(c, s, Reject, m)
  {
    hide Signals, Msgs, Path, IndexOf, Pending, OutputHolds, Requeues, Work, Cleanup, Next;
    InPath(c, s, m);
    RejectsOther(c, s, m);
    RejectPath(c, s);
    RejectWork(c, s);
    IndexWithout(OutputHolds(s) + Msgs(s.queue), s.handler.job.msg, s.high + Requeues(s), m);
  }

  lemma HandlerTurn(c: Config, s: State, m: nat) returns (step: Step)
    requires Pending(c, s, m)
    requires s.handler.Handling? || s.handler.Rejecting? || (s.handler.Idle? && s.high != [])
             || (s.handler.Emitting? && |s.queue| < c.outputCapacity)
    ensures Helps(c, s, step, m)
  {
    hide Helps, Pending;
    match s.handler
    case Handling(job) =>
      step := if job.msg in s.marked then Evict else Handle;
      MoveHelps(c, s, step, m);
    case Rejecting(_) =>
      step := Reject;
      RejectHelps(c, s, m);
    case Idle =>
      step := Take;
      MoveHelps(c, s, step, m);
    case Emitting(_) =>
      step := Emit;
      MoveHelps(c, s, step, m);
  }

  /** As long as `m` is on its way the handler has not stopped and the output loop has not ended. */
  lemma StillRunning(c: Config, s: State, m: nat)
    requires Pending(c, s, m)
    ensures !s.handler.Stopped? && !s.output.Ended? && !s.output.Lingering? && !s.output.Sinking?
    ensures s.output.Waiting? && s.queue == [] ==> m in HandlerHolds(s) || m in s.high
  {
    hide Conserved, LoadBounded, SignalsLive;
    InPath(c, s, m);
    OccursNone(m);
  }

  lemma ForwardWaiting(c: Config, s: State, m: nat) returns (step: Step)
    requires c.outputCapacity > 0 && Pending(c, s, m) && s.output.Waiting?
    ensures Helps(c, s, step, m)
  {
    StillRunning(c, s, m);
    hide Helps, Pending;
    if s.queue != [] {
      step := Dequeue;
      MoveHelps(c, s, step, m);
    } else {
      step := HandlerTurn(c, s, m);
    }
  }

  lemma ForwardSkipping(c: Config, s: State, m: nat) returns (step: Step)
    requires c.inputCapacity >= c.maxBatch > 0 && Pending(c, s, m) && s.output.Skipping?
    ensures Helps(c, s, step, m)
  {
    HandlerCanHelp(c, s, m);
    hide Helps, Pending;
    if |s.high| < c.inputCapacity {
      step := Skip;
      SkipHelps(c, s, m);
    } else {
      step := HandlerTurn(c, s, m);
    }
  }

  lemma FinishingMoves(c: Config, s: State, m: nat) returns (step: Step)
    requires s.output.Finishing? && (s.output.release != [] || s.output.requeue == [] || |s.high| < c.inputCapacity)
    ensures Helps(c, s, step, m)
  {
    hide Helps;
    step := if s.output.release != [] then Release else if s.output.requeue == [] then Reset else Requeue;
    MoveHelps(c, s, step, m);
  }

  lemma ForwardFinishing(c: Config, s: State, m: nat) returns (step: Step)
    requires c.inputCapacity >= c.maxBatch > 0 && Pending(c, s, m) && s.output.Finishing?
    ensures Helps(c, s, step, m)
  {
    HandlerCanHelp(c, s, m);
    hide Helps, Pending;
    if s.output.release == [] && s.output.requeue != [] && |s.high| == c.inputCapacity {
      step := HandlerTurn(c, s, m);
    } else {
      step := FinishingMoves(c, s, m);
    }
  }

  /** When the output loop has to wait for the input queue, the handler can move. */
  lemma HandlerCanHelp(c: Config, s: State, m: nat)
    requires c.inputCapacity >= c.maxBatch > 0 && Pending(c, s, m)
    ensures |s.high| <= c.inputCapacity
    ensures && |s.high| == c.inputCapacity
            && (s.output.Skipping? || (s.output.Finishing? && s.output.release == [] && s.output.requeue != [])) ==>
              s.handler.Handling? || s.handler.Rejecting? || (s.handler.Idle? && s.high != [])
              || (s.handler.Emitting? && |s.queue| < c.outputCapacity)
  {
    StillRunning(c, s, m);
    NoCircularWait(c, s);
    InvParts(c, s, m);
  }

  /** There is always a step that brings the round forward. */
  lemma Forward(c: Config, s: State, m: nat) returns (step: Step)
    requires c.outputCapacity > 0 && c.inputCapacity >= c.maxBatch > 0 && Pending(c, s, m)
    ensures Helps(c, s, step, m)
  {
    StillRunning(c, s, m);
    RoundIsFor(c, s, m);
    hide Helps, Pending;
    match s.output
    case Got(_) =>
      step := Process;
      ProcessHelps(c, s, m);
    case Waiting => step := ForwardWaiting(c, s, m);
    case Skipping(_) => step := ForwardSkipping(c, s, m);
    case Finishing(_, _) => step := ForwardFinishing(c, s, m);
  }

  lemma RoundIsFor(c: Config, s: State, m: nat)
    requires Pending(c, s, m)
    ensures s.repro == Some(m)
  {
  }

  lemma InvParts(c: Config, s: State, m: nat)
    requires Pending(c, s, m)
    ensures |s.high| <= c.inputCapacity && |s.queue| <= c.outputCapacity
  {
  }

  /** Until `m` is marked or comes up, no step of any loop ends the wait. */
  lemma PendingStep(c: Config, s: State, step: Step, m: nat)
    requires c.maxBatch > 0 && Pending(c, s, m) && Enabled(c, s, step)
    requires step != Mark(m) && !(step.Process? && s.output.job.msg == m)
    ensures Pending(c, Next(c, s, step), m)
  {
    RoundInvStep(c, s, step);
    StillRunning(c, s, m);
    hide RoundInv, Msgs, Signals;
  }

  // ---------- the round ends ----------

  /** From a pending round a run in which the awaited message joins the batch. */
  lemma {:induction false} EndRound(c: Config, s0: State, s: State, m: nat) returns (t: State)
    requires c.outputCapacity > 0 && c.inputCapacity >= c.maxBatch > 0 && Pending(c, s, m) && Reaches(c, s0, s)
    ensures Reaches(c, s0, t) && Gathering(c, t) && t.batch[|t.batch| - 1].msg == m
    decreases IndexOf(Path(s), m), Work(s), Cleanup(s)
  {
    hide Reaches, Pending, Next, Path, IndexOf, Work, Cleanup, Gathering;
    var step := Forward(c, s, m);
    ReachesStep(c, s0, s, step);
    if step.Process? && s.output.job.msg == m {
      t := Next(c, s, step);
      Joins(c, s, m);
    } else {
      PendingStep(c, s, step, m);
      t := EndRound(c, s0, Next(c, s, step), m);
    }
  }

  lemma Joins(c: Config, s: State, m: nat)
    requires c.maxBatch > 0 && Pending(c, s, m) && s.output.Got? && s.output.job.msg == m
    ensures var t := Next(c, s, Process); Gathering(c, t) && t.batch[|t.batch| - 1].msg == m
  {
    InvStep(c, s, Process);
    RoundIsFor(c, s, m);
    hide Inv, ProcessJob, Pending;
    JobEnds(c, s, s.output.job);
  }

  lemma JobEnds(c: Config, s: State, job: Job)
    requires s.repro == Some(job.msg)
    ensures var t := ProcessJob(c, s, job);
            t.repro.None? && t.batch == s.batch + [job]
                && (t.output.Waiting? || t.output.Lingering? || t.output.Sinking?)
  {
    hide Signals;
  }

  ghost predicate Gathering(c: Config, s: State) {
    && Inv(c, s) && s.repro.None? && s.batch != []
    && (s.output.Waiting? || s.output.Got? || s.output.Lingering? || s.output.Sinking?)
  }

  function Rank(s: State): nat {
    if s.output.Got? then 2 else if s.output.Lingering? then 1 else 0
  }

  ghost predicate Gathered(c: Config, s: State, t: State) {
    Gathering(c, t) && s.batch <= t.batch && (|t.queue| < |s.queue| || (|t.queue| == |s.queue| && Rank(t) < Rank(s)))
  }

  lemma DequeueGathers(c: Config, s: State)
    requires c.maxBatch > 0 && Gathering(c, s) && s.output.Waiting?
    ensures Enabled(c, s, Dequeue) && Gathered(c, s, Next(c, s, Dequeue))
  {
    BatchWaits(c, s);
    InvStep(c, s, Dequeue);
    hide Inv;
  }

  lemma ProcessGathers(c: Config, s: State)
    requires c.maxBatch > 0 && Gathering(c, s) && s.output.Got?
    ensures Enabled(c, s, Process) && Gathered(c, s, Next(c, s, Process))
  {
    InvStep(c, s, Process);
    hide Inv, Signals, ProcessJob;
    JobStays(c, s, s.output.job);
    JobKeepsNone(c, s, s.output.job);
  }

  lemma JobKeepsNone(c: Config, s: State, job: Job)
    requires s.repro.None?
    ensures ProcessJob(c, s, job).repro.None?
  {
    hide Signals;
  }

  lemma LingerGathers(c: Config, s: State)
    requires c.maxBatch > 0 && Gathering(c, s) && s.output.Lingering?
    ensures Enabled(c, s, LingerEnd) && Gathered(c, s, Next(c, s, LingerEnd))
  {
    InvStep(c, s, LingerEnd);
    hide Inv, Signals;
  }

  lemma Gathers(c: Config, s: State) returns (step: Step)
    requires c.maxBatch > 0 && Gathering(c, s) && !s.output.Sinking?
    ensures Enabled(c, s, step) && Gathered(c, s, Next(c, s, step))
  {
    hide Inv, Gathered, Enabled, Next;
    if s.output.Waiting? {
      step := Dequeue;
      DequeueGathers(c, s);
    } else if s.output.Got? {
      step := Process;
      ProcessGathers(c, s);
    } else {
      step := LingerEnd;
      LingerGathers(c, s);
    }
  }

  /** From a batch outside any round a run in which it is sunk. */
  lemma {:induction false} SinkBatch(c: Config, s0: State, s: State) returns (t: State)
    requires c.maxBatch > 0 && Reaches(c, s0, s) && Gathering(c, s)
    ensures Reaches(c, s0, t) && t.output.Sinking? && t.repro.None? && s.batch <= t.batch
    decreases |s.queue|, Rank(s)
  {
    if s.output.Sinking? {
      t := s;
    } else {
      hide Reaches, Enabled, Next, Inv, Rank;
      var step := Gathers(c, s);
      ReachesStep(c, s0, s, step);
      t := SinkBatch(c, s0, Next(c, s, step));
    }
  }

  lemma BatchWaits(c: Config, s: State)
    requires Inv(c, s)
    ensures s.output.Waiting? && s.batch != [] ==> s.queue != []
  {
  }

  // ---------- exactly when ----------

  ghost predicate CanEnd(c: Config, s: State) {
    exists t :: Reaches(c, s, t) && t.repro.None?
  }

  /** `m` can still get into a batch that is sunk. */
  ghost predicate CanBeSunk(c: Config, s: State, m: nat) {
    exists t :: Reaches(c, s, t) && t.output.Sinking? && m in Msgs(t.batch)
  }

  lemma StrandedStays(c: Config, s: State, t: State)
    requires c.maxBatch > 0 && RoundInv(c, s) && Stranded(s) && Reaches(c, s, t)
    ensures t.repro == s.repro && !t.output.Sinking?
  {
    hide RoundInv, Stranded, SentBackAt, Enabled, Next;
    var steps: seq<Step> :| Exec(c, s, steps) == Some(t);
    StrandedForever(c, s, steps);
  }

  lemma ReachesItself(c: Config, s: State)
    ensures Reaches(c, s, s)
  {
    assert Exec(c, s, []) == Some(s);
  }

  /** With an input queue at least as large as a batch: from every reachable state with a pending round the
      round can end, and the awaited message can be sunk again, exactly if that message is not marked as
      evicted, which line 249 looks at when the message comes by. */
  lemma RoundEndsIff(c: Config, s: State)
    requires c.outputCapacity > 0 && c.inputCapacity >= c.maxBatch > 0 && Reachable(c, s) && s.repro.Some?
    ensures CanEnd(c, s) <==> s.repro.value !in s.marked
    ensures CanBeSunk(c, s, s.repro.value) <==> s.repro.value !in s.marked
  {
    hide Reachable, Reaches, RoundInv, Msgs, Enabled, Next;
    var m := s.repro.value;
    ReachableRound(c, s);
    if Stranded(s) {
      forall t | Reaches(c, s, t) ensures t.repro == s.repro && !t.output.Sinking? {
        StrandedStays(c, s, t);
      }
    } else {
      ReachesItself(c, s);
      var t := EndRound(c, s, s, m);
      var u := SinkBatch(c, s, t);
      MsgsAt(u.batch);
      assert Msgs(u.batch)[|t.batch| - 1] == m;
    }
  }

  // ---------- a capacity below the batch size ----------

  lemma WaitKeepsRound(c: Config, s: State, step: Step)
    requires Inv(c, s) && CircularWait(c, s) && Enabled(c, s, step)
    ensures Next(c, s, step).repro == s.repro
  {
    hide Msgs, Signals, Inv;
  }

  /** Loops that wait for each other never end the round. */
  lemma {:induction false} WaitIsForever(c: Config, s: State, steps: seq<Step>)
    requires c.maxBatch > 0 && Inv(c, s) && CircularWait(c, s) && Exec(c, s, steps).Some?
    ensures var t := Exec(c, s, steps).value; Inv(c, t) && CircularWait(c, t) && t.repro == s.repro
  {
    hide Inv, Enabled, Next, CircularWait;
    if |steps| > 0 {
      var init := steps[..|steps| - 1];
      WaitIsForever(c, s, init);
      var t := Exec(c, s, init).value;
      InvStep(c, t, steps[|steps| - 1]);
      CircularWaitStays(c, t, steps[|steps| - 1]);
      WaitKeepsRound(c, t, steps[|steps| - 1]);
    }
  }

  /** Only marking its message can keep a round from ending. */
  ghost predicate RoundsEnd(c: Config) {
    forall s | Reachable(c, s) && s.repro.Some? && s.repro.value !in s.marked :: CanEnd(c, s)
  }

  /** That is so exactly when the input queue is at least as large as a batch. */
  lemma RoundsEndIff(c: Config)
    requires c.inputCapacity > 0 && c.outputCapacity > 0 && c.maxBatch > 0
    ensures RoundsEnd(c) <==> c.inputCapacity >= c.maxBatch
  {
    hide Reachable, Reaches, Inv, CanEnd, Enabled, Next;
    if c.inputCapacity >= c.maxBatch {
      forall s | Reachable(c, s) && s.repro.Some? && s.repro.value !in s.marked ensures CanEnd(c, s) {
        RoundEndsIff(c, s);
      }
    } else {
      var s := BlockedRun(c);
      BlockedRound(c, s);
    }
  }

  lemma BlockedRound(c: Config, s: State)
    requires c.maxBatch > 0 && Reachable(c, s) && CircularWait(c, s) && s.repro.Some?
    ensures !CanEnd(c, s)
  {
    hide Reachable, Inv, Enabled, Next;
    ReachableInv(c, s);
    forall t | Reaches(c, s, t) ensures t.repro.Some? {
      var steps: seq<Step> :| Exec(c, s, steps) == Some(t);
      WaitIsForever(c, s, steps);
    }
  }

  // ---------- nobody overtakes the awaited message ----------

  /** What comes up before `m`. */
  function Front(q: seq<nat>, m: nat): seq<nat> {
    q[..IndexOf(q, m)]
  }

  predicate Shrinks(q: seq<nat>, r: seq<nat>) {
    |r| <= |q| && forall x | x in r :: x in q
  }

  lemma FrontAppend(q: seq<nat>, more: seq<nat>, m: nat)
    requires m in q
    ensures Front(q + more, m) == Front(q, m)
  {
    IndexIn(q, m);
    IndexIs(q + more, m, IndexOf(q, m));
  }

  lemma FrontBehind(x: nat, rest: seq<nat>, m: nat)
    requires x != m && m in rest
    ensures Shrinks(Front([x] + rest, m), Front(rest + [x], m))
  {
    IndexIn(rest, m);
    var i := IndexOf(rest, m);
    IndexIs([x] + rest, m, i + 1);
    FrontAppend(rest, [x], m);
    assert ([x] + rest)[..i + 1] == [x] + rest[..i];
  }

  lemma FrontWithout(a: seq<nat>, x: nat, b: seq<nat>, m: nat)
    requires x != m && m in a + b
    ensures Shrinks(Front(a + [x] + b, m), Front(a + b, m))
  {
    IndexWithout(a, x, b, m);
    IndexIn(a + b, m);
    var i, q := IndexOf(a + b, m), a + [x] + b;
    var j := IndexOf(q, m);
    forall y | y in (a + b)[..i] ensures y in q[..j] {
      var k :| 0 <= k < i && (a + b)[k] == y;
      if k < |a| {
        assert q[k] == y && k < j;
      } else {
        assert q[k + 1] == y;
        WithoutBehind(a, x, b, m);
      }
    }
  }

  lemma WithoutBehind(a: seq<nat>, x: nat, b: seq<nat>, m: nat)
    requires x != m && m in a + b && IndexOf(a + b, m) >= |a|
    ensures IndexOf(a + [x] + b, m) == IndexOf(a + b, m) + 1
  {
    IndexIn(a + b, m);
    var i, q := IndexOf(a + b, m), a + [x] + b;
    forall j | 0 <= j < i + 1 ensures q[j] != m {
      assert q[j] == if j < |a| then (a + b)[j] else if j == |a| then x else (a + b)[j - 1];
    }
    assert q[i + 1] == (a + b)[i];
    IndexIs(q, m, i + 1);
  }

  lemma ProcessLine(c: Config, s: State)
    requires Enabled(c, s, Process) && s.repro.Some? && s.output.job.msg != s.repro.value
    ensures Line(Next(c, s, Process)) == Line(s)
  {
    hide Signals, Msgs;
  }

  /** The round waits for `m`, which is in the line. */
  ghost predicate InLine(c: Config, s: State, m: nat) {
    Inv(c, s) && RoundOk(s) && s.repro == Some(m) && m in Line(s)
  }

  lemma InLineFacts(c: Config, s: State, m: nat)
    requires InLine(c, s, m)
    ensures m !in s.released && (s.output.Skipping? ==> s.output.job.msg != m) && !s.output.Sinking?
        && !s.output.Lingering?
  {
    hide Msgs;
    if m in s.released {
      ReleasedNowhereElse(s, m);
    }
  }

  lemma FrontSkip(c: Config, s: State, m: nat)
    requires Enabled(c, s, Skip) && s.output.job.msg != m && m in Line(s)
    ensures Shrinks(Front(Line(s), m), Front(Line(Next(c, s, Skip)), m))
  {
    hide Msgs, Signals, IndexOf, Front, Shrinks;
    SkipLine(c, s);
    FrontBehind(s.output.job.msg, Msgs(s.queue) + HandlerHolds(s) + s.high, m);
  }

  lemma FrontReject(c: Config, s: State, m: nat)
    requires Enabled(c, s, Reject) && s.handler.job.msg != m && m in Line(s)
    ensures Shrinks(Front(Line(s), m), Front(Line(Next(c, s, Reject)), m))
  {
    hide Msgs, Signals, IndexOf, OutputHolds, Front, Shrinks;
    var a, x := OutputHolds(s) + Msgs(s.queue), s.handler.job.msg;
    assert Line(s) == a + [x] + s.high;
    assert OutputHolds(Next(c, s, Reject)) == OutputHolds(s) by { SameOutput(c, s); }
    assert Line(Next(c, s, Reject)) == a + s.high;
    FrontWithout(a, x, s.high, m);
  }

  lemma SameOutput(c: Config, s: State)
    requires Enabled(c, s, Reject)
    ensures OutputHolds(Next(c, s, Reject)) == OutputHolds(s)
  {
  }

  /** The line stays as it is or gets longer at its end. */
  lemma LineGrows(c: Config, s: State, step: Step)
    requires Enabled(c, s, step) && !step.Skip? && !step.Reject? && !step.Sink? && !step.LingerEnd?
    requires step.Process? ==> s.repro.Some? && s.output.job.msg != s.repro.value
    ensures var l := Line(Next(c, s, step)); Line(s) <= l
  {
    hide Line, Next;
    match step
    case Take => if s.high == [] { TakeLowLine(c, s); } else { TakeHighLine(c, s); }
    case Requeue => RequeueLine(c, s);
    case Emit => EmitLine(c, s);
    case Dequeue => DequeueLine(c, s);
    case Process => ProcessLine(c, s);
    case _ => SameLine(c, s, step);
  }

  lemma FrontGrows(q: seq<nat>, r: seq<nat>, m: nat)
    requires m in q && q <= r
    ensures Shrinks(Front(q, m), Front(r, m))
  {
    assert r == q + r[|q|..];
    FrontAppend(q, r[|q|..], m);
  }

  lemma FrontStep(c: Config, s: State, step: Step, m: nat)
    requires Enabled(c, s, step) && InLine(c, s, m) && InLine(c, Next(c, s, step), m)
    ensures Shrinks(Front(Line(s), m), Front(Line(Next(c, s, step)), m))
  {
    hide InLine, Line, Front, Shrinks, Next;
    InLineFacts(c, s, m);
    WaitsInLine(c, s, m);
    match step
    case Skip => FrontSkip(c, s, m);
    case Reject =>
      RejectNotAwaited(c, s, m);
      FrontReject(c, s, m);
    case LingerEnd => assert false;
    case Sink(_) => assert false;
    case _ =>
      if step.Process? {
        ProcessNotAwaited(c, s, m);
      }
      LineGrows(c, s, step);
      FrontGrows(Line(s), Line(Next(c, s, step)), m);
  }

  lemma WaitsInLine(c: Config, s: State, m: nat)
    requires InLine(c, s, m)
    ensures m in Line(s) && s.repro == Some(m) && !s.output.Lingering? && !s.output.Sinking?
  {
    InLineFacts(c, s, m);
    hide Inv, RoundOk, Line;
  }

  /** The awaited message comes up only when the round ends. */
  lemma ProcessNotAwaited(c: Config, s: State, m: nat)
    requires s.output.Got? && InLine(c, s, m) && InLine(c, Next(c, s, Process), m)
    ensures s.output.job.msg != m
  {
    hide Line, Inv, RoundOk, Signals;
  }

  lemma RejectNotAwaited(c: Config, s: State, m: nat)
    requires Enabled(c, s, Reject) && InLine(c, Next(c, s, Reject), m)
    ensures s.handler.job.msg != m
  {
    InLineFacts(c, Next(c, s, Reject), m);
    hide InLine, Signals;
    assert Next(c, s, Reject).released == s.released + [s.handler.job.msg];
  }

  /** The round for `m` is pending, with `m` in the line, at every moment of a run. */
  ghost predicate WaitsFor(c: Config, s: State, steps: seq<Step>, m: nat) {
    forall k | 0 <= k <= |steps| :: Exec(c, s, steps[..k]).Some? && InLine(c, Exec(c, s, steps[..k]).value, m)
  }

  /** As long as the round is pending no message overtakes the awaited one: whatever comes up before it was
      in front of it already. */
  lemma {:induction false} NobodyOvertakes(c: Config, s: State, steps: seq<Step>, m: nat)
    requires WaitsFor(c, s, steps, m)
    ensures Exec(c, s, steps).Some?
    ensures Shrinks(Front(Line(s), m), Front(Line(Exec(c, s, steps).value), m))
  {
    hide Enabled, Next, Front, Line, InLine;
    assert steps[..|steps|] == steps;
    if |steps| > 0 {
      var n := |steps| - 1;
      var init := steps[..n];
      forall k | 0 <= k <= n ensures init[..k] == steps[..k] {
      }
      NobodyOvertakes(c, s, init, m);
      FrontStep(c, Exec(c, s, init).value, steps[n], m);
    }
  }
}
