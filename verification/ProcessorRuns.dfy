/** What holds over every run of the concurrent strategy: conservation, progress, and exactly when the
    two queues can block each other. */
module ProcessorRuns {
  import opened Wrappers
  import opened Processor

  lemma ReachesStep(c: Config, s: State, t: State, step: Step)
    requires Reaches(c, s, t) && Enabled(c, t, step)
    ensures Reaches(c, s, Next(c, t, step))
  {
    hide Enabled, Next;
    var steps: seq<Step> :| Exec(c, s, steps) == Some(t);
    assert (steps + [step])[..|steps|] == steps;
    assert Exec(c, s, steps + [step]) == Some(Next(c, t, step));
  }

  // ---------- conservation ----------

  /** Everything is through: the three loops have ended. */
  predicate Done(s: State) {
    s.input.Closed? && s.handler.Stopped? && s.output.Ended?
  }

  /** Over every run each message of the source is in exactly one place and released at most once; the
      input queue is closed only after the last release, so a message sent back never meets a closed
      queue; and a finished run has released every message exactly once. */
  lemma MessageConservation(c: Config, s: State)
    requires c.maxBatch > 0 && Reachable(c, s)
    ensures forall m: nat :: Count(s, m) == if m < s.next then 1 else 0
    ensures forall m: nat :: Occurs(s.released, m) <= 1
    ensures s.input.Closed? ==> AllReleased(s) && Vacant(s)
    ensures s.output.Skipping? || (s.output.Finishing? && s.output.requeue != []) ==> !s.input.Closed?
    ensures Done(s) ==> forall m: nat :: Occurs(s.released, m) == if m < s.next then 1 else 0
  {
    ReachableInv(c, s);
    hide Signals, Msgs, Occurs;
    if s.input.Closed? {
      VacantWhenReleased(s);
    }
    forall m: nat ensures Occurs(s.released, m) <= 1 {
      assert Count(s, m) <= 1;
    }
    if Done(s) {
      forall m: nat ensures Occurs(s.released, m) == if m < s.next then 1 else 0 {
        assert Count(s, m) == if m < s.next then 1 else 0;
        OccursNone(m);
      }
    }
  }

  /** The batch never exceeds the maximum, a pending reprocessing round leaves it empty, and it is empty
      whenever the output loop waits on an empty queue or has ended. */
  lemma NoStrandedOutput(c: Config, s: State)
    requires c.maxBatch > 0 && Reachable(c, s)
    ensures |s.batch| <= c.maxBatch
    ensures s.batch != [] && !s.output.Finishing? ==> s.repro.None?
    ensures s.output.Waiting? && s.queue == [] ==> s.batch == []
    ensures s.output.Ended? ==> s.batch == [] && s.queue == []
  {
    ReachableInv(c, s);
  }

  // ---------- blocking ----------

  /** The handler waits for the output queue while the output loop waits for the input queue. */
  predicate CircularWait(c: Config, s: State) {
    && s.handler.Emitting? && |s.queue| == c.outputCapacity
    && (s.output.Skipping? || (s.output.Finishing? && s.output.release == [] && s.output.requeue != []))
    && |s.high| == c.inputCapacity
  }

  lemma NoCircularWait(c: Config, s: State)
    requires c.maxBatch > 0 && c.inputCapacity >= c.maxBatch && Inv(c, s)
    ensures !CircularWait(c, s)
  {
  }

  /** Nothing the source or the input loop does resolves a circular wait. */
  lemma CircularWaitStays(c: Config, s: State, step: Step)
    requires Inv(c, s) && CircularWait(c, s) && Enabled(c, s, step)
    ensures CircularWait(c, Next(c, s, step))
  {
    hide Msgs, Signals, Occurs;
    if step.Close? {
      VacantWhenReleased(s);
    }
  }

  /** Steps the processor takes by itself, whatever the source does. */
  predicate Internal(step: Step) {
    !step.Yield? && !step.Dupe? && !step.SourceEnd? && !step.Mark?
  }

  ghost predicate CanMove(c: Config, s: State) {
    exists step: Step :: Internal(step) && Enabled(c, s, step)
  }

  /** Nothing to do until the source produces another message. */
  predicate Quiet(s: State) {
    s.input.Pulling? && Vacant(s)
  }

  lemma OutputMoves(c: Config, s: State)
    requires !s.output.Ended? && (s.output.Waiting? ==> s.queue != [])
    requires (s.output.Skipping? || (s.output.Finishing? && s.output.release == [] && s.output.requeue != [])) ==>
        |s.high| < c.inputCapacity
    ensures CanMove(c, s)
  {
    match s.output
    case Waiting => assert Enabled(c, s, Dequeue);
    case Got(_) => assert Enabled(c, s, Process);
    case Skipping(_) => assert Enabled(c, s, Skip);
    case Lingering => assert Enabled(c, s, LingerEnd);
    case Sinking => assert Enabled(c, s, Sink(Delivered));
    case Finishing(release, requeue) =>
      assert Enabled(c, s, if release != [] then Release else if requeue != [] then Requeue else Reset);
  }

  lemma IdleMoves(c: Config, s: State)
    requires c.inputCapacity > 0 && Inv(c, s) && s.handler.Idle? && s.high == [] && s.low == []
    ensures CanMove(c, s) || Quiet(s)
  {
    hide Msgs, Signals, Occurs;
    if !(s.output.Waiting? && s.queue == []) {
      OutputMoves(c, s);
    } else {
      OccursNone(0);
      match s.input
      case Enqueuing(_) => assert Enabled(c, s, PushLow);
      case Pulling =>
      case Draining =>
        ReleasedWhenVacant(s);
        NoSignals();
        assert Enabled(c, s, Close);
      case Closed => assert Enabled(c, s, Stop);
    }
  }

  lemma NoSignals()
    ensures Signals([]) == {}
  {
  }

  /** Deadlock freedom: with an input queue at least as large as a batch, every reachable state lets the
      processor take a step, unless it waits for the source with nothing in its hands or is done. */
  lemma Progress(c: Config, s: State)
    requires c.maxBatch > 0 && c.outputCapacity > 0 && c.inputCapacity >= c.maxBatch
    requires Reachable(c, s)
    ensures CanMove(c, s) || Quiet(s) || Done(s)
  {
    ReachableInv(c, s);
    NoCircularWait(c, s);
    hide Msgs, Signals, Conserved, LoadBounded, SignalsLive;
    match s.handler
    case Handling(job) => assert Enabled(c, s, if job.msg in s.marked then Evict else Handle);
    case Rejecting(_) => assert Enabled(c, s, Reject);
    case Emitting(_) =>
      if |s.queue| < c.outputCapacity {
        assert Enabled(c, s, Emit);
      } else {
        OutputMoves(c, s);
      }
    case Idle =>
      if s.high != [] || s.low != [] {
        assert Enabled(c, s, Take);
      } else {
        IdleMoves(c, s);
      }
    case Stopped =>
      VacantWhenReleased(s);
      if s.output.Ended? {
      } else if s.output.Waiting? {
        assert Enabled(c, s, if s.queue == [] then End else Dequeue);
      } else {
        OutputMoves(c, s);
      }
  }

  // ---------- the other half: a small input queue does block ----------

  /** The input loop waits for the source and the handler for the input queue. */
  ghost predicate Ready(c: Config, s: State) {
    Reachable(c, s) && s.input.Pulling? && s.low == [] && s.high == [] && s.handler.Idle? && s.repro.None?
        && s.marked == {}
  }

  /** One more message up to the handler's enqueue. */
  lemma Handled(c: Config, s: State) returns (t: State)
    requires c.inputCapacity > 0 && Ready(c, s)
    ensures Reachable(c, t) && t.input.Pulling? && t.low == [] && t.high == [] && t.repro.None? && t.marked == {}
    ensures t.handler.Emitting? && t.queue == s.queue && t.output == s.output && t.batch == s.batch
  {
    var a := Next(c, s, Yield);
    ReachesStep(c, Init, s, Yield);
    var b := Next(c, a, PushLow);
    ReachesStep(c, Init, a, PushLow);
    var d := Next(c, b, Take);
    ReachesStep(c, Init, b, Take);
    t := Next(c, d, Handle);
    ReachesStep(c, Init, d, Handle);
  }

  /** One more message into the output queue. */
  lemma Feed(c: Config, s: State) returns (t: State)
    requires c.inputCapacity > 0 && Ready(c, s) && |s.queue| < c.outputCapacity
    ensures Ready(c, t) && |t.queue| == |s.queue| + 1 && t.output == s.output && t.batch == s.batch
  {
    var a := Handled(c, s);
    t := Next(c, a, Emit);
    ReachesStep(c, Init, a, Emit);
  }

  /** A batch of `n` messages that is not sent because another job waits behind it. */
  lemma {:induction false} Grow(c: Config, n: nat) returns (t: State)
    requires c.inputCapacity > 0 && c.outputCapacity > 0 && n < c.maxBatch
    ensures Ready(c, t) && t.output.Waiting? && |t.batch| == n && |t.queue| == 1
  {
    hide Signals;
    if n == 0 {
      assert Exec(c, Init, []) == Some(Init);
      t := Feed(c, Init);
    } else {
      var s := Grow(c, n - 1);
      var b := Fetch(c, s);
      t := Next(c, b, Process);
      ReachesStep(c, Init, b, Process);
    }
  }

  /** The output loop fetches the job and another one moves up before it goes on. */
  lemma Fetch(c: Config, s: State) returns (t: State)
    requires c.inputCapacity > 0 && c.outputCapacity > 0 && Ready(c, s) && s.output.Waiting? && |s.queue| == 1
    ensures Ready(c, t) && t.output.Got? && t.batch == s.batch && |t.queue| == 1
  {
    var a := Next(c, s, Dequeue);
    ReachesStep(c, Init, s, Dequeue);
    t := Feed(c, a);
  }

  lemma {:induction false} FillQueue(c: Config, s: State) returns (t: State)
    requires c.inputCapacity > 0 && Ready(c, s) && |s.queue| <= c.outputCapacity
    ensures Ready(c, t) && |t.queue| == c.outputCapacity && t.output == s.output && t.batch == s.batch
    decreases c.outputCapacity - |s.queue|
  {
    if |s.queue| == c.outputCapacity {
      t := s;
    } else {
      var a := Feed(c, s);
      t := FillQueue(c, a);
    }
  }

  lemma {:induction false} SendBack(c: Config, s: State, n: nat) returns (t: State)
    requires Reachable(c, s) && s.output.Finishing? && s.output.release == []
    requires |s.high| + n == c.inputCapacity && n < |s.output.requeue|
    ensures Reachable(c, t) && t.output.Finishing? && t.output.release == [] && t.output.requeue != []
    ensures |t.high| == c.inputCapacity && t.handler == s.handler && t.queue == s.queue
    ensures t.repro == s.repro && t.marked == s.marked
    decreases n
  {
    if n == 0 {
      t := s;
    } else {
      var a := Next(c, s, Requeue);
      ReachesStep(c, Init, s, Requeue);
      t := SendBack(c, a, n - 1);
    }
  }

  /** A full batch is about to be sunk, with a full output queue and another message behind it. */
  lemma FullHouse(c: Config) returns (t: State)
    requires c.inputCapacity > 0 && c.maxBatch > 0 && c.outputCapacity > 0
    ensures Reachable(c, t) && t.output.Sinking? && |t.batch| == c.maxBatch && t.handler.Emitting?
        && |t.queue| == c.outputCapacity
    ensures t.high == [] && t.marked == {}
  {
    var a := Grow(c, c.maxBatch - 1);
    var b := Fetch(c, a);
    var d := LastJoins(c, b);
    var e := FillQueue(c, d);
    t := Handled(c, e);
  }

  lemma LastJoins(c: Config, s: State) returns (t: State)
    requires Ready(c, s) && s.output.Got? && |s.batch| == c.maxBatch - 1 && |s.queue| == 1
    ensures Ready(c, t) && t.output.Sinking? && |t.batch| == c.maxBatch && t.queue == s.queue
  {
    hide Signals;
    t := Next(c, s, Process);
    ReachesStep(c, Init, s, Process);
  }

  /** Its first job conflicts. */
  lemma FirstFails(c: Config, s: State) returns (t: State)
    requires Reachable(c, s) && s.output.Sinking? && s.batch != []
    ensures Reachable(c, t) && t == Next(c, s, Sink(Conflict(0)))
    ensures t.output.Finishing? && t.output.release == [] && |t.output.requeue| == |s.batch| && t.repro.Some?
    ensures t.handler == s.handler && t.queue == s.queue && t.high == s.high && t.marked == s.marked
  {
    hide Signals, Msgs;
    t := Next(c, s, Sink(Conflict(0)));
    ReachesStep(c, Init, s, Sink(Conflict(0)));
    OccursNone(0);
    assert s.batch[..0] == [] && s.batch[0..] == s.batch;
    MsgsAt(s.batch);
  }

  /** With an input queue smaller than a batch a conflict of the first job of a full batch blocks both
      loops for good. */
  lemma BlockedRun(c: Config) returns (t: State)
    requires 0 < c.inputCapacity < c.maxBatch && c.outputCapacity > 0
    ensures Reachable(c, t) && CircularWait(c, t) && t.repro.Some? && t.marked == {}
  {
    hide Reachable, Next;
    var s := FullHouse(c);
    var u := FirstFails(c, s);
    t := SendBack(c, u, c.inputCapacity);
  }

  /** No reachable state has the two loops waiting for each other. */
  ghost predicate DeadlockFree(c: Config) {
    forall s: State | Reachable(c, s) :: !CircularWait(c, s)
  }

  /** The loops can block each other exactly when the input queue is smaller than a batch. */
  lemma DeadlockFreeIff(c: Config)
    requires c.inputCapacity > 0 && c.outputCapacity > 0 && c.maxBatch > 0
    ensures DeadlockFree(c) <==> c.inputCapacity >= c.maxBatch
  {
    hide Reachable, Inv;
    if c.inputCapacity >= c.maxBatch {
      forall s: State | Reachable(c, s) ensures !CircularWait(c, s) {
        ReachableInv(c, s);
        NoCircularWait(c, s);
      }
    } else {
      var s := BlockedRun(c);
    }
  }
}
