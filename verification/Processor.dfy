/** The concurrent processing strategy as a state machine, one step per stretch of code between two
    awaits: packages/core/src/internal/processor/ConcurrentMessageProcessor.ts, with the composite input
    source (CompositeInputSource.ts:47-104) in front. Messages are named by their sequence numbers. */
module Processor {
  import opened Wrappers

  /** `minBatch` and `maxBatch` are the batch sizes, the capacities hold per priority. */
  datatype Config = Config(inputCapacity: nat, outputCapacity: nat, minBatch: nat, maxBatch: nat)

  /** A message on its way, with the in-flight signal of this round of handling (IQueueItem). */
  datatype Job = Job(msg: nat, signal: nat)

  /** inputLoop, lines 166-190. */
  datatype Input = Pulling | Enqueuing(msg: nat) | Draining | Closed

  /** processingLoop and handleInput, lines 192-343. */
  datatype Handler = Idle | Handling(job: Job) | Emitting(job: Job) | Rejecting(job: Job) | Stopped

  /** outputLoop, lines 345-528. `Finishing` is the `finally` block after the sink call. */
  datatype Output =
    | Waiting
    | Got(job: Job)
    | Skipping(job: Job)
    | Lingering
    | Sinking
    | Finishing(release: seq<nat>, requeue: seq<nat>)
    | Ended

  /** `marked` are the messages with the flag `evicted` (packages/core/src/model/message.ts:20), which is
      never taken back. */
  datatype State = State(
    next: nat, input: Input,
    low: seq<nat>, high: seq<nat>,
    handler: Handler,
    queue: seq<Job>, queueClosed: bool,
    output: Output, batch: seq<Job>, waited: bool, repro: Option<nat>,
    signals: set<nat>, nextSignal: nat,
    released: seq<nat>, marked: set<nat>)

  const Init: State := State(0, Pulling, [], [], Idle, [], false, Waiting, [], false, None, {}, 0, [], {})

  datatype Outcome = Delivered | Conflict(index: nat)

  /** `Mark` is `evict` of lines 168-170, for one of the messages its predicate holds of. */
  datatype Step =
    | Yield | Dupe | PushLow | SourceEnd | Close | Mark(msg: nat)
    | Take | Handle | Evict | Emit | Reject | Stop
    | Dequeue | End | Process | Skip | LingerEnd | Sink(outcome: Outcome) | Release | Requeue | Reset

  function Msgs(jobs: seq<Job>): seq<nat> {
    if |jobs| == 0 then [] else Msgs(jobs[..|jobs| - 1]) + [jobs[|jobs| - 1].msg]
  }

  function Signals(jobs: seq<Job>): set<nat> {
    set i | 0 <= i < |jobs| :: jobs[i].signal
  }

  predicate AllReleased(s: State) {
    forall m | 0 <= m < s.next :: m in s.released
  }

  predicate Enabled(c: Config, s: State, step: Step) {
    match step
    case Yield => s.input.Pulling?
    case Dupe => s.input.Pulling?
    case PushLow => s.input.Enqueuing? && |s.low| < c.inputCapacity
    case SourceEnd => s.input.Pulling?
    case Close => s.input.Draining? && AllReleased(s) && s.signals == {}
    case Mark(msg) => msg in s.low || msg in s.high
    case Take => s.handler.Idle? && (|s.high| > 0 || |s.low| > 0)
    case Handle => s.handler.Handling? && s.handler.job.msg !in s.marked
    case Evict => s.handler.Handling? && s.handler.job.msg in s.marked
    case Emit => s.handler.Emitting? && |s.queue| < c.outputCapacity
    case Reject => s.handler.Rejecting?
    case Stop => s.handler.Idle? && s.input.Closed? && |s.high| == 0 && |s.low| == 0
    case Dequeue => s.output.Waiting? && |s.queue| > 0
    case End => s.output.Waiting? && s.queueClosed && |s.queue| == 0
    case Process => s.output.Got?
    case Skip => s.output.Skipping? && |s.high| < c.inputCapacity
    case LingerEnd => s.output.Lingering?
    case Sink(outcome) => s.output.Sinking? && (outcome.Conflict? ==> outcome.index < |s.batch|)
    case Release => s.output.Finishing? && |s.output.release| > 0
    case Requeue => s.output.Finishing? && |s.output.release| == 0 && |s.output.requeue| > 0
        && |s.high| < c.inputCapacity
    case Reset => s.output.Finishing? && |s.output.release| == 0 && |s.output.requeue| == 0
  }

  /** Lines 413-422: send the batch unless it can still grow; going on resolves the batch's signals. */
  function Decide(c: Config, s: State): State {
    if |s.batch| != c.maxBatch && |s.queue| > 0
    then s.(output := Waiting, signals := s.signals - Signals(s.batch))
    else s.(output := Sinking)
  }

  /** Lines 372-411: a job that is not the awaited one goes back, any other joins the batch. */
  function ProcessJob(c: Config, s: State, job: Job): State {
    if s.repro.Some? && job.msg != s.repro.value then s.(output := Skipping(job))
    else
      var s := s.(repro := None, batch := s.batch + [job]);
      if |s.queue| == 0 && !s.waited && |s.batch| < c.minBatch
      then s.(waited := true, output := Lingering)
      else Decide(c, s)
  }

  function Next(c: Config, s: State, step: Step): State
    requires Enabled(c, s, step)
  {
    match step
    case Yield => s.(input := Enqueuing(s.next), next := s.next + 1)
    case Dupe => s.(next := s.next + 1, released := s.released + [s.next])
    case PushLow => s.(input := Pulling, low := s.low + [s.input.msg])
    case SourceEnd => s.(input := Draining)
    case Close => s.(input := Closed)
    case Mark(msg) => s.(marked := s.marked + {msg})
    case Take =>
      var s' := s.(signals := s.signals + {s.nextSignal}, nextSignal := s.nextSignal + 1);
      if |s.high| > 0
      then s'.(handler := Handling(Job(s.high[0], s.nextSignal)), high := s.high[1..])
      else s'.(handler := Handling(Job(s.low[0], s.nextSignal)), low := s.low[1..])
    case Handle => s.(handler := Emitting(s.handler.job))
    case Evict => s.(handler := Rejecting(s.handler.job))
    case Emit => s.(handler := Idle, queue := s.queue + [s.handler.job])
    case Reject =>
      s.(handler := Idle, released := s.released + [s.handler.job.msg],
         signals := s.signals - {s.handler.job.signal})
    case Stop => s.(handler := Stopped, queueClosed := true)
    case Dequeue => s.(output := Got(s.queue[0]), queue := s.queue[1..])
    case End => s.(output := Ended)
    case Process => ProcessJob(c, s, s.output.job)
    case Skip => s.(output := Waiting, high := s.high + [s.output.job.msg],
        signals := s.signals - {s.output.job.signal})
    case LingerEnd => Decide(c, s)
    case Sink(outcome) =>
      if outcome.Delivered? then s.(output := Finishing(Msgs(s.batch), []))
      else
        s.(repro := Some(s.batch[outcome.index].msg),
           output := Finishing(Msgs(s.batch[..outcome.index]), Msgs(s.batch[outcome.index..])))
    case Release =>
      s.(released := s.released + [s.output.release[0]], output := Finishing(s.output.release[1..], s.output.requeue))
    case Requeue =>
      s.(high := s.high + [s.output.requeue[0]], output := Finishing([], s.output.requeue[1..]))
    case Reset => s.(output := Waiting, signals := s.signals - Signals(s.batch), batch := [], waited := false)
  }

  /** The state after some steps, if they can all be taken. */
  function Exec(c: Config, s: State, steps: seq<Step>): Option<State> {
    if |steps| == 0 then Some(s)
    else
      var r := Exec(c, s, steps[..|steps| - 1]);
      if r.Some? && Enabled(c, r.value, steps[|steps| - 1]) then Some(Next(c, r.value, steps[|steps| - 1])) else None
  }

  ghost predicate Reaches(c: Config, s: State, s': State) {
    exists steps: seq<Step> :: Exec(c, s, steps) == Some(s')
  }

  ghost predicate Reachable(c: Config, s: State) {
    Reaches(c, Init, s)
  }

  // ---------- where the messages are ----------

  function InputHolds(s: State): seq<nat> {
    if s.input.Enqueuing? then [s.input.msg] else []
  }

  function HandlerHolds(s: State): seq<nat> {
    if s.handler.Handling? || s.handler.Emitting? || s.handler.Rejecting? then [s.handler.job.msg] else []
  }

  function OutputHolds(s: State): seq<nat> {
    if s.output.Got? || s.output.Skipping? then [s.output.job.msg] else []
  }

  /** The batch, or what the `finally` block has not released or re-queued yet. */
  function BatchHolds(s: State): seq<nat> {
    if s.output.Finishing? then s.output.release + s.output.requeue else Msgs(s.batch)
  }

  /** How often `m` occurs in `s`. */
  function Occurs(s: seq<nat>, m: nat): nat {
    if |s| == 0 then 0 else Occurs(s[..|s| - 1], m) + if s[|s| - 1] == m then 1 else 0
  }

  /** How often `m` occurs in all the places a message can be in, released included. */
  function Count(s: State, m: nat): nat {
    Occurs(InputHolds(s), m) + Occurs(s.low, m) + Occurs(s.high, m) + Occurs(HandlerHolds(s), m)
    + Occurs(Msgs(s.queue), m)
    + Occurs(OutputHolds(s), m) + Occurs(BatchHolds(s), m) + Occurs(s.released, m)
  }

  /** Every message the source has produced is in exactly one place, once, and nothing else is anywhere. */
  ghost predicate Conserved(s: State) {
    forall m: nat :: Count(s, m) == if m < s.next then 1 else 0
  }

  lemma MsgsSnoc(jobs: seq<Job>, j: Job)
    ensures Msgs(jobs + [j]) == Msgs(jobs) + [j.msg]
  {
  }

  lemma {:induction false} MsgsAppend(a: seq<Job>, b: seq<Job>)
    ensures Msgs(a + b) == Msgs(a) + Msgs(b)
  {
    if b == [] {
      assert a + b == a;
    } else {
      var n := |b| - 1;
      assert (a + b)[..|a + b| - 1] == a + b[..n];
      MsgsAppend(a, b[..n]);
    }
  }

  lemma {:induction false} MsgsAt(jobs: seq<Job>)
    ensures |Msgs(jobs)| == |jobs| && forall i | 0 <= i < |jobs| :: Msgs(jobs)[i] == jobs[i].msg
  {
    if |jobs| > 0 {
      MsgsAt(jobs[..|jobs| - 1]);
    }
  }

  lemma MsgsHead(jobs: seq<Job>)
    requires |jobs| > 0
    ensures Msgs(jobs) == [jobs[0].msg] + Msgs(jobs[1..])
  {
    var one := [jobs[0]];
    assert one[..0] == [];
    assert Msgs(one) == [jobs[0].msg];
    assert jobs == one + jobs[1..];
    MsgsAppend(one, jobs[1..]);
  }

  lemma OccursSnoc(s: seq<nat>, x: nat, m: nat)
    ensures Occurs(s + [x], m) == Occurs(s, m) + if x == m then 1 else 0
  {
  }

  lemma OccursOne(x: nat, m: nat)
    ensures Occurs([x], m) == (if x == m then 1 else 0) && Occurs([], m) == 0
  {
  }

  lemma OccursNone(m: nat)
    ensures Occurs([], m) == 0 && Msgs([]) == [] && Occurs([] + [], m) == 0
  {
  }

  lemma {:induction false} OccursAppend(a: seq<nat>, b: seq<nat>, m: nat)
    ensures Occurs(a + b, m) == Occurs(a, m) + Occurs(b, m)
  {
    if b == [] {
      assert a + b == a;
    } else {
      var n := |b| - 1;
      assert (a + b)[..|a + b| - 1] == a + b[..n];
      OccursAppend(a, b[..n], m);
    }
  }

  lemma OccursHead(s: seq<nat>, m: nat)
    requires |s| > 0
    ensures Occurs(s, m) == (if s[0] == m then 1 else 0) + Occurs(s[1..], m)
  {
    assert s == [s[0]] + s[1..];
    OccursAppend([s[0]], s[1..], m);
    OccursOne(s[0], m);
  }

  ghost predicate Moves(c: Config, s: State, step: Step, m: nat)
    requires Enabled(c, s, step)
  {
    Count(Next(c, s, step), m) == Count(s, m) + if (step.Yield? || step.Dupe?) && m == s.next then 1 else 0
  }

  lemma YieldMoves(c: Config, s: State, m: nat)
    requires Enabled(c, s, Yield)
    ensures Moves(c, s, Yield, m)
  {
  }

  lemma DupeMoves(c: Config, s: State, m: nat)
    requires Enabled(c, s, Dupe)
    ensures Moves(c, s, Dupe, m)
  {
    hide Occurs, Msgs, Signals, AllReleased;
    OccursNone(m);
    OccursSnoc(s.released, s.next, m);
  }

  lemma PushLowMoves(c: Config, s: State, m: nat)
    requires Enabled(c, s, PushLow)
    ensures Moves(c, s, PushLow, m)
  {
    hide Occurs, Msgs, Signals, AllReleased;
    OccursNone(m);
    OccursOne(s.input.msg, m);
    OccursSnoc(s.low, s.input.msg, m);
  }

  lemma TakeMoves(c: Config, s: State, m: nat)
    requires Enabled(c, s, Take)
    ensures Moves(c, s, Take, m)
  {
    hide Occurs, Msgs, Signals, AllReleased;
    OccursNone(m);
    if |s.high| > 0 {
      OccursHead(s.high, m);
      OccursOne(s.high[0], m);
    } else {
      OccursHead(s.low, m);
      OccursOne(s.low[0], m);
    }
  }

  lemma EmitMoves(c: Config, s: State, m: nat)
    requires Enabled(c, s, Emit)
    ensures Moves(c, s, Emit, m)
  {
    hide Occurs, Msgs, Signals, AllReleased;
    OccursNone(m);
    MsgsSnoc(s.queue, s.handler.job);
    OccursSnoc(Msgs(s.queue), s.handler.job.msg, m);
    OccursOne(s.handler.job.msg, m);
  }

  lemma RejectMoves(c: Config, s: State, m: nat)
    requires Enabled(c, s, Reject)
    ensures Moves(c, s, Reject, m)
  {
    hide Occurs, Msgs, Signals, AllReleased;
    OccursNone(m);
    OccursSnoc(s.released, s.handler.job.msg, m);
    OccursOne(s.handler.job.msg, m);
  }

  lemma DequeueMoves(c: Config, s: State, m: nat)
    requires Enabled(c, s, Dequeue)
    ensures Moves(c, s, Dequeue, m)
  {
    hide Occurs, Msgs, Signals, AllReleased;
    OccursNone(m);
    MsgsHead(s.queue);
    OccursHead(Msgs(s.queue), m);
    OccursOne(s.queue[0].msg, m);
  }

  lemma ProcessMoves(c: Config, s: State, m: nat)
    requires Enabled(c, s, Process)
    ensures Moves(c, s, Process, m)
  {
    hide Occurs, Msgs, Signals, AllReleased, ProcessJob;
    OccursNone(m);
    var job := s.output.job;
    MsgsSnoc(s.batch, job);
    OccursSnoc(Msgs(s.batch), job.msg, m);
    OccursOne(job.msg, m);
    JobStays(c, s, job);
  }

  /** Processing a job touches the batch, the loop's position and the signals only. */
  lemma JobStays(c: Config, s: State, job: Job)
    ensures var t := ProcessJob(c, s, job);
            && t.input == s.input && t.low == s.low && t.high == s.high && t.handler == s.handler
            && t.queue == s.queue && t.released == s.released && t.next == s.next && t.marked == s.marked
            && (if s.repro.Some? && job.msg != s.repro.value then t.output == Skipping(job) && t.batch == s.batch
                else (t.output.Waiting? || t.output.Lingering? || t.output.Sinking?) && t.batch == s.batch + [job])
  {
  }

  lemma SkipMoves(c: Config, s: State, m: nat)
    requires Enabled(c, s, Skip)
    ensures Moves(c, s, Skip, m)
  {
    hide Occurs, Msgs, Signals, AllReleased;
    OccursNone(m);
    OccursSnoc(s.high, s.output.job.msg, m);
    OccursOne(s.output.job.msg, m);
  }

  lemma SinkMoves(c: Config, s: State, outcome: Outcome, m: nat)
    requires Enabled(c, s, Sink(outcome))
    ensures Moves(c, s, Sink(outcome), m)
  {
    hide Occurs, Msgs, Signals, AllReleased;
    OccursNone(m);
    if outcome.Conflict? {
      MsgsAppend(s.batch[..outcome.index], s.batch[outcome.index..]);
      assert s.batch == s.batch[..outcome.index] + s.batch[outcome.index..];
    } else {
      assert Msgs(s.batch) + [] == Msgs(s.batch);
    }
  }

  lemma ReleaseMoves(c: Config, s: State, m: nat)
    requires Enabled(c, s, Release)
    ensures Moves(c, s, Release, m)
  {
    hide Occurs, Msgs, Signals, AllReleased;
    OccursNone(m);
    var all := s.output.release + s.output.requeue;
    OccursHead(all, m);
    assert all[1..] == s.output.release[1..] + s.output.requeue;
    OccursSnoc(s.released, all[0], m);
  }

  lemma RequeueMoves(c: Config, s: State, m: nat)
    requires Enabled(c, s, Requeue)
    ensures Moves(c, s, Requeue, m)
  {
    hide Occurs, Msgs, Signals, AllReleased;
    OccursNone(m);
    var all := s.output.release + s.output.requeue;
    assert all == s.output.requeue;
    OccursHead(all, m);
    assert all[1..] == [] + s.output.requeue[1..];
    OccursSnoc(s.high, all[0], m);
  }

  /** A step moves messages between places; only the source adds one. */
  lemma StepMoves(c: Config, s: State, step: Step, m: nat)
    requires Enabled(c, s, step)
    ensures Moves(c, s, step, m)
  {
    hide Occurs, Msgs, Signals, AllReleased, Moves;
    match step
    case Yield => YieldMoves(c, s, m);
    case Dupe => DupeMoves(c, s, m);
    case PushLow => PushLowMoves(c, s, m);
    case Take => TakeMoves(c, s, m);
    case Emit => EmitMoves(c, s, m);
    case Reject => RejectMoves(c, s, m);
    case Dequeue => DequeueMoves(c, s, m);
    case Process => ProcessMoves(c, s, m);
    case Skip => SkipMoves(c, s, m);
    case Sink(outcome) => SinkMoves(c, s, outcome, m);
    case Release => ReleaseMoves(c, s, m);
    case Requeue => RequeueMoves(c, s, m);
    case LingerEnd => LingerMoves(c, s, m);
    case Reset => ResetMoves(c, s, m);
    case _ => StayMoves(c, s, step, m);
  }

  lemma StayMoves(c: Config, s: State, step: Step, m: nat)
    requires Enabled(c, s, step)
    requires step.SourceEnd? || step.Close? || step.Mark? || step.Handle? || step.Evict? || step.Stop? || step.End?
    ensures Moves(c, s, step, m)
  {
    hide Occurs, Signals, AllReleased, Msgs;
    OccursNone(m);
  }

  lemma LingerMoves(c: Config, s: State, m: nat)
    requires Enabled(c, s, LingerEnd)
    ensures Moves(c, s, LingerEnd, m)
  {
    hide Occurs, Signals, AllReleased, Msgs;
    OccursNone(m);
  }

  lemma ResetMoves(c: Config, s: State, m: nat)
    requires Enabled(c, s, Reset)
    ensures Moves(c, s, Reset, m)
  {
  }

  lemma ConservedStep(c: Config, s: State, step: Step)
    requires Enabled(c, s, step) && Conserved(s)
    ensures Conserved(Next(c, s, step))
  {
    hide Count, Enabled;
    var t := Next(c, s, step);
    forall m: nat ensures Count(t, m) == if m < t.next then 1 else 0 {
      StepMoves(c, s, step, m);
    }
  }

  // ---------- the shape of reachable states ----------

  ghost predicate QueuesBounded(c: Config, s: State) {
    |s.low| <= c.inputCapacity && |s.high| <= c.inputCapacity && |s.queue| <= c.outputCapacity
  }

  /** The batch never exceeds the maximum, is empty when the loop waits on an empty queue or has ended,
      and is empty while a reprocessing round is pending. */
  ghost predicate BatchOk(c: Config, s: State) {
    && |s.batch| <= c.maxBatch
    && (s.output.Waiting? || s.output.Got? ==> |s.batch| < c.maxBatch)
    && (s.output.Waiting? && s.batch != [] ==> s.queue != [])
    && (s.output.Skipping? || s.output.Ended? ==> s.batch == [])
    && (s.output.Lingering? || s.output.Sinking? ==> s.batch != [])
    && (s.output.Finishing? ==> |s.output.release| + |s.output.requeue| <= |s.batch|)
    && (s.repro.Some? && !s.output.Finishing? ==> s.batch == [])
    && (s.output.Skipping? ==> s.repro.Some?)
  }

  ghost predicate Shutdown(s: State) {
    && (s.queueClosed <==> s.handler.Stopped?)
    && (s.handler.Stopped? ==> s.input.Closed?)
    && (s.output.Ended? ==> s.queueClosed && s.queue == [])
  }

  lemma QueuesStep(c: Config, s: State, step: Step)
    requires Enabled(c, s, step) && QueuesBounded(c, s)
    ensures QueuesBounded(c, Next(c, s, step))
  {
    hide Msgs, Signals, AllReleased;
  }

  lemma BatchProcess(c: Config, s: State)
    requires c.maxBatch > 0 && Enabled(c, s, Process) && BatchOk(c, s)
    ensures BatchOk(c, Next(c, s, Process))
  {
    hide Signals;
  }

  lemma BatchSink(c: Config, s: State, outcome: Outcome)
    requires Enabled(c, s, Sink(outcome)) && BatchOk(c, s)
    ensures BatchOk(c, Next(c, s, Sink(outcome)))
  {
    hide Msgs;
    MsgsAt(s.batch);
    if outcome.Conflict? {
      MsgsAt(s.batch[..outcome.index]);
      MsgsAt(s.batch[outcome.index..]);
    }
  }

  lemma BatchOther(c: Config, s: State, step: Step)
    requires c.maxBatch > 0 && Enabled(c, s, step) && BatchOk(c, s) && !step.Process? && !step.Sink?
    ensures BatchOk(c, Next(c, s, step))
  {
    hide Signals, AllReleased, Msgs, ProcessJob;
  }

  lemma BatchStep(c: Config, s: State, step: Step)
    requires c.maxBatch > 0 && Enabled(c, s, step) && BatchOk(c, s)
    ensures BatchOk(c, Next(c, s, step))
  {
    hide Next, Enabled, BatchOk;
    if step.Sink? {
      BatchSink(c, s, step.outcome);
    } else if step.Process? {
      BatchProcess(c, s);
    } else {
      BatchOther(c, s, step);
    }
  }

  /** Steps of the source and the input loop, and those of the output loop around a sink call. */
  predicate Outside(step: Step) {
    step.Yield? || step.Dupe? || step.PushLow? || step.SourceEnd? || step.Close? || step.Mark? || step.Stop?
    || step.End? || step.Release? || step.Requeue?
  }

  /** How many messages are in the loop between the two queues. */
  function Load(s: State): nat {
    |s.high| + |HandlerHolds(s)| + |s.queue| + |OutputHolds(s)| + |BatchHolds(s)|
  }

  /** The handler takes a fresh message only when none is waiting to be reprocessed, so the loop never
      holds more than the output queue, one batch and the message being handled. */
  ghost predicate LoadBounded(c: Config, s: State) {
    Load(s) <= c.outputCapacity + c.maxBatch + 1
  }

  lemma LoadTake(c: Config, s: State)
    requires c.maxBatch > 0 && Enabled(c, s, Take) && QueuesBounded(c, s) && BatchOk(c, s) && LoadBounded(c, s)
    ensures LoadBounded(c, Next(c, s, Take))
  {
    hide Msgs;
    MsgsAt(s.batch);
  }

  lemma LoadProcess(c: Config, s: State)
    requires Enabled(c, s, Process)
    ensures Load(Next(c, s, Process)) == Load(s)
  {
    hide Msgs, Signals, ProcessJob;
    var job := s.output.job;
    MsgsSnoc(s.batch, job);
    JobStays(c, s, job);
    assert |Msgs(s.batch + [job])| == |Msgs(s.batch)| + 1;
  }

  lemma LoadSink(c: Config, s: State, outcome: Outcome)
    requires Enabled(c, s, Sink(outcome))
    ensures Load(Next(c, s, Sink(outcome))) == Load(s)
  {
    hide Msgs;
    MsgsAt(s.batch);
    if outcome.Conflict? {
      MsgsAt(s.batch[..outcome.index]);
      MsgsAt(s.batch[outcome.index..]);
    }
  }

  lemma LoadOutside(c: Config, s: State, step: Step)
    requires Enabled(c, s, step) && Outside(step)
    ensures Load(Next(c, s, step)) <= Load(s)
  {
    hide Msgs, Signals, AllReleased;
  }

  lemma LoadInside(c: Config, s: State, step: Step)
    requires Enabled(c, s, step) && BatchOk(c, s) && !Outside(step) && !step.Take? && !step.Process? && !step.Sink?
    ensures Load(Next(c, s, step)) <= Load(s)
  {
    hide Msgs, Signals, AllReleased;
    OccursNone(0);
  }

  lemma LoadStep(c: Config, s: State, step: Step)
    requires c.maxBatch > 0 && Enabled(c, s, step) && QueuesBounded(c, s) && BatchOk(c, s) && LoadBounded(c, s)
    ensures LoadBounded(c, Next(c, s, step))
  {
    hide Next, Enabled, BatchOk, QueuesBounded, Load;
    if step.Take? {
      LoadTake(c, s);
    } else if step.Process? {
      LoadProcess(c, s);
    } else if step.Sink? {
      LoadSink(c, s, step.outcome);
    } else if Outside(step) {
      LoadOutside(c, s, step);
    } else {
      LoadInside(c, s, step);
    }
  }

  // ---------- signals ----------

  function HandlerSignals(s: State): set<nat> {
    if s.handler.Handling? || s.handler.Emitting? || s.handler.Rejecting? then {s.handler.job.signal} else {}
  }

  function OutputSignals(s: State): set<nat> {
    if s.output.Got? || s.output.Skipping? then {s.output.job.signal} else {}
  }

  /** Only jobs that are still on their way have unresolved signals. */
  ghost predicate SignalsLive(s: State) {
    s.signals <= HandlerSignals(s) + Signals(s.queue) + OutputSignals(s) + Signals(s.batch)
  }

  lemma SignalsSnoc(jobs: seq<Job>, j: Job)
    ensures Signals(jobs + [j]) == Signals(jobs) + {j.signal}
  {
    forall x | x in Signals(jobs) ensures x in Signals(jobs + [j]) {
      var i :| 0 <= i < |jobs| && jobs[i].signal == x;
      assert (jobs + [j])[i].signal == x;
    }
    assert (jobs + [j])[|jobs|].signal == j.signal;
  }

  lemma SignalsHead(jobs: seq<Job>)
    requires |jobs| > 0
    ensures Signals(jobs) == {jobs[0].signal} + Signals(jobs[1..])
  {
  }

  lemma SignalsProcess(c: Config, s: State)
    requires Enabled(c, s, Process) && SignalsLive(s)
    ensures SignalsLive(Next(c, s, Process))
  {
    hide Signals;
    SignalsSnoc(s.batch, s.output.job);
  }

  lemma SignalsOutside(c: Config, s: State, step: Step)
    requires Enabled(c, s, step) && SignalsLive(s) && (Outside(step) || step.Sink? || step.Handle? || step.Evict?)
    ensures SignalsLive(Next(c, s, step))
  {
    hide Signals, Msgs, AllReleased;
  }

  lemma SignalsMove(c: Config, s: State, step: Step)
    requires Enabled(c, s, step) && SignalsLive(s) && (step.Emit? || step.Dequeue?)
    ensures SignalsLive(Next(c, s, step))
  {
    hide Signals;
    if step.Emit? {
      SignalsSnoc(s.queue, s.handler.job);
    } else {
      SignalsHead(s.queue);
    }
  }

  lemma SignalsChange(c: Config, s: State, step: Step)
    requires Enabled(c, s, step) && SignalsLive(s)
    requires step.Take? || step.Reject? || step.Skip? || step.LingerEnd? || step.Reset?
    ensures SignalsLive(Next(c, s, step))
  {
    hide Signals;
  }

  lemma SignalsStep(c: Config, s: State, step: Step)
    requires Enabled(c, s, step) && SignalsLive(s)
    ensures SignalsLive(Next(c, s, step))
  {
    hide Next, SignalsLive, Enabled;
    match step
    case Process => SignalsProcess(c, s);
    case Emit => SignalsMove(c, s, step);
    case Dequeue => SignalsMove(c, s, step);
    case Take => SignalsChange(c, s, step);
    case Reject => SignalsChange(c, s, step);
    case Skip => SignalsChange(c, s, step);
    case LingerEnd => SignalsChange(c, s, step);
    case Reset => SignalsChange(c, s, step);
    case _ => SignalsOutside(c, s, step);
  }

  // ---------- closing ----------

  /** The input queue is closed only when nothing is left to release. */
  ghost predicate ClosedLast(s: State) {
    s.input.Closed? ==> AllReleased(s)
  }

  /** No message is on its way. */
  predicate Vacant(s: State) {
    && !s.input.Enqueuing? && s.low == [] && s.high == [] && HandlerHolds(s) == [] && s.queue == []
    && OutputHolds(s) == [] && BatchHolds(s) == []
  }

  lemma {:induction false} OccursIff(s: seq<nat>, m: nat)
    ensures Occurs(s, m) > 0 <==> m in s
  {
    if |s| > 0 {
      OccursIff(s[..|s| - 1], m);
      assert s == s[..|s| - 1] + [s[|s| - 1]];
    }
  }

  /** A message that is released is nowhere else. */
  lemma ReleasedNowhereElse(s: State, m: nat)
    requires Conserved(s) && m in s.released
    ensures m !in InputHolds(s) && m !in s.low && m !in s.high && m !in HandlerHolds(s)
    ensures m !in Msgs(s.queue) && m !in OutputHolds(s) && m !in BatchHolds(s)
  {
    OccursIff(InputHolds(s), m);
    OccursIff(s.low, m);
    OccursIff(s.high, m);
    OccursIff(HandlerHolds(s), m);
    OccursIff(Msgs(s.queue), m);
    OccursIff(OutputHolds(s), m);
    OccursIff(BatchHolds(s), m);
    OccursIff(s.released, m);
    assert Count(s, m) <= 1;
  }

  /** A message that is anywhere has been produced, and is in that place only. */
  lemma FoundOnce(s: State, m: nat)
    requires Conserved(s)
    requires Occurs(InputHolds(s), m) + Occurs(s.low, m) + Occurs(s.high, m) + Occurs(HandlerHolds(s), m)
                             + Occurs(Msgs(s.queue), m) + Occurs(OutputHolds(s), m) + Occurs(BatchHolds(s), m) > 0
    ensures m < s.next && m !in s.released
  {
    assert Count(s, m) == if m < s.next then 1 else 0;
    OccursIff(s.released, m);
  }

  lemma VacantWhenReleased(s: State)
    requires Conserved(s) && AllReleased(s)
    ensures Vacant(s)
  {
    if s.input.Enqueuing? { NotHere(s, InputHolds(s)[0]); }
    if s.low != [] { NotHere(s, s.low[0]); }
    if s.high != [] { NotHere(s, s.high[0]); }
    if HandlerHolds(s) != [] { NotHere(s, HandlerHolds(s)[0]); }
    if s.queue != [] { MsgsAt(s.queue); NotHere(s, Msgs(s.queue)[0]); }
    if OutputHolds(s) != [] { NotHere(s, OutputHolds(s)[0]); }
    if BatchHolds(s) != [] { NotHere(s, BatchHolds(s)[0]); }
  }

  lemma NotHere(s: State, m: nat)
    requires Conserved(s) && AllReleased(s)
    ensures m !in InputHolds(s) && m !in s.low && m !in s.high && m !in HandlerHolds(s)
    ensures m !in Msgs(s.queue) && m !in OutputHolds(s) && m !in BatchHolds(s)
  {
    OccursIff(InputHolds(s), m);
    OccursIff(s.low, m);
    OccursIff(s.high, m);
    OccursIff(HandlerHolds(s), m);
    OccursIff(Msgs(s.queue), m);
    OccursIff(OutputHolds(s), m);
    OccursIff(BatchHolds(s), m);
    OccursIff(s.released, m);
    assert Count(s, m) == if m < s.next then 1 else 0;
  }

  lemma ReleasedWhenVacant(s: State)
    requires Conserved(s) && Vacant(s)
    ensures AllReleased(s)
  {
    forall m | 0 <= m < s.next ensures m in s.released {
      assert Count(s, m) == 1;
      OccursNone(m);
      OccursIff(s.released, m);
    }
  }

  lemma ClosedStep(c: Config, s: State, step: Step)
    requires Enabled(c, s, step) && ClosedLast(s)
    ensures ClosedLast(Next(c, s, step))
  {
    hide Signals, Msgs, ProcessJob;
    if step.Process? {
      JobStays(c, s, s.output.job);
    }
  }

  lemma ShutdownStep(c: Config, s: State, step: Step)
    requires Enabled(c, s, step) && Shutdown(s) && Conserved(s) && ClosedLast(s)
    ensures Shutdown(Next(c, s, step))
  {
    hide Signals, Msgs, Conserved;
    if s.input.Closed? {
      VacantWhenReleased(s);
    }
  }

  ghost predicate Inv(c: Config, s: State) {
    && Conserved(s) && QueuesBounded(c, s) && BatchOk(c, s) && LoadBounded(c, s)
    && SignalsLive(s) && ClosedLast(s) && Shutdown(s)
  }

  lemma InvStep(c: Config, s: State, step: Step)
    requires c.maxBatch > 0 && Enabled(c, s, step) && Inv(c, s)
    ensures Inv(c, Next(c, s, step))
  {
    hide Conserved, QueuesBounded, BatchOk, LoadBounded, SignalsLive, ClosedLast, Shutdown, Enabled, Next;
    ConservedStep(c, s, step);
    QueuesStep(c, s, step);
    BatchStep(c, s, step);
    LoadStep(c, s, step);
    SignalsStep(c, s, step);
    ClosedStep(c, s, step);
    ShutdownStep(c, s, step);
  }

  lemma InvInit(c: Config)
    requires c.maxBatch > 0
    ensures Inv(c, Init)
  {
  }

  lemma {:induction false} ExecInv(c: Config, s: State, steps: seq<Step>)
    requires c.maxBatch > 0 && Inv(c, s) && Exec(c, s, steps).Some?
    ensures Inv(c, Exec(c, s, steps).value)
  {
    hide Inv, Enabled, Next;
    if |steps| > 0 {
      ExecInv(c, s, steps[..|steps| - 1]);
      InvStep(c, Exec(c, s, steps[..|steps| - 1]).value, steps[|steps| - 1]);
    }
  }

  lemma ReachableInv(c: Config, s: State)
    requires c.maxBatch > 0 && Reachable(c, s)
    ensures Inv(c, s)
  {
    hide Inv;
    InvInit(c);
    var steps: seq<Step> :| Exec(c, Init, steps) == Some(s);
    ExecInv(c, Init, steps);
  }
}
