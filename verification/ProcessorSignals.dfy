/** The in-flight signals, which `evict` waits for: lines 71-84 of BaseMessageProcessor.ts and their uses in
    ConcurrentMessageProcessor.ts. */
module ProcessorSignals {
  import opened Wrappers
  import opened Processor

  /** The signals of the jobs, in order. */
  function Sigs(jobs: seq<Job>): seq<nat> {
    if |jobs| == 0 then [] else Sigs(jobs[..|jobs| - 1]) + [jobs[|jobs| - 1].signal]
  }

  function HandlerSigs(s: State): seq<nat> {
    if s.handler.Handling? || s.handler.Emitting? || s.handler.Rejecting? then [s.handler.job.signal] else []
  }

  function OutputSigs(s: State): seq<nat> {
    if s.output.Got? || s.output.Skipping? then [s.output.job.signal] else []
  }

  /** How many jobs carry signal `x`. */
  function Carriers(s: State, x: nat): nat {
    Occurs(HandlerSigs(s), x) + Occurs(Sigs(s.queue), x) + Occurs(OutputSigs(s), x) + Occurs(Sigs(s.batch), x)
  }

  /** Every signal belongs to one job, and signals are handed out in order. */
  ghost predicate OneCarrier(s: State) {
    forall x: nat :: Carriers(s, x) <= if x < s.nextSignal then 1 else 0
  }

  /** Of the batch only the signal of the last job may be unresolved, while the loop is busy with it. */
  function OpenSigs(s: State): set<nat> {
    if (s.output.Lingering? || s.output.Sinking? || s.output.Finishing?) && |s.batch| > 0
    then {s.batch[|s.batch| - 1].signal} else {}
  }

  /** A signal is unresolved exactly as long as its job is handled, queued, or looked at by the output loop. */
  predicate ExactAt(s: State, x: nat) {
    x in s.signals <==> x in HandlerSigs(s) || x in Sigs(s.queue) || x in OutputSigs(s) || x in OpenSigs(s)
  }

  ghost predicate Exact(s: State) {
    forall x: nat :: ExactAt(s, x)
  }

  lemma SigsSnoc(jobs: seq<Job>, j: Job)
    ensures Sigs(jobs + [j]) == Sigs(jobs) + [j.signal]
  {
  }

  lemma {:induction false} SigsAppend(a: seq<Job>, b: seq<Job>)
    ensures Sigs(a + b) == Sigs(a) + Sigs(b)
  {
    if b == [] {
      assert a + b == a;
    } else {
      var n := |b| - 1;
      assert (a + b)[..|a + b| - 1] == a + b[..n];
      SigsAppend(a, b[..n]);
    }
  }

  lemma SigsHead(jobs: seq<Job>)
    requires |jobs| > 0
    ensures Sigs(jobs) == [jobs[0].signal] + Sigs(jobs[1..])
  {
    SigsSnoc([], jobs[0]);
    assert [] + [jobs[0]] == [jobs[0]] && jobs == [jobs[0]] + jobs[1..];
    SigsAppend([jobs[0]], jobs[1..]);
  }

  lemma {:induction false} SigsIff(jobs: seq<Job>, x: nat)
    ensures x in Sigs(jobs) <==> x in Signals(jobs)
  {
    if |jobs| > 0 {
      var init := jobs[..|jobs| - 1];
      assert jobs == init + [jobs[|jobs| - 1]];
      SigsIff(init, x);
      SignalsSnoc(init, jobs[|jobs| - 1]);
    }
  }

  // ---------- one carrier ----------

  lemma CarriersTake(c: Config, s: State, x: nat)
    requires Enabled(c, s, Take)
    ensures Carriers(Next(c, s, Take), x) == Carriers(s, x) + if x == s.nextSignal then 1 else 0
  {
    hide Sigs, Occurs;
    OccursOne(s.nextSignal, x);
  }

  lemma CarriersMove(c: Config, s: State, step: Step, x: nat)
    requires Enabled(c, s, step) && (step.Emit? || step.Dequeue?)
    ensures Carriers(Next(c, s, step), x) == Carriers(s, x)
  {
    hide Sigs, Occurs;
    if step.Emit? {
      SigsSnoc(s.queue, s.handler.job);
      OccursSnoc(Sigs(s.queue), s.handler.job.signal, x);
      OccursOne(s.handler.job.signal, x);
    } else {
      SigsHead(s.queue);
      OccursHead(Sigs(s.queue), x);
      OccursOne(s.queue[0].signal, x);
      assert Sigs(s.queue)[1..] == Sigs(s.queue[1..]);
    }
  }

  lemma CarriersProcess(c: Config, s: State, x: nat)
    requires Enabled(c, s, Process)
    ensures Carriers(Next(c, s, Process), x) == Carriers(s, x)
  {
    hide Sigs, Occurs, ProcessJob, Signals;
    var job := s.output.job;
    JobStays(c, s, job);
    SigsSnoc(s.batch, job);
    OccursSnoc(Sigs(s.batch), job.signal, x);
    OccursOne(job.signal, x);
  }

  lemma CarriersOther(c: Config, s: State, step: Step, x: nat)
    requires Enabled(c, s, step) && !step.Take? && !step.Emit? && !step.Dequeue? && !step.Process?
    ensures Carriers(Next(c, s, step), x) <= Carriers(s, x)
  {
    hide Sigs, Occurs, ProcessJob, Signals, Msgs, AllReleased;
    OccursOne(0, x);
    SigsNone();
  }

  lemma SigsNone()
    ensures Sigs([]) == []
  {
  }

  lemma JobCounts(c: Config, s: State, job: Job)
    ensures ProcessJob(c, s, job).nextSignal == s.nextSignal
  {
    hide Signals;
  }

  lemma NextSignalOf(c: Config, s: State, step: Step)
    requires Enabled(c, s, step)
    ensures Next(c, s, step).nextSignal == s.nextSignal + if step.Take? then 1 else 0
  {
    hide Signals, Msgs, AllReleased, ProcessJob;
    if step.Process? {
      JobCounts(c, s, s.output.job);
    }
  }

  lemma OneCarrierStep(c: Config, s: State, step: Step)
    requires Enabled(c, s, step) && OneCarrier(s)
    ensures OneCarrier(Next(c, s, step))
  {
    hide Carriers, Next, Enabled;
    NextSignalOf(c, s, step);
    forall x: nat ensures Carriers(Next(c, s, step), x) <= if x < Next(c, s, step).nextSignal then 1 else 0 {
      match step
      case Take => CarriersTake(c, s, x);
      case Emit => CarriersMove(c, s, step, x);
      case Dequeue => CarriersMove(c, s, step, x);
      case Process => CarriersProcess(c, s, x);
      case _ => CarriersOther(c, s, step, x);
    }
  }

  // ---------- exactly the unresolved ones ----------

  /** A signal carried in one place is carried nowhere else, and is not a new one. */
  lemma CarriedOnce(s: State, x: nat)
    requires OneCarrier(s)
    ensures x in HandlerSigs(s) ==> x !in Sigs(s.queue) && x !in OutputSigs(s) && x !in Sigs(s.batch)
    ensures x in Sigs(s.batch) ==> x !in HandlerSigs(s) && x !in Sigs(s.queue) && x !in OutputSigs(s)
    ensures x in OutputSigs(s) ==> x !in HandlerSigs(s) && x !in Sigs(s.queue) && x !in Sigs(s.batch)
  {
    hide Sigs, Occurs, HandlerSigs, OutputSigs;
    OccursIff(HandlerSigs(s), x);
    OccursIff(Sigs(s.queue), x);
    OccursIff(OutputSigs(s), x);
    OccursIff(Sigs(s.batch), x);
    assert Carriers(s, x) <= 1;
  }

  lemma OpenIsCarried(s: State, x: nat)
    requires x in OpenSigs(s)
    ensures x in Sigs(s.batch)
  {
    hide Signals;
    SigsSnoc(s.batch[..|s.batch| - 1], s.batch[|s.batch| - 1]);
    assert s.batch == s.batch[..|s.batch| - 1] + [s.batch[|s.batch| - 1]];
  }

  lemma ExactMove(c: Config, s: State, step: Step, x: nat)
    requires Enabled(c, s, step) && ExactAt(s, x) && (step.Emit? || step.Dequeue? || step.Take?)
    ensures ExactAt(Next(c, s, step), x)
  {
    hide Sigs;
    match step
    case Emit => SigsSnoc(s.queue, s.handler.job);
    case Dequeue => SigsHead(s.queue);
    case Take =>
  }

  lemma ExactResolve(c: Config, s: State, step: Step, x: nat)
    requires Enabled(c, s, step) && ExactAt(s, x) && (step.Reject? || step.Skip?) && OneCarrier(s)
    ensures ExactAt(Next(c, s, step), x)
  {
    CarriedOnce(s, x);
    if x in OpenSigs(s) {
      OpenIsCarried(s, x);
    }
    hide Sigs, OneCarrier;
  }

  lemma ExactReset(c: Config, s: State, x: nat)
    requires Enabled(c, s, Reset) && ExactAt(s, x) && OneCarrier(s)
    ensures ExactAt(Next(c, s, Reset), x)
  {
    hide Sigs, OneCarrier, Signals;
    CarriedOnce(s, x);
    if x in OpenSigs(s) {
      OpenIsCarried(s, x);
    }
    SigsIff(s.batch, x);
  }

  /** Deciding on the batch keeps the last signal open or resolves all of the batch. */
  lemma ExactDecide(c: Config, s: State, x: nat)
    requires s.output.Lingering? && |s.batch| > 0 && ExactAt(s, x) && OneCarrier(s)
    ensures ExactAt(Decide(c, s), x)
  {
    hide Sigs, OneCarrier, Signals;
    CarriedOnce(s, x);
    if x in OpenSigs(s) {
      OpenIsCarried(s, x);
    }
    SigsIff(s.batch, x);
  }

  /** The job has joined the batch, and nothing is decided yet. */
  function JoinedBatch(s: State, job: Job): State {
    s.(repro := None, batch := s.batch + [job], output := Lingering)
  }

  lemma JoinedOk(s: State, job: Job, x: nat)
    requires s.output == Got(job) && ExactAt(s, x) && OneCarrier(s)
    ensures ExactAt(JoinedBatch(s, job), x) && OneCarrier(JoinedBatch(s, job))
  {
    hide Sigs, Occurs;
    var t := JoinedBatch(s, job);
    forall y: nat ensures Carriers(t, y) <= if y < t.nextSignal then 1 else 0 {
      SigsSnoc(s.batch, job);
      OccursSnoc(Sigs(s.batch), job.signal, y);
      OccursOne(job.signal, y);
      assert Carriers(s, y) <= if y < s.nextSignal then 1 else 0;
    }
  }

  lemma Processed(c: Config, s: State, job: Job)
    ensures var t := JoinedBatch(s, job);
            ProcessJob(c, s, job) in {s.(output := Skipping(job)), t.(waited := true), Decide(c, t)}
  {
    hide Signals;
  }

  lemma ExactProcess(c: Config, s: State, x: nat)
    requires Enabled(c, s, Process) && ExactAt(s, x) && OneCarrier(s)
    ensures ExactAt(Next(c, s, Process), x)
  {
    hide Sigs, OneCarrier, ProcessJob, Decide;
    var job := s.output.job;
    Processed(c, s, job);
    JoinedOk(s, job, x);
    ExactDecide(c, JoinedBatch(s, job), x);
  }

  lemma ExactOther(c: Config, s: State, step: Step, x: nat)
    requires Enabled(c, s, step) && ExactAt(s, x)
    requires !step.Take? && !step.Emit? && !step.Dequeue? && !step.Process? && !step.Reject? && !step.Skip?
             && !step.Reset? && !step.LingerEnd?
    ensures ExactAt(Next(c, s, step), x)
  {
    hide Sigs, Msgs, Signals, AllReleased, ProcessJob;
  }

  lemma ExactStep(c: Config, s: State, step: Step)
    requires Enabled(c, s, step) && Exact(s) && OneCarrier(s) && BatchOk(c, s)
    ensures Exact(Next(c, s, step))
  {
    LingersOver(c, s);
    forall x: nat ensures ExactAt(Next(c, s, step), x) {
      assert ExactAt(s, x);
      hide ExactAt, OneCarrier, BatchOk, Next;
      match step
      case Take => ExactMove(c, s, step, x);
      case Emit => ExactMove(c, s, step, x);
      case Dequeue => ExactMove(c, s, step, x);
      case Process => ExactProcess(c, s, x);
      case Reject => ExactResolve(c, s, step, x);
      case Skip => ExactResolve(c, s, step, x);
      case Reset => ExactReset(c, s, x);
      case LingerEnd => ExactDecided(c, s, x);
      case _ => ExactOther(c, s, step, x);
    }
  }

  lemma ExactDecided(c: Config, s: State, x: nat)
    requires Enabled(c, s, LingerEnd) && |s.batch| > 0 && ExactAt(s, x) && OneCarrier(s)
    ensures ExactAt(Next(c, s, LingerEnd), x)
  {
    ExactDecide(c, s, x);
  }

  lemma LingersOver(c: Config, s: State)
    requires BatchOk(c, s)
    ensures s.output.Lingering? ==> |s.batch| > 0
  {
  }

  ghost predicate SignalsOk(c: Config, s: State) {
    BatchOk(c, s) && OneCarrier(s) && Exact(s)
  }

  lemma {:induction false} ExecSignals(c: Config, steps: seq<Step>)
    requires c.maxBatch > 0 && Exec(c, Init, steps).Some?
    ensures SignalsOk(c, Exec(c, Init, steps).value)
  {
    hide Enabled, Next, BatchOk, OneCarrier, Exact;
    if |steps| == 0 {
      SignalsStart(c);
    } else {
      var init, step := steps[..|steps| - 1], steps[|steps| - 1];
      ExecSignals(c, init);
      BatchStep(c, Exec(c, Init, init).value, step);
      OneCarrierStep(c, Exec(c, Init, init).value, step);
      ExactStep(c, Exec(c, Init, init).value, step);
    }
  }

  lemma SignalsStart(c: Config)
    requires c.maxBatch > 0
    ensures SignalsOk(c, Init)
  {
  }

  /** In every reachable state exactly those signals are unresolved whose message the handler has in hand, is
      in the output queue, is looked at by the output loop, or was the last to join the batch that is being
      sent; a signal belongs to one message only. */
  lemma InFlightIff(c: Config, s: State, x: nat)
    requires c.maxBatch > 0 && Reachable(c, s)
    ensures x in s.signals <==>
            x in HandlerSigs(s) || x in Sigs(s.queue) || x in OutputSigs(s) || x in OpenSigs(s)
    ensures Carriers(s, x) <= 1
  {
    hide Enabled, Next;
    var steps: seq<Step> :| Exec(c, Init, steps) == Some(s);
    ExecSignals(c, steps);
    assert ExactAt(s, x);
  }

  // ---------- closing ----------

  /** Once the input queue is closed nothing is in flight any more. */
  ghost predicate ClosedQuiet(s: State) {
    s.input.Closed? ==> s.signals == {} && AllReleased(s)
  }

  lemma ClosedQuietStep(c: Config, s: State, step: Step)
    requires Enabled(c, s, step) && Conserved(s) && ClosedQuiet(s) && ClosedLast(Next(c, s, step))
    ensures ClosedQuiet(Next(c, s, step))
  {
    hide Signals, Msgs, Conserved, AllReleased, ProcessJob, ClosedLast;
    if s.input.Closed? {
      VacantWhenReleased(s);
    }
    ClosedHere(Next(c, s, step));
    StaysOpen(c, s, step);
  }

  lemma ClosedHere(s: State)
    requires ClosedLast(s)
    ensures s.input.Closed? ==> AllReleased(s)
  {
  }

  /** Only `Close` closes the input queue. */
  lemma StaysOpen(c: Config, s: State, step: Step)
    requires Enabled(c, s, step)
    ensures Next(c, s, step).input.Closed? ==> s.input.Closed? || step.Close?
  {
    hide Signals, Msgs, AllReleased, ProcessJob;
    if step.Process? {
      JobStays(c, s, s.output.job);
    }
  }

  lemma {:induction false} ExecClosed(c: Config, steps: seq<Step>)
    requires c.maxBatch > 0 && Exec(c, Init, steps).Some?
    ensures Inv(c, Exec(c, Init, steps).value) && ClosedQuiet(Exec(c, Init, steps).value)
  {
    hide Enabled, Next, Conserved, QueuesBounded, BatchOk, LoadBounded, SignalsLive, Shutdown, ClosedLast;
    if |steps| == 0 {
      InvInit(c);
    } else {
      var init, step := steps[..|steps| - 1], steps[|steps| - 1];
      ExecClosed(c, init);
      InvStep(c, Exec(c, Init, init).value, step);
      ClosedQuietStep(c, Exec(c, Init, init).value, step);
    }
  }

  /** The input queue is closed only after everything in flight has been dealt with. */
  lemma ClosedIsQuiet(c: Config, s: State)
    requires c.maxBatch > 0 && Reachable(c, s) && s.input.Closed?
    ensures s.signals == {} && AllReleased(s)
  {
    hide Enabled, Next, Inv;
    var steps: seq<Step> :| Exec(c, Init, steps) == Some(s);
    ExecClosed(c, steps);
  }
}
