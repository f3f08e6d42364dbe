/** Evicting a message while a reprocessing round waits for it: lines 169-172, 249-251 and 372-406 of
    ConcurrentMessageProcessor.ts together. */
module ProcessorEviction {
  import opened Wrappers
  import opened Processor
  import opened ProcessorRuns

  /** A pending round waits for a message that was produced and is not going to be released by the
      `finally` block; if it is released after all, it was marked. */
  ghost predicate RoundOk(s: State) {
    s.repro.Some? ==>
      var m := s.repro.value;
      && m < s.next && (m in s.released ==> m in s.marked)
      && (s.output.Finishing? ==> m !in s.output.release)
      && m !in InputHolds(s) && m !in s.low
      && (s.output.Skipping? ==> s.output.job.msg != m)
  }

  /** The handler has taken the message out of the input queue and not handled it. */
  predicate InHand(s: State, m: nat) {
    (s.handler.Handling? || s.handler.Rejecting?) && s.handler.job.msg == m
  }

  /** A marked message has not got beyond the handler's check, and the handler rejects only such messages. */
  ghost predicate MarkedOk(s: State) {
    && (forall m | m in s.marked :: m in s.low || m in s.high || InHand(s, m) || m in s.released)
    && (s.handler.Rejecting? ==> s.handler.job.msg in s.marked)
  }

  ghost predicate RoundInv(c: Config, s: State) {
    Inv(c, s) && RoundOk(s) && MarkedOk(s)
  }

  lemma RoundSink(c: Config, s: State, i: nat)
    requires Enabled(c, s, Sink(Conflict(i))) && Conserved(s)
    ensures RoundOk(Next(c, s, Sink(Conflict(i))))
  {
    hide Msgs, Occurs, Signals;
    var m := s.batch[i].msg;
    var before, from := Msgs(s.batch[..i]), Msgs(s.batch[i..]);
    MsgsAt(s.batch[i..]);
    assert from[0] == m;
    MsgsAppend(s.batch[..i], s.batch[i..]);
    assert s.batch == s.batch[..i] + s.batch[i..];
    OccursAppend(before, from, m);
    OccursIff(before, m);
    OccursIff(from, m);
    OccursIff(InputHolds(s), m);
    OccursIff(s.low, m);
    FoundOnce(s, m);
    assert Count(s, m) == 1;
  }

  lemma RoundStep(c: Config, s: State, step: Step)
    requires Enabled(c, s, step) && Inv(c, s) && RoundOk(s) && MarkedOk(s)
    ensures RoundOk(Next(c, s, step))
  {
    hide MarkedOk;
    if step.Sink? && step.outcome.Conflict? {
      hide Inv;
      ConservedIn(c, s);
      RoundSink(c, s, step.outcome.index);
    } else if step.Reject? {
      RoundReject(c, s);
    } else {
      RoundStays(c, s, step);
    }
  }

  lemma ConservedIn(c: Config, s: State)
    requires Inv(c, s)
    ensures Conserved(s)
  {
  }

  lemma RoundReject(c: Config, s: State)
    requires Enabled(c, s, Reject) && RoundOk(s) && MarkedOk(s)
    ensures RoundOk(Next(c, s, Reject))
  {
    hide Msgs, Signals;
  }

  lemma RoundStays(c: Config, s: State, step: Step)
    requires Enabled(c, s, step) && BatchOk(c, s) && RoundOk(s)
    requires !step.Reject? && !(step.Sink? && step.outcome.Conflict?)
    ensures RoundOk(Next(c, s, step))
  {
    hide Msgs, Signals, ProcessJob, AllReleased;
    if step.Process? {
      RoundProcess(c, s);
    }
  }

  lemma RoundProcess(c: Config, s: State)
    requires Enabled(c, s, Process) && RoundOk(s)
    ensures RoundOk(Next(c, s, Process))
  {
    hide Msgs, Signals;
  }

  lemma MarkedTake(c: Config, s: State)
    requires Enabled(c, s, Take) && MarkedOk(s)
    ensures MarkedOk(Next(c, s, Take))
  {
    if s.high != [] {
      assert s.high == [s.high[0]] + s.high[1..];
    } else {
      assert s.low == [s.low[0]] + s.low[1..];
    }
  }

  lemma MarkedStep(c: Config, s: State, step: Step)
    requires Enabled(c, s, step) && MarkedOk(s)
    ensures MarkedOk(Next(c, s, step))
  {
    hide Msgs, Signals, AllReleased, ProcessJob;
    if step.Take? {
      MarkedTake(c, s);
    } else if step.Process? {
      JobStays(c, s, s.output.job);
    }
  }

  lemma RoundInvStep(c: Config, s: State, step: Step)
    requires c.maxBatch > 0 && Enabled(c, s, step) && RoundInv(c, s)
    ensures RoundInv(c, Next(c, s, step))
  {
    hide Inv, RoundOk, MarkedOk, Enabled, Next;
    InvStep(c, s, step);
    RoundStep(c, s, step);
    MarkedStep(c, s, step);
  }

  lemma {:induction false} ExecRound(c: Config, s: State, steps: seq<Step>)
    requires c.maxBatch > 0 && RoundInv(c, s) && Exec(c, s, steps).Some?
    ensures RoundInv(c, Exec(c, s, steps).value)
  {
    hide RoundInv, Enabled, Next;
    if |steps| > 0 {
      var init := steps[..|steps| - 1];
      ExecRound(c, s, init);
      RoundInvStep(c, Exec(c, s, init).value, steps[|steps| - 1]);
    }
  }

  lemma ReachableRound(c: Config, s: State)
    requires c.maxBatch > 0 && Reachable(c, s)
    ensures RoundInv(c, s)
  {
    hide Inv, Enabled, Next;
    InvInit(c);
    var steps: seq<Step> :| Exec(c, Init, steps) == Some(s);
    ExecRound(c, Init, steps);
  }

  /** The message a pending round waits for is still on its way, or it is marked and the handler has not
      looked at it yet, is just rejecting it or has released it. */
  lemma AwaitedUnlessEvicted(c: Config, s: State)
    requires c.maxBatch > 0 && Reachable(c, s) && s.repro.Some?
    ensures var m := s.repro.value;
            if m in s.marked then m in s.high || InHand(s, m) || m in s.released
            else && m !in s.released
                 && (m in s.high || m in HandlerHolds(s) || m in Msgs(s.queue) || m in OutputHolds(s)
                     || (s.output.Finishing? && m in s.output.requeue))
  {
    hide Msgs, Occurs, Signals;
    ReachableRound(c, s);
    var m := s.repro.value;
    OccursIff(InputHolds(s), m);
    OccursIff(s.low, m);
    OccursIff(s.high, m);
    OccursIff(HandlerHolds(s), m);
    OccursIff(Msgs(s.queue), m);
    OccursIff(OutputHolds(s), m);
    OccursIff(BatchHolds(s), m);
    OccursIff(s.released, m);
    assert Count(s, m) == 1;
    if m in BatchHolds(s) && !s.output.Finishing? {
      OccursNone(m);
    }
  }

  // ---------- what happens after such an eviction ----------

  /** The round waits for a message that has been marked as evicted, wherever it is. */
  predicate Stranded(s: State) {
    s.repro.Some? && s.repro.value in s.marked
  }

  lemma StrandedStep(c: Config, s: State, step: Step)
    requires RoundInv(c, s) && Stranded(s) && Enabled(c, s, step)
    ensures !step.Sink? && Next(c, s, step).repro == s.repro && Stranded(Next(c, s, step))
    ensures step.Process? ==> Next(c, s, step).output.Skipping?
  {
    hide Msgs, Occurs, Signals, Conserved, QueuesBounded, LoadBounded, SignalsLive;
    NotInOutput(s, s.repro.value);
    if step.Process? {
      assert s.output.job.msg in OutputHolds(s);
    }
  }

  lemma NotInOutput(s: State, m: nat)
    requires Conserved(s) && (m in s.low || m in s.high || InHand(s, m) || m in s.released)
    ensures m !in OutputHolds(s)
  {
    hide Msgs, Occurs;
    OccursIff(OutputHolds(s), m);
    OccursIff(s.low, m);
    OccursIff(s.high, m);
    OccursIff(HandlerHolds(s), m);
    OccursIff(s.released, m);
    assert InHand(s, m) ==> m in HandlerHolds(s);
    assert Count(s, m) <= 1;
  }

  /** What comes up in step `i` of a run is sent back. */
  ghost predicate SentBackAt(c: Config, s: State, steps: seq<Step>, i: nat)
    requires i < |steps|
  {
    steps[i].Process? ==> var r := Exec(c, s, steps[..i + 1]); r.Some? && r.value.output.Skipping?
  }

  /** As soon as the awaited message is marked, long before the handler finds out, the round cannot end any
      more: whatever happens, the sink is not called again and every message that comes up is sent back. */
  lemma {:induction false} StrandedForever(c: Config, s: State, steps: seq<Step>)
    requires c.maxBatch > 0 && RoundInv(c, s) && Stranded(s) && Exec(c, s, steps).Some?
    ensures var t := Exec(c, s, steps).value;
            t.repro == s.repro && Stranded(t) && !t.output.Sinking?
    ensures forall i | 0 <= i < |steps| :: !steps[i].Sink? && SentBackAt(c, s, steps, i)
  {
    hide Stranded, RoundInv, Enabled, Next;
    if |steps| > 0 {
      var n := |steps| - 1;
      var init := steps[..n];
      StrandedForever(c, s, init);
      ExecRound(c, s, init);
      var t := Exec(c, s, init).value;
      StrandedStep(c, t, steps[n]);
      RoundInvStep(c, t, steps[n]);
      NotSinking(c, Next(c, t, steps[n]));
      assert steps[..n + 1] == steps;
      forall i | 0 <= i < n ensures !steps[i].Sink? && SentBackAt(c, s, steps, i) {
        assert !init[i].Sink? && SentBackAt(c, s, init, i);
        assert init[..i + 1] == steps[..i + 1];
      }
    } else {
      NotSinking(c, s);
    }
  }

  lemma NotSinking(c: Config, s: State)
    requires RoundInv(c, s) && Stranded(s)
    ensures !s.output.Sinking?
  {
  }

  /** Such a run exists even for queues that cannot deadlock: the message was sent back, and is marked while
      it lies in the input queue. */
  lemma StrandedRun() returns (s: State)
    ensures Reachable(Config(1, 1, 0, 1), s) && Stranded(s) && s.high == [0] && s.released == []
  {
    hide Reachable, Next, Enabled;
    var c := Config(1, 1, 0, 1);
    s := FirstOutput(c);
    s := FirstConflict(c, s);
    s := SentBack(c, s);
    s := MarkedThere(c, s);
  }

  lemma SentBack(c: Config, s: State) returns (t: State)
    requires c.inputCapacity == 1 && Reachable(c, s) && s.repro == Some(0) && s.output == Finishing([], [0])
        && s.high == [] && s.released == []
    ensures Reachable(c, t) && t.repro == Some(0) && t.high == [0] && t.released == []
  {
    t := Go(c, s, Requeue);
  }

  lemma MarkedThere(c: Config, s: State) returns (t: State)
    requires Reachable(c, s) && s.repro == Some(0) && s.high == [0] && s.released == []
    ensures Reachable(c, t) && Stranded(t) && t.high == [0] && t.released == []
  {
    t := Go(c, s, Mark(0));
  }

  lemma Go(c: Config, s: State, step: Step) returns (t: State)
    requires Reachable(c, s) && Enabled(c, s, step)
    ensures Reachable(c, t) && t == Next(c, s, step)
  {
    t := Next(c, s, step);
    ReachesStep(c, Init, s, step);
  }

  /** The source's first message is handled and its output is dequeued. */
  lemma FirstOutput(c: Config) returns (s: State)
    requires c == Config(1, 1, 0, 1)
    ensures Reachable(c, s) && s == Init.(next := 1, output := Got(Job(0, 0)), signals := s.signals,
        nextSignal := s.nextSignal)
  {
    hide Signals;
    assert Exec(c, Init, []) == Some(Init);
    s := Go(c, Init, Yield);
    s := Go(c, s, PushLow);
    s := Go(c, s, Take);
    s := FirstHandled(c, s);
  }

  lemma FirstHandled(c: Config, s: State) returns (t: State)
    requires c == Config(1, 1, 0, 1) && Reachable(c, s) && s.handler == Handling(Job(0, 0)) && s.queue == []
        && s.output.Waiting? && s.marked == {}
    ensures Reachable(c, t) && t == s.(handler := Idle, output := Got(Job(0, 0)))
  {
    t := Go(c, s, Handle);
    t := Go(c, t, Emit);
    t := Go(c, t, Dequeue);
  }

  /** It conflicts as soon as it is sunk. */
  lemma FirstConflict(c: Config, s: State) returns (t: State)
    requires c == Config(1, 1, 0, 1) && Reachable(c, s)
    requires s == Init.(next := 1, output := Got(Job(0, 0)), signals := s.signals, nextSignal := s.nextSignal)
    ensures Reachable(c, t) && t.repro == Some(0) && t.output == Finishing([], [0]) && t.high == [] && t.released == []
  {
    hide Signals, Msgs;
    t := Go(c, s, Process);
    assert t.batch == [Job(0, 0)];
    t := OnlyFails(c, t);
  }

  lemma OnlyFails(c: Config, s: State) returns (t: State)
    requires Reachable(c, s) && s.output.Sinking? && s.batch == [Job(0, 0)]
    ensures Reachable(c, t) && t == s.(repro := Some(0), output := Finishing([], [0]))
  {
    hide Signals, Msgs;
    assert s.batch[..0] == [] && s.batch[0..] == s.batch;
    MsgsAt(s.batch);
    MsgsAt(s.batch[..0]);
    assert Msgs(s.batch) == [0] && Msgs(s.batch[..0]) == [];
    t := Go(c, s, Sink(Conflict(0)));
  }
}
