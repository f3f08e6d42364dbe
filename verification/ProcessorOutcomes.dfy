/** What becomes of the messages that the sink is given: lines 424-520 of ConcurrentMessageProcessor.ts over
    whole runs, told by the outcomes of the sink. */
module ProcessorOutcomes {
  import opened Wrappers
  import opened Processor
  import opened ProcessorRuns
  import opened ProcessorEviction

  /** The story of a run: which messages were duplicates, which were rejected, which came through the sink
      (`passed`: delivered, or in front of a conflict), which were to go back to the input queue (`back`:
      from a conflict on, or skipped), which the handler has taken from there (`again`), all in order, how
      often the output loop has lingered over the present batch, and how many jobs were `behind` in the queue
      when it last decided whether to send it. */
  datatype Story = Story(
    dupes: set<nat>, rejected: set<nat>, passed: seq<nat>, back: seq<nat>, again: seq<nat>, lingered: nat,
    behind: nat)

  const Blank: Story := Story({}, {}, [], [], [], 0, 0)

  function Continued(c: Config, s: State, h: Story, step: Step): Story
    requires Enabled(c, s, step)
  {
    match step
    case Dupe => h.(dupes := h.dupes + {s.next})
    case Reject => h.(rejected := h.rejected + {s.handler.job.msg})
    case Take => if |s.high| > 0 then h.(again := h.again + [s.high[0]]) else h
    case Sink(Delivered) => h.(passed := h.passed + Msgs(s.batch))
    case Sink(Conflict(i)) => h.(passed := h.passed + Msgs(s.batch[..i]), back := h.back + Msgs(s.batch[i..]))
    case Skip => h.(back := h.back + [s.output.job.msg])
    case Process => h.(behind := |s.queue|)
    case LingerEnd => h.(lingered := h.lingered + 1, behind := |s.queue|)
    case Reset => h.(lingered := 0)
    case _ => h
  }

  function Told(c: Config, steps: seq<Step>): Story
    requires Exec(c, Init, steps).Some?
  {
    if |steps| == 0 then Blank
    else
      var init, step := steps[..|steps| - 1], steps[|steps| - 1];
      Continued(c, Exec(c, Init, init).value, Told(c, init), step)
  }

  /** What the `finally` block has still to release, and to send back. */
  function ToRelease(s: State): seq<nat> {
    if s.output.Finishing? then s.output.release else []
  }

  function ToSendBack(s: State): seq<nat> {
    if s.output.Finishing? then s.output.requeue else []
  }

  function Without(q: seq<nat>, out: set<nat>): seq<nat> {
    if |q| == 0 then []
    else Without(q[..|q| - 1], out) + if q[|q| - 1] in out then [] else [q[|q| - 1]]
  }

  /** The releases that are the sink's doing, in order. */
  function ReleasedBySink(s: State, h: Story): seq<nat> {
    Without(s.released, h.dupes + h.rejected)
  }

  /** What has come through the sink is released, in order, or about to be. */
  ghost predicate PassedOn(s: State, h: Story) {
    && ReleasedBySink(s, h) + ToRelease(s) == h.passed
    && (forall m | m in h.dupes + h.rejected :: m in s.released)
    && h.rejected <= s.marked
  }

  /** What was to go back has been taken again, lies in the queue, or is about to be enqueued, in order. */
  ghost predicate SentBackInOrder(s: State, h: Story) {
    h.again + s.high + ToSendBack(s) == h.back
  }

  /** A batch that is sent below its minimum has lingered, and none lingers twice. */
  ghost predicate LingersOnce(c: Config, s: State, h: Story) {
    && h.lingered <= 1 && (s.waited <==> s.output.Lingering? || h.lingered == 1)
    && (s.output.Lingering? ==> h.lingered == 0 && |s.batch| < c.minBatch)
    && (s.output.Sinking? ==> |s.batch| == c.maxBatch || |s.batch| >= c.minBatch || h.lingered == 1)
    && (s.output.Sinking? ==> |s.batch| == c.maxBatch || h.behind == 0)
    && (s.output.Skipping? || s.output.Ended? ==> !s.waited)
    && (!s.output.Finishing? && s.batch == [] ==> !s.waited)
  }

  // ---------- sequences without some members ----------

  lemma {:induction false} WithoutNew(q: seq<nat>, out: set<nat>, x: nat)
    requires x !in q
    ensures Without(q, out + {x}) == Without(q, out)
  {
    if |q| > 0 {
      assert q == q[..|q| - 1] + [q[|q| - 1]];
      WithoutNew(q[..|q| - 1], out, x);
    }
  }

  lemma WithoutSnoc(q: seq<nat>, x: nat, out: set<nat>)
    ensures Without(q + [x], out) == Without(q, out) + if x in out then [] else [x]
  {
  }

  lemma {:induction false} WithoutIff(q: seq<nat>, out: set<nat>, m: nat)
    ensures m in Without(q, out) <==> m in q && m !in out
  {
    if |q| > 0 {
      assert q == q[..|q| - 1] + [q[|q| - 1]];
      WithoutIff(q[..|q| - 1], out, m);
    }
  }

  // ---------- every step ----------

  /** A message that is somewhere else is not released yet. */
  lemma NotReleased(s: State, m: nat)
    requires Conserved(s) && (m in HandlerHolds(s) || m in BatchHolds(s) || m >= s.next)
    ensures m !in s.released
  {
    OccursIff(HandlerHolds(s), m);
    OccursIff(BatchHolds(s), m);
    OccursIff(s.released, m);
    assert Count(s, m) == if m < s.next then 1 else 0;
  }

  lemma PassedDupe(c: Config, s: State, h: Story)
    requires Enabled(c, s, Dupe) && Conserved(s) && PassedOn(s, h)
    ensures PassedOn(Next(c, s, Dupe), Continued(c, s, h, Dupe))
  {
    NotReleased(s, s.next);
    hide Conserved, Without, Msgs, Signals, Enabled;
    OneMoreOut(s.released, h.dupes + h.rejected, s.next);
    assert h.dupes + {s.next} + h.rejected == h.dupes + h.rejected + {s.next};
  }

  lemma OneMoreOut(released: seq<nat>, out: set<nat>, m: nat)
    requires m !in released && forall x | x in out :: x in released
    ensures Without(released + [m], out + {m}) == Without(released, out)
    ensures forall x | x in out + {m} :: x in released + [m]
  {
    WithoutNew(released, out, m);
    WithoutSnoc(released, m, out + {m});
  }

  /** A rejection releases the message, and nothing else that matters here changes. */
  lemma AfterReject(c: Config, s: State)
    requires Enabled(c, s, Reject)
    ensures var t := Next(c, s, Reject);
            && t.released == s.released + [s.handler.job.msg] && t.marked == s.marked
            && ToRelease(t) == ToRelease(s) && s.handler.job.msg in HandlerHolds(s)
  {
    hide Msgs, Signals;
  }

  lemma AfterRelease(c: Config, s: State)
    requires Enabled(c, s, Release)
    ensures var t, m := Next(c, s, Release), s.output.release[0];
            && t.released == s.released + [m] && t.marked == s.marked
            && ToRelease(s) == [m] + ToRelease(t) && m in BatchHolds(s)
  {
    hide Msgs, Signals;
    assert s.output.release == [s.output.release[0]] + s.output.release[1..];
    assert BatchHolds(s)[0] == s.output.release[0];
  }

  lemma PassedReject(c: Config, s: State, h: Story)
    requires Enabled(c, s, Reject) && Conserved(s) && PassedOn(s, h) && s.handler.job.msg in s.marked
    ensures PassedOn(Next(c, s, Reject), Continued(c, s, h, Reject))
  {
    var m := s.handler.job.msg;
    hide Conserved, Without, Next, Enabled, ToRelease, HandlerHolds;
    AfterReject(c, s);
    NotReleased(s, m);
    OneMoreOut(s.released, h.dupes + h.rejected, m);
    assert h.dupes + (h.rejected + {m}) == h.dupes + h.rejected + {m};
  }

  lemma PassedRelease(c: Config, s: State, h: Story)
    requires Enabled(c, s, Release) && Conserved(s) && PassedOn(s, h)
    ensures PassedOn(Next(c, s, Release), Continued(c, s, h, Release))
  {
    hide Conserved, Without, Next, ToRelease, BatchHolds;
    var m := s.output.release[0];
    AfterRelease(c, s);
    NotReleased(s, m);
    OneMoreIn(s.released, h.dupes + h.rejected, m);
    assert ReleasedBySink(s, h) + ([m] + ToRelease(Next(c, s, Release)))
        == (ReleasedBySink(s, h) + [m]) + ToRelease(Next(c, s, Release));
  }

  lemma OneMoreIn(released: seq<nat>, out: set<nat>, m: nat)
    requires m !in released && forall x | x in out :: x in released
    ensures Without(released + [m], out) == Without(released, out) + [m]
    ensures forall x | x in out :: x in released + [m]
  {
    WithoutSnoc(released, m, out);
  }

  lemma PassedSink(c: Config, s: State, h: Story, outcome: Outcome)
    requires Enabled(c, s, Sink(outcome)) && PassedOn(s, h)
    ensures PassedOn(Next(c, s, Sink(outcome)), Continued(c, s, h, Sink(outcome)))
  {
    hide Msgs, Without;
  }

  lemma PassedOther(c: Config, s: State, h: Story, step: Step)
    requires Enabled(c, s, step) && PassedOn(s, h)
    requires !step.Dupe? && !step.Reject? && !step.Release? && !step.Sink?
    ensures PassedOn(Next(c, s, step), Continued(c, s, h, step))
  {
    hide Msgs, Without, Signals, AllReleased, ProcessJob;
    if step.Process? {
      JobStays(c, s, s.output.job);
    }
  }

  lemma PassedStep(c: Config, s: State, h: Story, step: Step)
    requires Enabled(c, s, step) && Conserved(s) && PassedOn(s, h)
    requires step.Reject? ==> s.handler.job.msg in s.marked
    ensures PassedOn(Next(c, s, step), Continued(c, s, h, step))
  {
    hide Next, Continued, PassedOn, Conserved;
    match step
    case Dupe => PassedDupe(c, s, h);
    case Reject => PassedReject(c, s, h);
    case Release => PassedRelease(c, s, h);
    case Sink(outcome) => PassedSink(c, s, h, outcome);
    case _ => PassedOther(c, s, h, step);
  }

  lemma BackTake(c: Config, s: State, h: Story)
    requires Enabled(c, s, Take) && SentBackInOrder(s, h)
    ensures SentBackInOrder(Next(c, s, Take), Continued(c, s, h, Take))
  {
    if |s.high| > 0 {
      assert s.high == [s.high[0]] + s.high[1..];
    }
  }

  lemma BackRequeue(c: Config, s: State, h: Story)
    requires Enabled(c, s, Requeue) && SentBackInOrder(s, h)
    ensures SentBackInOrder(Next(c, s, Requeue), Continued(c, s, h, Requeue))
  {
    hide Msgs, Signals;
    var requeue := s.output.requeue;
    assert requeue == [requeue[0]] + requeue[1..];
    assert (h.again + s.high) + requeue == (h.again + (s.high + [requeue[0]])) + requeue[1..];
  }

  lemma BackStep(c: Config, s: State, h: Story, step: Step)
    requires Enabled(c, s, step) && SentBackInOrder(s, h)
    ensures SentBackInOrder(Next(c, s, step), Continued(c, s, h, step))
  {
    hide Msgs, Signals, AllReleased, ProcessJob;
    match step
    case Take => BackTake(c, s, h);
    case Requeue => BackRequeue(c, s, h);
    case Process => JobStays(c, s, s.output.job);
    case _ =>
  }

  lemma LingerProcess(c: Config, s: State, h: Story)
    requires Enabled(c, s, Process) && BatchOk(c, s) && LingersOnce(c, s, h)
    ensures LingersOnce(c, Next(c, s, Process), Continued(c, s, h, Process))
  {
    hide Signals;
  }

  lemma LingerStep(c: Config, s: State, h: Story, step: Step)
    requires Enabled(c, s, step) && BatchOk(c, s) && LingersOnce(c, s, h)
    ensures LingersOnce(c, Next(c, s, step), Continued(c, s, h, step))
  {
    hide Msgs, Signals, AllReleased, ProcessJob;
    if step.Process? {
      LingerProcess(c, s, h);
    }
  }

  // ---------- every run ----------

  ghost predicate StoryOk(c: Config, s: State, h: Story) {
    PassedOn(s, h) && SentBackInOrder(s, h) && LingersOnce(c, s, h)
  }

  lemma StoryStep(c: Config, s: State, h: Story, step: Step)
    requires Enabled(c, s, step) && RoundInv(c, s) && StoryOk(c, s, h)
    ensures StoryOk(c, Next(c, s, step), Continued(c, s, h, step))
  {
    StoryNeeds(c, s, step);
    hide Next, Continued, PassedOn, SentBackInOrder, LingersOnce, RoundInv, Enabled;
    PassedStep(c, s, h, step);
    BackStep(c, s, h, step);
    LingerStep(c, s, h, step);
  }

  lemma StoryNeeds(c: Config, s: State, step: Step)
    requires Enabled(c, s, step) && RoundInv(c, s)
    ensures Conserved(s) && BatchOk(c, s) && (step.Reject? ==> s.handler.job.msg in s.marked)
  {
    hide Conserved, BatchOk, QueuesBounded, LoadBounded, SignalsLive, ClosedLast, Shutdown, RoundOk;
  }

  lemma StoryStarts(c: Config)
    ensures StoryOk(c, Init, Blank)
  {
  }

  lemma {:induction false} AllTold(c: Config, steps: seq<Step>)
    requires c.maxBatch > 0 && Exec(c, Init, steps).Some?
    ensures RoundInv(c, Exec(c, Init, steps).value)
    ensures StoryOk(c, Exec(c, Init, steps).value, Told(c, steps))
  {
    hide StoryOk, RoundInv, Next, Enabled, Continued;
    if |steps| == 0 {
      ReachesInit(c);
      StoryStarts(c);
    } else {
      var init := steps[..|steps| - 1];
      AllTold(c, init);
      StoryStep(c, Exec(c, Init, init).value, Told(c, init), steps[|steps| - 1]);
      RoundInvStep(c, Exec(c, Init, init).value, steps[|steps| - 1]);
    }
  }

  lemma ReachesInit(c: Config)
    requires c.maxBatch > 0
    ensures RoundInv(c, Init)
  {
    assert Exec(c, Init, []) == Some(Init);
    ReachableRound(c, Init);
  }

  lemma StoryMembers(s: State, h: Story, m: nat)
    requires Conserved(s) && PassedOn(s, h)
    ensures m in s.released <==> m in h.dupes || m in h.rejected || (m in h.passed && m !in ToRelease(s))
    ensures m in h.passed ==> m in s.released || m in BatchHolds(s)
  {
    WithoutIff(s.released, h.dupes + h.rejected, m);
    if m in ToRelease(s) {
      assert m in BatchHolds(s);
      NotReleased(s, m);
    }
    hide Conserved, Without;
    assert m in h.passed <==> m in ReleasedBySink(s, h) || m in ToRelease(s);
  }

  /** Over every run: a message is released exactly if it was a duplicate, was rejected as marked, or has
      come through the sink and its turn in the `finally` block has come; and the releases that are the
      sink's doing are in the order in which it was given the messages. */
  lemma ReleasedIff(c: Config, steps: seq<Step>, m: nat)
    requires c.maxBatch > 0 && Exec(c, Init, steps).Some?
    ensures var s, h := Exec(c, Init, steps).value, Told(c, steps);
            && (m in s.released <==> m in h.dupes || m in h.rejected || (m in h.passed && m !in ToRelease(s)))
            && (m in h.rejected ==> m in s.marked)
            && ReleasedBySink(s, h) + ToRelease(s) == h.passed
  {
    hide Told, RoundInv;
    AllTold(c, steps);
    ConservedHere(c, Exec(c, Init, steps).value);
    hide Conserved;
    StoryMembers(Exec(c, Init, steps).value, Told(c, steps), m);
  }

  lemma ConservedHere(c: Config, s: State)
    requires RoundInv(c, s)
    ensures Conserved(s)
  {
  }

  /** A message that has come through the sink is released or about to be, and nowhere else. */
  lemma PassedIsOver(c: Config, steps: seq<Step>, m: nat)
    requires c.maxBatch > 0 && Exec(c, Init, steps).Some? && m in Told(c, steps).passed
    ensures var s := Exec(c, Init, steps).value;
            && (m in s.released || m in ToRelease(s))
            && m !in InputHolds(s) && m !in s.low && m !in s.high && m !in HandlerHolds(s)
            && m !in Msgs(s.queue) && m !in OutputHolds(s) && m !in ToSendBack(s)
  {
    hide Told, RoundInv;
    AllTold(c, steps);
    var s, h := Exec(c, Init, steps).value, Told(c, steps);
    ConservedHere(c, s);
    StoryMembers(s, h, m);
    hide Msgs, Occurs, Without;
    InPassed(s, h, m);
    if m in s.released {
      ReleasedNowhereElse(s, m);
    } else {
      DueNowhereElse(s, m);
    }
  }

  lemma InPassed(s: State, h: Story, m: nat)
    requires Conserved(s) && PassedOn(s, h) && m in h.passed
    ensures m in s.released || m in ToRelease(s)
  {
    StoryMembers(s, h, m);
    hide Conserved;
    WithoutIff(s.released, h.dupes + h.rejected, m);
    assert m in ReleasedBySink(s, h) || m in ToRelease(s);
  }

  lemma DueNowhereElse(s: State, m: nat)
    requires Conserved(s) && m in ToRelease(s)
    ensures m !in InputHolds(s) && m !in s.low && m !in s.high && m !in HandlerHolds(s)
    ensures m !in Msgs(s.queue) && m !in OutputHolds(s) && m !in ToSendBack(s)
  {
    hide Msgs;
    OccursIff(InputHolds(s), m);
    OccursIff(s.low, m);
    OccursIff(s.high, m);
    OccursIff(HandlerHolds(s), m);
    OccursIff(Msgs(s.queue), m);
    OccursIff(OutputHolds(s), m);
    OccursIff(ToRelease(s), m);
    OccursIff(ToSendBack(s), m);
    OccursAppend(ToRelease(s), ToSendBack(s), m);
    assert Count(s, m) <= 1;
  }

  lemma {:induction false} ExecSplit(c: Config, steps: seq<Step>, more: seq<Step>)
    requires Exec(c, Init, steps + more).Some?
    ensures Exec(c, Init, steps).Some?
  {
    if more == [] {
      assert steps + more == steps;
    } else {
      assert (steps + more)[..|steps + more| - 1] == steps + more[..|more| - 1];
      ExecSplit(c, steps, more[..|more| - 1]);
    }
  }

  /** The story only ever goes on, and only the sink makes messages come through. */
  lemma {:induction false} ToldGrows(c: Config, steps: seq<Step>, more: seq<Step>)
    requires Exec(c, Init, steps + more).Some?
    ensures Exec(c, Init, steps).Some?
    ensures Told(c, steps).passed <= Told(c, steps + more).passed && Told(c, steps).back <= Told(c, steps + more).back
    ensures (forall i | 0 <= i < |more| :: !more[i].Sink?) ==> Told(c, steps + more).passed == Told(c, steps).passed
  {
    hide Next, Enabled, Continued;
    ExecSplit(c, steps, more);
    if more == [] {
      assert steps + more == steps;
    } else {
      var n := |more| - 1;
      var all := steps + more;
      assert all[..|all| - 1] == steps + more[..n] && all[|all| - 1] == more[n];
      ToldGrows(c, steps, more[..n]);
      var s, h := Exec(c, Init, steps + more[..n]).value, Told(c, steps + more[..n]);
      assert Told(c, all) == Continued(c, s, h, more[n]);
      ContinuedGrows(c, s, h, more[n]);
    }
  }

  lemma ContinuedGrows(c: Config, s: State, h: Story, step: Step)
    requires Enabled(c, s, step)
    ensures h.passed <= Continued(c, s, h, step).passed && h.back <= Continued(c, s, h, step).back
    ensures !step.Sink? ==> Continued(c, s, h, step).passed == h.passed
  {
    hide Msgs;
  }

  /** How many messages of the batch the outcome lets through. */
  function Through(s: State, outcome: Outcome): nat {
    if outcome.Delivered? then |s.batch| else outcome.index
  }

  /** When the output loop is back at waiting after a sink call, exactly the messages that came through have
      been released, in order: all of a delivered batch, of a refused one those in front of the conflict. */
  lemma BatchIsSettled(c: Config, steps: seq<Step>, outcome: Outcome, more: seq<Step>)
    requires c.maxBatch > 0 && Exec(c, Init, steps + [Sink(outcome)] + more).Some?
    requires Exec(c, Init, steps).Some? && Enabled(c, Exec(c, Init, steps).value, Sink(outcome))
    requires forall i | 0 <= i < |more| :: !more[i].Sink?
    requires !Exec(c, Init, steps + [Sink(outcome)] + more).value.output.Finishing?
    ensures var s, t := Exec(c, Init, steps).value, Exec(c, Init, steps + [Sink(outcome)] + more).value;
            && Through(s, outcome) <= |s.batch|
            && ReleasedBySink(t, Told(c, steps + [Sink(outcome)] + more))
                == ReleasedBySink(s, Told(c, steps)) + Msgs(s.batch[..Through(s, outcome)])
  {
    hide StoryOk, Msgs, Without, RoundInv, Enabled, Next, Told, Exec;
    var s, sunk := Exec(c, Init, steps).value, steps + [Sink(outcome)];
    ToldGrows(c, sunk, more);
    SinkTold(c, steps, outcome);
    ReleasedIff(c, sunk + more, 0);
    ReleasedIff(c, steps, 0);
    var t := Exec(c, Init, sunk + more).value;
    assert ReleasedBySink(s, Told(c, steps)) + [] == ReleasedBySink(s, Told(c, steps));
    assert ReleasedBySink(t, Told(c, sunk + more)) + [] == ReleasedBySink(t, Told(c, sunk + more));
  }

  lemma SinkTold(c: Config, steps: seq<Step>, outcome: Outcome)
    requires Exec(c, Init, steps).Some? && Enabled(c, Exec(c, Init, steps).value, Sink(outcome))
    ensures var s, sunk := Exec(c, Init, steps).value, steps + [Sink(outcome)];
            && Exec(c, Init, sunk).Some? && Through(s, outcome) <= |s.batch| && s.output.Sinking?
            && Told(c, sunk).passed == Told(c, steps).passed + Msgs(s.batch[..Through(s, outcome)])
            && Told(c, sunk).back == Told(c, steps).back + Msgs(s.batch[Through(s, outcome)..])
  {
    hide Msgs;
    var s, sunk := Exec(c, Init, steps).value, steps + [Sink(outcome)];
    assert sunk[..|sunk| - 1] == steps;
    if outcome.Delivered? {
      assert s.batch[..|s.batch|] == s.batch && s.batch[|s.batch|..] == [];
      assert Msgs([]) == [] by { OccursNone(0); }
    }
  }

  /** What was sent back comes to the handler again, in that order: the messages that the handler has taken
      from high priority, those that lie there, and those the `finally` block has still to enqueue are, one
      behind the other, those behind a conflict and those that were skipped. */
  lemma BackInOrder(c: Config, steps: seq<Step>)
    requires c.maxBatch > 0 && Exec(c, Init, steps).Some?
    ensures var s, h := Exec(c, Init, steps).value, Told(c, steps);
            h.again + s.high + ToSendBack(s) == h.back
  {
    hide Told, RoundInv, PassedOn, LingersOnce;
    AllTold(c, steps);
  }

  /** A batch is sent only when it is full or nothing is behind it, and below the minimum only after the loop
      has lingered over it, once. */
  lemma BatchIsSentWhenDue(c: Config, steps: seq<Step>)
    requires c.maxBatch > 0 && Exec(c, Init, steps).Some?
    ensures var s, h := Exec(c, Init, steps).value, Told(c, steps);
            && h.lingered <= 1 && (s.output.Lingering? ==> h.lingered == 0 && |s.batch| < c.minBatch)
            && (s.output.Sinking? ==> |s.batch| == c.maxBatch || |s.batch| >= c.minBatch || h.lingered == 1)
            && (s.output.Sinking? ==> |s.batch| == c.maxBatch || h.behind == 0)
  {
    hide Told, RoundInv, PassedOn, SentBackInOrder;
    AllTold(c, steps);
  }
}
