/** Orderly runs, in which no live task is ever forgotten. */
module OrderlyRuns {
  import opened Records
  import opened Database
  import opened Transactions
  import opened Machine
  import opened Conservation
  import opened Fates
  import opened Safety
  import opened NoStranding

  /** The log queue takes every message of the step. */
  predicate LogAccepts(step: Step) {
    match step
    case Pend(p) =>
      (match p case Start(_, b) => b case RouteFailure(_, _, b) => b case RouteStatus(_, b) => b case _ => true)
    case Watch(w) => (match w case Check(_, b) => b case Owe(b) => b case _ => true)
    case _ => true
  }

  /**
   The log queue has room for the workers' messages, the sweep marks a row directly after its push to a work
   queue, and a goroutine sends "running in queue" directly after its push to the running queue. Nothing else is
   kept together.
   */
  ghost predicate OrderlyStep(s: State, step: Step) {
    && LogAccepts(step)
    && (s.sweeper.phase.Marking? ==> step == Sweep(Update))
    && ((exists f :: f in s.pender.returned && f.Queued?) ==>
          step.Pend? && step.pend.RouteStatus? && step.pend.flight.Queued?)
  }

  ghost predicate Orderly(s: State, steps: seq<Step>)
    requires CanRun(s, steps)
    decreases |steps|
  {
    steps != [] ==> OrderlyStep(s, steps[0]) && Orderly(Apply(s, steps[0]), steps[1..])
  }

  /** What was just pushed is still there. */
  ghost predicate JustPushed(s: State) {
    && (s.sweeper.phase.Marking? ==> s.sweeper.phase.id in WorkIds(s))
    && forall f | f in s.pender.returned && f.Queued? :: f.task.id in TaskIds(s.ch.running)
  }

  lemma OrderlyUpdate(s: State)
    requires NothingStranded(s, false) && SweepEnabled(s, Update) && JustPushed(s)
    ensures !Strands(s, Sweep(Update), false)
  {
    var s' := SweepApply(s, Update);
    var id := s.sweeper.phase.id;
    assert WorkIds(s') == WorkIds(s);
    if s.sweeper.phase.Clearing? && id in s.db.live && id !in WorkIds(s) {
      assert Safe(s, id, false);
      SettleFlag(s.db.live[id].status, s.db.live[id].logQueueFailed, false, id, Pending(s));
    }
  }

  lemma OrderlyPending(s: State, step: PendingStep)
    requires PendingEnabled(s, step) && JustPushed(s) && LogAccepts(Pend(step))
    ensures !Strands(s, Pend(step), false)
  {
    if step.RouteStatus? && step.flight.Queued? {
      assert PendingApply(s, step).ch.running == s.ch.running;
    }
  }

  lemma OrderlyExactly(s: State, step: Step)
    requires NothingStranded(s, false) && Enabled(s, step) && JustPushed(s) && OrderlyStep(s, step)
    ensures !Strands(s, step, false)
  {
    match step
    case Sweep(w) => if w.Update? { OrderlyUpdate(s); }
    case Pend(p) => OrderlyPending(s, p);
    case Watch(w) =>
    case _ =>
  }

  lemma PushedBySweep(s: State, step: SweepStep)
    requires SweepEnabled(s, step) && JustPushed(s)
    ensures JustPushed(SweepApply(s, step))
  {
    if step.Admit? {
      TaskIdsSnoc(s.ch.pending, s.sweeper.phase.task.(status := PendingInQueue));
    } else if step.Resume? {
      TaskIdsSnoc(s.ch.running, s.sweeper.batch[0].(runningStartedAt := s.world.now, status := RunningInQueue));
    }
  }

  lemma PushedByPending(s: State, step: PendingStep)
    requires PendingEnabled(s, step) && JustPushed(s) && OrderlyStep(s, Pend(step))
    ensures JustPushed(PendingApply(s, step))
  {
    var s' := PendingApply(s, step);
    assert s'.sweeper == s.sweeper && (step.RouteStatus? ==> s'.ch.running == s.ch.running) by {
      if step.RouteFailure? {
        var route := RouteOf(step.task, step.requeued);
        assert route.GiveUp? || route.Requeue? || route.SendBack?;
      }
    }
    if step.RouteCreated? {
      TaskIdsSnoc(s.ch.running, step.task);
    }
    forall f | f in s'.pender.returned && f.Queued? ensures f.task.id in TaskIds(s'.ch.running) {
      QueuedFrom(s, step, f);
    }
  }

  /** A goroutine between its two pushes was there before, or the step made it. */
  lemma QueuedFrom(s: State, step: PendingStep, f: Flight)
    requires PendingEnabled(s, step) && f in PendingApply(s, step).pender.returned && f.Queued?
    ensures f in s.pender.returned || (step.RouteCreated? && f == Queued(step.task))
  {
    if step.RouteFailure? {
      var route := RouteOf(step.task, step.requeued);
      assert route.GiveUp? || route.Requeue? || route.SendBack?;
    }
  }

  lemma PushedByRunning(s: State, step: RunningStep)
    requires RunningEnabled(s, step) && JustPushed(s) && OrderlyStep(s, Watch(step))
    ensures JustPushed(RunningApply(s, step))
  {
    var s' := RunningApply(s, step);
    assert s'.sweeper == s.sweeper && s'.pender == s.pender;
  }

  /** Nothing that was pushed is touched. */
  lemma PushedStays(s: State, s': State)
    requires JustPushed(s) && s'.sweeper.phase == s.sweeper.phase && s'.pender == s.pender
    requires s'.ch.pending == s.ch.pending && s'.ch.running == s.ch.running && s'.runner.batch == s.runner.batch
    ensures JustPushed(s')
  {
  }

  lemma PushedByRequests(s: State, step: AskStep)
    requires AskEnabled(s, step) && JustPushed(s)
    ensures JustPushed(AskApply(s, step))
  {
    PushedStays(s, AskApply(s, step));
  }

  lemma PushedByLog(s: State, step: LogStep)
    requires LogEnabled(s, step) && JustPushed(s)
    ensures JustPushed(LogApply(s, step))
  {
    PushedStays(s, LogApply(s, step));
  }

  lemma PushedByWorld(s: State, step: WorldStep)
    requires WorldEnabled(s, step) && JustPushed(s)
    ensures JustPushed(WorldApply(s, step))
  {
    if !step.Crash? {
      PushedStays(s, WorldApply(s, step));
    }
  }

  lemma PushedKeeps(s: State, step: Step)
    requires Enabled(s, step) && JustPushed(s) && OrderlyStep(s, step)
    ensures JustPushed(Apply(s, step))
  {
    match step
    case Sweep(w) => PushedBySweep(s, w);
    case Pend(p) => PushedByPending(s, p);
    case Watch(w) => PushedByRunning(s, w);
    case Ask(r) => PushedByRequests(s, r);
    case Log(g) => PushedByLog(s, g);
    case Outside(o) => PushedByWorld(s, o);
  }

  lemma {:induction false} OrderlyNoneStrands(s: State, steps: seq<Step>)
    requires Inv(s) && NothingStranded(s, false) && JustPushed(s) && CanRun(s, steps) && Orderly(s, steps)
    ensures NoneStrands(s, steps, false)
    decreases |steps|
  {
    if steps != [] {
      OrderlyExactly(s, steps[0]);
      StepExactly(s, steps[0], false);
      StepKeeps(s, steps[0]);
      PushedKeeps(s, steps[0]);
      OrderlyNoneStrands(Apply(s, steps[0]), steps[1..]);
    }
  }

  /**
   From the empty pipeline, or from the restart after a crash in any reachable state, no orderly run ever strands
   a live task, and flags are not even needed for it.
   */
  lemma NoStrandingTheorem(start: State, steps: seq<Step>)
    requires Begins(start) && CanRun(start, steps) && Orderly(start, steps)
    ensures NeverStranded(start, steps, false)
  {
    BeginsSafe(start, false);
    OrderlyNoneStrands(start, steps);
    RunExactly(start, steps, false);
  }
}
