/**
 The two capacity bounds. Both reads they depend on may fail and then count as zero; each failure weakens
 the bound by a fixed amount and nothing else does.
 */
module Bounds {
  import opened Records
  import opened Database
  import opened Transactions
  import opened Machine
  import opened Conservation

  lemma {:induction false} SubsetSize<T>(a: set<T>, b: set<T>)
    requires a <= b
    ensures |a| <= |b|
    decreases a
  {
    if a != {} {
      var x :| x in a;
      SubsetSize(a - {x}, b - {x});
    }
  }

  // ---------------------------------------------------------------- admission

  /** Live rows ever admitted to the pending queue, with the one the sweep is about to admit. */
  ghost function AdmittedLive(s: State): set<int> {
    (s.past.admitted + if s.sweeper.phase.Admitting? then {s.sweeper.phase.task.id} else {}) * s.db.live.Keys
  }

  ghost predicate AdmissionBound(s: State) {
    |AdmittedLive(s)| <= MAX_FREE_VMS - 1 + s.past.failedCounts
  }

  lemma CountAdmission(s: State, read: bool)
    requires Inv(s) && AdmissionBound(s) && SweepEnabled(s, Count(read))
    ensures AdmissionBound(SweepApply(s, Count(read)))
  {
    var s' := SweepApply(s, Count(read));
    var x := s.sweeper.batch[0].id;
    if read && s'.sweeper.phase.Admitting? {
      SubsetSize(AdmittedLive(s'), s.db.live.Keys);
    } else {
      SubsetSize(AdmittedLive(s'), AdmittedLive(s) + if read then {} else {x});
    }
  }

  lemma UpdateAdmission(s: State)
    requires AdmissionBound(s) && SweepEnabled(s, Update)
    ensures AdmissionBound(SweepApply(s, Update))
  {
    assert AdmittedLive(SweepApply(s, Update)) == AdmittedLive(s);
  }

  lemma HeadAdmission(s: State, step: SweepStep)
    requires AdmissionBound(s) && SweepEnabled(s, step)
    requires step.Fetch? || step.Flagged? || step.Malicious? || step.Reject? || step.Resume?
    ensures AdmissionBound(SweepApply(s, step))
  {
    var s' := SweepApply(s, step);
    assert s'.db == s.db && s'.past == s.past && !s'.sweeper.phase.Admitting? && !s.sweeper.phase.Admitting?;
  }

  lemma AdmitAdmission(s: State, pushed: bool)
    requires AdmissionBound(s) && SweepEnabled(s, Admit(pushed))
    ensures AdmissionBound(SweepApply(s, Admit(pushed)))
  {
    SubsetSize(AdmittedLive(SweepApply(s, Admit(pushed))), AdmittedLive(s));
  }

  lemma SweepAdmission(s: State, step: SweepStep)
    requires Inv(s) && AdmissionBound(s) && SweepEnabled(s, step)
    ensures AdmissionBound(SweepApply(s, step))
  {
    match step
    case Fetch(_) | Flagged(_) | Malicious(_, _) | Reject(_) | Resume(_) => HeadAdmission(s, step);
    case Count(read) => CountAdmission(s, read);
    case Admit(pushed) => AdmitAdmission(s, pushed);
    case Update => UpdateAdmission(s);
  }

  /** New live rows, submitted or promoted, were never admitted before. */
  lemma RowsAdmission(s: State, s': State)
    requires Inv(s) && AdmissionBound(s)
    requires s'.sweeper == s.sweeper && s'.past == s.past
    requires forall id | id in s'.db.live && id !in s.db.live :: id !in Known(s.db)
    ensures AdmissionBound(s')
  {
    AdmittedKnown(s);
    forall id | id in AdmittedLive(s') ensures id in AdmittedLive(s) {
      assert id in s'.db.live.Keys;
    }
    SubsetSize(AdmittedLive(s'), AdmittedLive(s));
  }

  lemma AdmittedKnown(s: State)
    requires Inv(s)
    ensures s.past.admitted <= Known(s.db)
    ensures s.sweeper.phase.Admitting? ==> s.sweeper.phase.task.id in Known(s.db)
  {
  }

  lemma FailureFrame(s: State, task: Task, requeued: bool, pushed: bool)
    requires PendingEnabled(s, RouteFailure(task, requeued, pushed))
    ensures var s' := PendingApply(s, RouteFailure(task, requeued, pushed));
            s'.sweeper == s.sweeper && s'.past == s.past && s'.db.live.Keys == s.db.live.Keys
  {
    var route := RouteOf(task, requeued);
    assert route.GiveUp? || route.Requeue? || route.SendBack?;
  }

  /** The pending handler touches neither the sweep nor the set of live rows. */
  lemma PendingFrame(s: State, step: PendingStep)
    requires PendingEnabled(s, step)
    ensures var s' := PendingApply(s, step);
            && s'.sweeper == s.sweeper && s'.db.live.Keys == s.db.live.Keys
            && s'.past.admitted == s.past.admitted && s'.past.failedCounts == s.past.failedCounts
  {
    if step.RouteFailure? {
      FailureFrame(s, step.task, step.requeued, step.pushed);
    }
  }

  lemma PendingAdmission(s: State, step: PendingStep)
    requires AdmissionBound(s) && PendingEnabled(s, step)
    ensures AdmissionBound(PendingApply(s, step))
  {
    PendingFrame(s, step);
    assert AdmittedLive(PendingApply(s, step)) == AdmittedLive(s);
  }

  lemma RunningFrame(s: State, step: RunningStep)
    requires RunningEnabled(s, step)
    ensures var s' := RunningApply(s, step);
            s'.sweeper == s.sweeper && s'.past == s.past && s'.db.live.Keys == s.db.live.Keys
  {
  }

  lemma RunningAdmission(s: State, step: RunningStep)
    requires AdmissionBound(s) && RunningEnabled(s, step)
    ensures AdmissionBound(RunningApply(s, step))
  {
    RunningFrame(s, step);
    assert AdmittedLive(RunningApply(s, step)) == AdmittedLive(s);
  }

  lemma LogFrame(s: State, step: LogStep)
    requires Inv(s) && LogEnabled(s, step)
    ensures var s' := LogApply(s, step);
            && s'.sweeper == s.sweeper && s'.past == s.past
            && forall id | id in s'.db.live && id !in s.db.live :: id in s.db.dups
  {
  }

  lemma LogAdmission(s: State, step: LogStep)
    requires Inv(s) && AdmissionBound(s) && LogEnabled(s, step)
    ensures AdmissionBound(LogApply(s, step))
  {
    LogFrame(s, step);
    DuplicatesAreNew(s.db);
    RowsAdmission(s, LogApply(s, step));
  }

  lemma DuplicatesAreNew(db: Db)
    requires TablesOk(db)
    ensures forall id | id in db.dups :: id !in Known(db)
  {
  }

  lemma WorldAdmission(s: State, step: WorldStep)
    requires AdmissionBound(s) && WorldEnabled(s, step)
    ensures AdmissionBound(WorldApply(s, step))
  {
    var s' := WorldApply(s, step);
    assert s'.db.live.Keys == s.db.live.Keys;
    SubsetSize(AdmittedLive(s'), AdmittedLive(s));
  }

  lemma AskFrame(s: State, step: AskStep)
    requires Inv(s) && AskEnabled(s, step)
    ensures var s' := AskApply(s, step);
            && s'.sweeper == s.sweeper && s'.past == s.past
            && forall id | id in s'.db.live && id !in s.db.live :: id !in Known(s.db)
  {
    if step.Insert? && Accepts(s.db, EntryOf(step.asking)) {
      assert AskingOk(step.asking);
      EnterKeeps(s.db, step.asking);
    }
  }

  lemma AskAdmission(s: State, step: AskStep)
    requires Inv(s) && AdmissionBound(s) && AskEnabled(s, step)
    ensures AdmissionBound(AskApply(s, step))
  {
    AskFrame(s, step);
    RowsAdmission(s, AskApply(s, step));
  }

  lemma StepAdmission(s: State, step: Step)
    requires Inv(s) && AdmissionBound(s) && Enabled(s, step)
    ensures AdmissionBound(Apply(s, step))
  {
    match step
    case Ask(r) => AskAdmission(s, r);
    case Sweep(w) => SweepAdmission(s, w);
    case Pend(p) => PendingAdmission(s, p);
    case Watch(w) => RunningAdmission(s, w);
    case Log(g) => LogAdmission(s, g);
    case Outside(o) => WorldAdmission(s, o);
  }

  // ---------------------------------------------------------------- sandbox overshoot

  /** Unreported sandbox tasks, sends not yet made, the batch not yet started and what may still be taken. */
  ghost function Load(s: State): nat {
    |UnreportedIds(s.world.sandbox)| + |s.pender.sending| + |s.pender.batch| + s.pender.quota
  }

  ghost predicate LoadBound(s: State) {
    && |s.pender.sending| + |s.pender.returned| <= MAX_CONCURRENT_SENDS
    && Load(s) <= MAX_FREE_VMS + MAX_CONCURRENT_SENDS + MAX_FREE_VMS * s.past.failedPolls
  }

  lemma SendLoad(s: State, task: Task, created: bool)
    requires LoadBound(s) && PendingEnabled(s, Send(task, created))
    ensures LoadBound(PendingApply(s, Send(task, created)))
  {
    var s' := PendingApply(s, Send(task, created));
    if created {
      var k := s.world.nextId;
      assert UnreportedIds(s'.world.sandbox) <= UnreportedIds(s.world.sandbox) + {k};
      SubsetSize(UnreportedIds(s'.world.sandbox), UnreportedIds(s.world.sandbox) + {k});
    }
  }

  /** Posting a message or flagging a row does not touch the goroutines or the sandbox. */
  lemma PostLoad(s: State, t: Task, status: Status, pushed: bool)
    ensures LoadBound(Post(s, t, status, pushed)) <==> LoadBound(s)
  {
  }

  lemma RouteLoad(s: State, task: Task, requeued: bool, pushed: bool)
    requires LoadBound(s) && PendingEnabled(s, RouteFailure(task, requeued, pushed))
    ensures LoadBound(PendingApply(s, RouteFailure(task, requeued, pushed)))
  {
    var s' := Land(s, SendFailed(task));
    assert LoadBound(s');
    match RouteOf(task, requeued)
    case GiveUp(t) => PostLoad(s', t, Aborted, pushed);
    case _ =>
  }

  lemma StartLoad(s: State, timeout: int, pushed: bool)
    requires LoadBound(s) && PendingEnabled(s, Start(timeout, pushed))
    ensures LoadBound(PendingApply(s, Start(timeout, pushed)))
  {
    if PendingExpired(s.pender.batch[0], timeout, s.world.now) {
      PostLoad(s.(pender := s.pender.(batch := s.pender.batch[1..])), s.pender.batch[0], Aborted, pushed);
    }
  }

  lemma PendingLoad(s: State, step: PendingStep)
    requires LoadBound(s) && PendingEnabled(s, step)
    ensures LoadBound(PendingApply(s, step))
  {
    match step
    case Poll(_) | TakePending | CloseBatch =>
    case Start(timeout, pushed) => StartLoad(s, timeout, pushed);
    case Send(task, created) => SendLoad(s, task, created);
    case RouteFailure(task, requeued, pushed) => RouteLoad(s, task, requeued, pushed);
    case RouteCreated(_, _) =>
    case RouteStatus(f, pushed) =>
      PostLoad(Land(s, f), f.task, if f.Queued? then RunningInQueue else RunningNotInQueue, pushed);
  }

  lemma StepLoad(s: State, step: Step)
    requires LoadBound(s) && Enabled(s, step)
    ensures LoadBound(Apply(s, step))
  {
    match step
    case Pend(p) => PendingLoad(s, p);
    case Outside(o) =>
      var s' := Apply(s, step);
      assert UnreportedIds(s'.world.sandbox) <= UnreportedIds(s.world.sandbox);
      SubsetSize(UnreportedIds(s'.world.sandbox), UnreportedIds(s.world.sandbox));
    case Watch(w) =>
      var s' := Apply(s, step);
      assert s'.pender == s.pender && s'.world == s.world && s'.past == s.past;
    case _ =>
  }

  // ---------------------------------------------------------------- every run

  lemma {:induction false} RunBounds(s: State, steps: seq<Step>)
    requires Inv(s) && AdmissionBound(s) && LoadBound(s) && CanRun(s, steps)
    ensures AdmissionBound(Run(s, steps)) && LoadBound(Run(s, steps))
    decreases |steps|
  {
    if steps != [] {
      StepKeeps(s, steps[0]);
      StepAdmission(s, steps[0]);
      StepLoad(s, steps[0]);
      RunBounds(Apply(s, steps[0]), steps[1..]);
    }
  }

  /** Live rows that left the first status. */
  ghost function StartedRows(db: Db): set<int> {
    set id | id in db.live && db.live[id].status != PendingNotInQueue
  }

  lemma StartedWereAdmitted(s: State)
    requires RowsOk(s.db, s.past.admitted)
    ensures StartedRows(s.db) <= s.past.admitted * s.db.live.Keys
  {
    assert forall id | id in StartedRows(s.db) :: RowOk(s.db.live[id], id in s.past.admitted);
  }

  lemma ReachableBounds(s: State)
    requires Reachable(s)
    ensures RowsOk(s.db, s.past.admitted) && AdmissionBound(s) && LoadBound(s)
  {
    var signatures, steps :| CanRun(Init(signatures), steps) && Run(Init(signatures), steps) == s;
    RunBounds(Init(signatures), steps);
    ReachableInv(s);
  }

  /**
   At most four live rows were ever admitted, hence at most four have left "pending not in queue"; every live
   count that failed and was taken for zero may add one.
   */
  lemma AdmissionTheorem(s: State)
    requires Reachable(s)
    ensures |s.past.admitted * s.db.live.Keys| <= MAX_FREE_VMS - 1 + s.past.failedCounts
    ensures |StartedRows(s.db)| <= MAX_FREE_VMS - 1 + s.past.failedCounts
  {
    ReachableBounds(s);
    StartedWereAdmitted(s);
    SubsetSize(s.past.admitted * s.db.live.Keys, AdmittedLive(s));
    SubsetSize(StartedRows(s.db), s.past.admitted * s.db.live.Keys);
  }

  /**
   Unreported sandbox tasks and sends on their way stay at or below 55 although the handler does not wait for a
   batch to finish; every sandbox listing that failed and was taken for empty may add five.
   */
  lemma OvershootTheorem(s: State)
    requires Reachable(s)
    ensures |UnreportedIds(s.world.sandbox)| + |s.pender.sending| + |s.pender.batch| + s.pender.quota
            <= 55 + 5 * s.past.failedPolls
    ensures |s.pender.sending| + |s.pender.returned| <= 50
    ensures forall timeout | s.pender.quota == 0 && s.pender.batch != []
              && !PendingExpired(s.pender.batch[0], timeout, s.world.now) ::
              Enabled(s, Pend(Start(timeout, false))) <==> |s.pender.sending| + |s.pender.returned| < 50
  {
    ReachableBounds(s);
  }
}
