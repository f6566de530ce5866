/**
 No live task is forgotten: every live row is safe. The code does not always keep this. The main theorem says of
 every fine-grained step, with full channels, lost pushes and crashes, exactly when it strands a task: only a late
 row update of the sweep, a late "running in queue" message, and a row written because the log queue was full can do
 it, each under a condition on that one task.
 */
module NoStranding {
  import opened Records
  import opened Database
  import opened Transactions
  import opened Machine
  import opened Conservation
  import opened Fates
  import opened Safety

  // ---------------------------------------------------------------- the sweep

  lemma SweepLogExactly(s: State, s': State, status: Status, pushed: bool, trust: bool)
    requires NothingStranded(s, trust) && s.sweeper.batch != [] && (Terminal(status) || NotInQueue(status))
    requires s' == SweepToLog(s.(past := s'.past), status, pushed)
    ensures NothingStranded(s', trust)
  {
    if pushed {
      var m := s.sweeper.batch[0].(status := status);
      assert Pending(s') == Pending(s) + [m];
      AboutOne(s, s', m.id, [m], trust);
      if m.id in s.db.live {
        SettleSnoc(RowOutcome(s.db.live[m.id]), m.id, Pending(s), m);
      }
    } else {
      MoveSafe(s, s', trust);
    }
  }

  lemma SweepHeadExactly(s: State, step: SweepStep, trust: bool)
    requires Inv(s) && NothingStranded(s, trust) && SweepEnabled(s, step)
    requires step.Flagged? || step.Malicious? || step.Reject?
    ensures NothingStranded(SweepApply(s, step), trust)
  {
    var t := s.sweeper.batch[0];
    assert t in s.sweeper.batch && SweptOk(LedgerOf(s.db, s.past.admitted), t);
    var s' := SweepApply(s, step);
    match step
    case Flagged(pushed) => SweepLogExactly(s, s', FlaggedStatus(t.status), pushed, trust);
    case Malicious(through, pushed) => SweepLogExactly(s, s', through, pushed, trust);
    case Reject(pushed) => SweepLogExactly(s, s', Aborted, pushed, trust);
  }

  lemma SweepPushExactly(s: State, step: SweepStep, trust: bool)
    requires NothingStranded(s, trust) && SweepEnabled(s, step) && (step.Admit? || step.Resume?)
    ensures NothingStranded(SweepApply(s, step), trust)
  {
    if step.Admit? {
      TaskIdsSnoc(s.ch.pending, s.sweeper.phase.task.(status := PendingInQueue));
    } else {
      TaskIdsSnoc(s.ch.running, s.sweeper.batch[0].(runningStartedAt := s.world.now, status := RunningInQueue));
    }
    MoveSafe(s, SweepApply(s, step), trust);
  }

  lemma UpdateExactly(s: State, trust: bool)
    requires NothingStranded(s, trust) && SweepEnabled(s, Update)
    ensures var s' := SweepApply(s, Update);
            NothingStranded(s', trust) <==> !Endangered(s, s', UpdateRisk(s.db, s.sweeper.phase), trust)
  {
    var s' := SweepApply(s, Update);
    assert Pending(s') == Pending(s) + [];
    AboutOne(s, s', s.sweeper.phase.id, [], trust);
  }

  lemma SweepExactly(s: State, step: SweepStep, trust: bool)
    requires Inv(s) && NothingStranded(s, trust) && SweepEnabled(s, step)
    ensures NothingStranded(SweepApply(s, step), trust) <==> !Strands(s, Sweep(step), trust)
  {
    if step.Update? {
      UpdateExactly(s, trust);
    } else {
      SweepSafe(s, step, trust);
    }
  }

  lemma SweepSafe(s: State, step: SweepStep, trust: bool)
    requires Inv(s) && NothingStranded(s, trust) && SweepEnabled(s, step) && !step.Update?
    ensures NothingStranded(SweepApply(s, step), trust)
  {
    match step
    case Fetch(_) | Count(_) => MoveSafe(s, SweepApply(s, step), trust);
    case Flagged(_) | Malicious(_, _) | Reject(_) => SweepHeadExactly(s, step, trust);
    case Admit(_) | Resume(_) => SweepPushExactly(s, step, trust);
  }

  // ---------------------------------------------------------------- the pending handler

  lemma StartExactly(s: State, timeout: int, pushed: bool, trust: bool)
    requires NothingStranded(s, trust) && PendingEnabled(s, Start(timeout, pushed))
    ensures NothingStranded(PendingApply(s, Start(timeout, pushed)), trust)
       <==> !Strands(s, Pend(Start(timeout, pushed)), trust)
  {
    var t := s.pender.batch[0];
    TaskIdsHead(s.pender.batch);
    if PendingExpired(t, timeout, s.world.now) {
      PostExactly(s, s.(pender := s.pender.(batch := s.pender.batch[1..])), t, Aborted, pushed, trust);
    } else {
      SendIdsAdd(s.pender.sending, t);
      MoveSafe(s, PendingApply(s, Start(timeout, pushed)), trust);
    }
  }

  lemma SendSafe(s: State, task: Task, created: bool, trust: bool)
    requires NothingStranded(s, trust) && PendingEnabled(s, Send(task, created))
    ensures NothingStranded(PendingApply(s, Send(task, created)), trust)
  {
    SendIdsTake(s.pender.sending, task);
    var f := if created then Created(task.(sandboxId := s.world.nextId, runningStartedAt := s.world.now))
             else SendFailed(task);
    FlightIdsAdd(s.pender.returned, f);
    MoveSafe(s, PendingApply(s, Send(task, created)), trust);
  }

  lemma LandedIds(s: State, f: Flight)
    requires f in s.pender.returned
    ensures WorkIds(s) == WorkIds(Land(s, f)) + {f.task.id}
  {
    FlightIdsLand(s.pender.returned, f);
  }

  lemma FailureExactly(s: State, task: Task, requeued: bool, pushed: bool, trust: bool)
    requires NothingStranded(s, trust) && PendingEnabled(s, RouteFailure(task, requeued, pushed))
    ensures NothingStranded(PendingApply(s, RouteFailure(task, requeued, pushed)), trust)
       <==> !Strands(s, Pend(RouteFailure(task, requeued, pushed)), trust)
  {
    var used := Land(s, SendFailed(task));
    LandedIds(s, SendFailed(task));
    var route := RouteOf(task, requeued);
    assert route.task.id == task.id;
    match route
    case GiveUp(t) => PostExactly(s, used, t, Aborted, pushed, trust);
    case Requeue(t) =>
      TaskIdsSnoc(s.ch.pending, t);
      MoveSafe(s, used.(ch := s.ch.(pending := s.ch.pending + [t])), trust);
    case SendBack(t) =>
      if pushed {
        MessageExactly(s, used, t.(status := PendingNotInQueue), trust);
      } else {
        RowWriteExactly(s, used, t.(status := PendingNotInQueue, logQueueFailed := true), trust);
      }
  }

  lemma RouteCreatedSafe(s: State, task: Task, queued: bool, trust: bool)
    requires NothingStranded(s, trust) && PendingEnabled(s, RouteCreated(task, queued))
    ensures NothingStranded(PendingApply(s, RouteCreated(task, queued)), trust)
  {
    var next := if queued then Queued(task) else Refused(task);
    FlightIdsLand(s.pender.returned, Created(task));
    FlightIdsAdd(s.pender.returned - multiset{Created(task)}, next);
    TaskIdsSnoc(s.ch.running, task);
    MoveSafe(s, PendingApply(s, RouteCreated(task, queued)), trust);
  }

  lemma RouteStatusExactly(s: State, f: Flight, pushed: bool, trust: bool)
    requires NothingStranded(s, trust) && PendingEnabled(s, RouteStatus(f, pushed))
    ensures NothingStranded(PendingApply(s, RouteStatus(f, pushed)), trust)
       <==> !Strands(s, Pend(RouteStatus(f, pushed)), trust)
  {
    LandedIds(s, f);
    PostExactly(s, Land(s, f), f.task, if f.Queued? then RunningInQueue else RunningNotInQueue, pushed, trust);
  }

  lemma PendingExactly(s: State, step: PendingStep, trust: bool)
    requires NothingStranded(s, trust) && PendingEnabled(s, step)
    ensures NothingStranded(PendingApply(s, step), trust) <==> !Strands(s, Pend(step), trust)
  {
    match step
    case Poll(_) | CloseBatch => MoveSafe(s, PendingApply(s, step), trust);
    case TakePending =>
      TaskIdsHead(s.ch.pending);
      TaskIdsSnoc(s.pender.batch, s.ch.pending[0]);
      MoveSafe(s, PendingApply(s, step), trust);
    case Start(timeout, pushed) => StartExactly(s, timeout, pushed, trust);
    case Send(task, created) => SendSafe(s, task, created, trust);
    case RouteFailure(task, requeued, pushed) => FailureExactly(s, task, requeued, pushed, trust);
    case RouteCreated(task, queued) => RouteCreatedSafe(s, task, queued, trust);
    case RouteStatus(f, pushed) => RouteStatusExactly(s, f, pushed, trust);
  }

  // ---------------------------------------------------------------- the running handler

  lemma CheckExactly(s: State, timeout: int, pushed: bool, trust: bool)
    requires NothingStranded(s, trust) && RunningEnabled(s, Check(timeout, pushed))
    ensures NothingStranded(RunningApply(s, Check(timeout, pushed)), trust)
       <==> !Strands(s, Watch(Check(timeout, pushed)), trust)
  {
    var t := s.runner.batch[0];
    var used := s.(runner := s.runner.(batch := s.runner.batch[1..]));
    TaskIdsHead(s.runner.batch);
    match CheckTask(t, s.runner.snapshot, timeout, s.world.now)
    case Finish(status) => PostExactly(s, used, t, status, pushed, trust);
    case Exhausted =>
      PostExactly(s, used.(runner := used.runner.(owed := Some(Retried(t)))), Retried(t), Aborted, pushed, trust);
    case Lost => PostExactly(s, used, Retried(t), RunningNotInQueue, pushed, trust);
    case KeepWaiting =>
      if Room(s.ch.running) {
        TaskIdsSnoc(s.ch.running, t);
        MoveSafe(s, RunningApply(s, Check(timeout, pushed)), trust);
      } else {
        PostExactly(s, used, t, RunningNotInQueue, pushed, trust);
      }
  }

  lemma OweExactly(s: State, pushed: bool, trust: bool)
    requires NothingStranded(s, trust) && RunningEnabled(s, Owe(pushed))
    ensures NothingStranded(RunningApply(s, Owe(pushed)), trust) <==> !Strands(s, Watch(Owe(pushed)), trust)
  {
    PostExactly(s, s.(runner := s.runner.(owed := None)), s.runner.owed.value, RunningNotInQueue, pushed, trust);
  }

  lemma RunningExactly(s: State, step: RunningStep, trust: bool)
    requires NothingStranded(s, trust) && RunningEnabled(s, step)
    ensures NothingStranded(RunningApply(s, step), trust) <==> !Strands(s, Watch(step), trust)
  {
    match step
    case List => MoveSafe(s, RunningApply(s, step), trust);
    case TakeRunning =>
      TaskIdsHead(s.ch.running);
      TaskIdsSnoc(s.runner.batch, s.ch.running[0]);
      MoveSafe(s, RunningApply(s, step), trust);
    case Check(timeout, pushed) => CheckExactly(s, timeout, pushed, trust);
    case Owe(pushed) => OweExactly(s, pushed, trust);
  }

  // ---------------------------------------------------------------- the log handler

  /** Rows that appear have no messages; the rows that stay saw exactly the first message applied. */
  lemma ConsumeSafe(s: State, s': State, m: Task, rest: seq<Task>, trust: bool)
    requires Inv(s) && NothingStranded(s, trust)
    requires Pending(s) == [m] + rest && Pending(s') == rest
    requires WorkIds(s') == WorkIds(s)
    requires forall id | id in s'.db.live && id in s.db.live ::
               RowOutcome(s'.db.live[id]) == After(RowOutcome(s.db.live[id]), id, m)
    requires forall id | id in s'.db.live && id !in s.db.live ::
               id !in Known(s.db) && s'.db.live[id].status == PendingNotInQueue
    ensures NothingStranded(s', trust)
  {
    forall id | id in s'.db.live ensures Safe(s', id, trust) {
      if id in s.db.live {
        assert Safe(s, id, trust);
        assert ([m] + rest)[1..] == rest;
      } else {
        MessagesKnown(s);
        SettleForeign(RowOutcome(s'.db.live[id]), id, rest);
      }
    }
  }

  lemma MessagesKnown(s: State)
    requires Inv(s)
    ensures forall m | m in Pending(s) :: m.id in Known(s.db)
  {
    var l := LedgerOf(s.db, s.past.admitted);
    forall m | m in Pending(s) ensures m.id in Known(s.db) {
      if m in s.ch.log { assert MessageOk(l, m); }
      else if m in s.logger.batch { assert MessageOk(l, m); }
      else { assert CommitOk(l, s.logger.phase); }
    }
  }

  lemma CommitSafe(s: State, trust: bool)
    requires Inv(s) && NothingStranded(s, trust) && LogEnabled(s, Commit)
    ensures NothingStranded(LogApply(s, Commit), trust)
  {
    var s' := LogApply(s, Commit);
    var rest := s.logger.batch + s.ch.log;
    assert Pending(s') == rest;
    match s.logger.phase
    case Reporting(t, _, _) =>
      assert Pending(s) == [t.(status := Reported)] + rest;
      ConsumeSafe(s, s', t.(status := Reported), rest, trust);
    case Aborting(t, next) =>
      assert Pending(s) == [t.(status := Aborted)] + rest;
      assert next.Some? ==> next.value in s.db.dups;
      ConsumeSafe(s, s', t.(status := Aborted), rest, trust);
  }

  lemma ApplySafe(s: State, trust: bool)
    requires Inv(s) && NothingStranded(s, trust) && LogEnabled(s, ApplyStatus)
    ensures NothingStranded(LogApply(s, ApplyStatus), trust)
  {
    var m := s.logger.batch[0];
    var rest := s.logger.batch[1..] + s.ch.log;
    var s' := LogApply(s, ApplyStatus);
    assert Pending(s) == [m] + rest;
    assert Pending(s') == rest;
    ConsumeSafe(s, s', m, rest, trust);
  }

  /** A commit prepared from a report of any kind will remove the row, like the message it came from. */
  lemma {:induction false} SettleReport(o: Outcome, id: int, m: Task, rest: seq<Task>)
    requires Terminal(m.status)
    ensures Settle(o, id, [m] + rest) == Settle(o, id, [m.(status := Reported)] + rest)
    ensures Settle(o, id, [m] + rest) == Settle(o, id, [m.(status := Aborted)] + rest)
  {
    assert ([m] + rest)[1..] == rest;
    assert ([m.(status := Reported)] + rest)[1..] == rest;
    assert ([m.(status := Aborted)] + rest)[1..] == rest;
  }

  lemma ReadSafe(s: State, step: LogStep, trust: bool)
    requires NothingStranded(s, trust) && LogEnabled(s, step) && (step.ReadReport? || step.ReadAbort?)
    ensures NothingStranded(LogApply(s, step), trust)
  {
    var m := s.logger.batch[0];
    var rest := s.logger.batch[1..] + s.ch.log;
    var s' := LogApply(s, step);
    assert Pending(s) == [m] + rest;
    assert Pending(s') == [m.(status := if step.ReadReport? then Reported else Aborted)] + rest;
    forall id | id in s'.db.live ensures Safe(s', id, trust) {
      assert Safe(s, id, trust);
      SettleReport(RowOutcome(s.db.live[id]), id, m, rest);
    }
  }

  lemma LogSafe(s: State, step: LogStep, trust: bool)
    requires Inv(s) && NothingStranded(s, trust) && LogEnabled(s, step)
    ensures NothingStranded(LogApply(s, step), trust)
  {
    match step
    case TakeLog =>
      var s' := LogApply(s, step);
      assert s.ch.log == [s.ch.log[0]] + s.ch.log[1..];
      assert Pending(s') == Pending(s);
      MoveSafe(s, s', trust);
    case ReadReport(_, _) => ReadSafe(s, step, trust);
    case ReadAbort(_) => ReadSafe(s, step, trust);
    case Commit => CommitSafe(s, trust);
    case ApplyStatus => ApplySafe(s, trust);
  }

  // ---------------------------------------------------------------- requests and crash

  lemma InsertSafe(s: State, a: Asking, trust: bool)
    requires Inv(s) && NothingStranded(s, trust) && a in s.desk && Ready(a)
    ensures NothingStranded(Close(s, a), trust)
  {
    var s' := Close(s, a);
    if Accepts(s.db, EntryOf(a)) && EntryOf(a).SubmitLive? {
      assert AskingOk(a);
      EnterKeeps(s.db, a);
      MessagesKnown(s);
      SettleForeign(RowOutcome(s'.db.live[a.id]), a.id, Pending(s));
      forall id | id in s'.db.live && id != a.id ensures Safe(s', id, trust) {
        assert Safe(s, id, trust);
      }
    } else {
      MoveSafe(s, s', trust);
    }
  }

  lemma AskSafe(s: State, step: AskStep, trust: bool)
    requires Inv(s) && NothingStranded(s, trust) && AskEnabled(s, step)
    ensures NothingStranded(AskApply(s, step), trust)
  {
    if step.Insert? || step.WriteOverride? {
      InsertSafe(s, step.asking, trust);
    } else {
      MoveSafe(s, AskApply(s, step), trust);
    }
  }

  lemma CrashSafe(s: State, rebooted: bool, trust: bool)
    requires Inv(s)
    ensures NothingStranded(WorldApply(s, Crash(rebooted)), trust)
  {
    var s' := WorldApply(s, Crash(rebooted));
    forall id | id in s'.db.live ensures Safe(s', id, trust) {
      assert RowOk(s.db.live[id], id in s.past.admitted);
      assert id in Analysed(s.db);
      assert Pending(s') == [];
    }
  }

  lemma WorldSafe(s: State, step: WorldStep, trust: bool)
    requires Inv(s) && NothingStranded(s, trust) && WorldEnabled(s, step)
    ensures NothingStranded(WorldApply(s, step), trust)
  {
    if step.Crash? {
      CrashSafe(s, step.rebooted, trust);
    } else {
      MoveSafe(s, WorldApply(s, step), trust);
    }
  }

  // ---------------------------------------------------------------- every fine-grained run

  /** A step leaves every live task safe if and only if it does not strand the one task it endangers. */
  lemma StepExactly(s: State, step: Step, trust: bool)
    requires Inv(s) && NothingStranded(s, trust) && Enabled(s, step)
    ensures NothingStranded(Apply(s, step), trust) <==> !Strands(s, step, trust)
  {
    match step
    case Ask(r) => AskSafe(s, r, trust);
    case Sweep(w) => SweepExactly(s, w, trust);
    case Pend(p) => PendingExactly(s, p, trust);
    case Watch(w) => RunningExactly(s, w, trust);
    case Log(g) => LogSafe(s, g, trust);
    case Outside(o) => WorldSafe(s, o, trust);
  }

  ghost predicate NeverStranded(s: State, steps: seq<Step>, trust: bool)
    requires CanRun(s, steps)
    decreases |steps|
  {
    NothingStranded(s, trust) && (steps != [] ==> NeverStranded(Apply(s, steps[0]), steps[1..], trust))
  }

  ghost predicate NoneStrands(s: State, steps: seq<Step>, trust: bool)
    requires CanRun(s, steps)
    decreases |steps|
  {
    steps != [] ==> !Strands(s, steps[0], trust) && NoneStrands(Apply(s, steps[0]), steps[1..], trust)
  }

  lemma {:induction false} RunExactly(s: State, steps: seq<Step>, trust: bool)
    requires Inv(s) && NothingStranded(s, trust) && CanRun(s, steps)
    ensures NeverStranded(s, steps, trust) <==> NoneStrands(s, steps, trust)
    decreases |steps|
  {
    if steps != [] {
      StepKeeps(s, steps[0]);
      StepExactly(s, steps[0], trust);
      if !Strands(s, steps[0], trust) {
        RunExactly(Apply(s, steps[0]), steps[1..], trust);
      }
    }
  }

  /** The empty pipeline, or the restart after a crash in any reachable state whatsoever. */
  ghost predicate Begins(start: State) {
    (exists signatures :: start == Init(signatures))
    || exists s, rebooted :: Reachable(s) && start == Apply(s, Outside(Crash(rebooted)))
  }

  lemma BeginsSafe(start: State, trust: bool)
    requires Begins(start)
    ensures Inv(start) && NothingStranded(start, trust)
    ensures start.sweeper.phase.Sweeping? && start.pender.returned == multiset{}
  {
    if !exists signatures :: start == Init(signatures) {
      var s, rebooted :| Reachable(s) && start == Apply(s, Outside(Crash(rebooted)));
      ReachableInv(s);
      StepKeeps(s, Outside(Crash(rebooted)));
      CrashSafe(s, rebooted, trust);
    }
  }

  /** No live task is ever forgotten if and only if no step of the run strands its own task. */
  lemma StrandingTheorem(start: State, steps: seq<Step>, trust: bool)
    requires Begins(start) && CanRun(start, steps)
    ensures NeverStranded(start, steps, trust) <==> NoneStrands(start, steps, trust)
  {
    BeginsSafe(start, trust);
    RunExactly(start, steps, trust);
  }
}
