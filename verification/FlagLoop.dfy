/**
 The loop of a flagged row. A status message that is lost because the log queue is full leaves a flag in the row. The
 sweep sends such a row back and clears the flag, but the message carries it, and applying the message sets it again.
 So without a copy anywhere the task is sent back forever. The main theorem says exactly which steps end that.
 */
module FlagLoop {
  import opened Records
  import opened Database
  import opened Transactions
  import opened Machine
  import opened Conservation
  import opened Fates
  import opened Safety
  import opened Carriers

  // ---------------------------------------------------------------- steps of the workers about other tasks

  lemma PostElsewhere(used: State, t: Task, status: Status, pushed: bool, id: int)
    requires id in used.db.live && t.id != id
    ensures id in Post(used, t, status, pushed).db.live
    ensures TraceOf(Post(used, t, status, pushed), id) == TraceOf(used, id)
  {
    if pushed {
      TraceLogged(used, t.(status := status), id);
    } else {
      RowElsewhere(used, t.(logQueueFailed := true), id);
    }
  }

  lemma RowElsewhere(used: State, t: Task, id: int)
    requires id in used.db.live && t.id != id
    ensures id in SetRow(used.db, t).live
    ensures TraceOf(used.(db := SetRow(used.db, t)), id) == TraceOf(used, id)
  {
    TraceSweep(used, used.(db := SetRow(used.db, t)), id);
  }

  lemma ExpiryElsewhere(s: State, timeout: int, pushed: bool, id: int)
    requires id in s.db.live && PendingEnabled(s, Start(timeout, pushed))
    requires PendingExpired(s.pender.batch[0], timeout, s.world.now) && TraceOf(s, id).pended == multiset{}
    ensures var s' := PendingApply(s, Start(timeout, pushed)); id in s'.db.live && TraceOf(s', id) == TraceOf(s, id)
  {
    var used := s.(pender := s.pender.(batch := s.pender.batch[1..]));
    TraceStarted(s, used, id);
    PostElsewhere(used, s.pender.batch[0], Aborted, pushed, id);
  }

  lemma RouteElsewhere(used: State, route: FailureRoute, pushed: bool, id: int)
    requires id in used.db.live && route.task.id != id
    ensures id in Rerouted(used, route, pushed).db.live
    ensures TraceOf(Rerouted(used, route, pushed), id) == TraceOf(used, id)
  {
    match route
    case GiveUp(t) => PostElsewhere(used, t, Aborted, pushed, id);
    case Requeue(t) => TraceRequeued(used, t, id);
    case SendBack(t) =>
      if pushed {
        TraceLogged(used, t.(status := PendingNotInQueue), id);
      } else {
        RowElsewhere(used, t.(status := PendingNotInQueue, logQueueFailed := true), id);
      }
  }

  lemma FailureElsewhere(s: State, task: Task, requeued: bool, pushed: bool, id: int)
    requires id in s.db.live && PendingEnabled(s, RouteFailure(task, requeued, pushed))
    requires TraceOf(s, id).flying == multiset{}
    ensures var s' := PendingApply(s, RouteFailure(task, requeued, pushed));
            id in s'.db.live && TraceOf(s', id) == TraceOf(s, id)
  {
    TraceLand(s, SendFailed(task), id);
    RouteKeepsId(task, requeued);
    RouteElsewhere(Land(s, SendFailed(task)), RouteOf(task, requeued), pushed, id);
  }

  lemma RouteKeepsId(task: Task, requeued: bool)
    ensures RouteOf(task, requeued).task.id == task.id
  {
  }

  lemma StatusElsewhere(s: State, f: Flight, pushed: bool, id: int)
    requires id in s.db.live && PendingEnabled(s, RouteStatus(f, pushed)) && TraceOf(s, id).flying == multiset{}
    ensures var s' := PendingApply(s, RouteStatus(f, pushed)); id in s'.db.live && TraceOf(s', id) == TraceOf(s, id)
  {
    TraceLand(s, f, id);
    PostElsewhere(Land(s, f), f.task, if f.Queued? then RunningInQueue else RunningNotInQueue, pushed, id);
  }

  lemma PendElsewhere(s: State, step: PendingStep, id: int)
    requires id in s.db.live && PendingEnabled(s, step)
    requires TraceOf(s, id).pended == multiset{} && TraceOf(s, id).flying == multiset{}
    ensures id in PendingApply(s, step).db.live && TraceOf(PendingApply(s, step), id) == TraceOf(s, id)
  {
    match step
    case Start(timeout, pushed) =>
      if PendingExpired(s.pender.batch[0], timeout, s.world.now) {
        ExpiryElsewhere(s, timeout, pushed, id);
      } else {
        TraceMoves(s, step, id);
      }
    case Send(task, created) => TraceSend(s, task, created, id);
    case RouteFailure(task, requeued, pushed) => FailureElsewhere(s, task, requeued, pushed, id);
    case RouteCreated(task, queued) => TraceCreated(s, task, queued, id);
    case RouteStatus(f, pushed) => StatusElsewhere(s, f, pushed, id);
    case _ => TraceMoves(s, step, id);
  }

  lemma VerdictElsewhere(used: State, t: Task, verdict: RunningVerdict, pushed: bool, id: int)
    requires id in used.db.live && t.id != id && used.runner.owed.None?
    ensures id in Decided(used, t, verdict, pushed).db.live
    ensures TraceOf(Decided(used, t, verdict, pushed), id) == TraceOf(used, id)
  {
    match verdict
    case Finish(status) => PostElsewhere(used, t, status, pushed, id);
    case Exhausted => OwingElsewhere(used, Retried(t), pushed, id);
    case Lost => PostElsewhere(used, Retried(t), RunningNotInQueue, pushed, id);
    case KeepWaiting =>
      if Room(used.ch.running) {
        TraceRunning(used, t, id);
      } else {
        PostElsewhere(used, t, RunningNotInQueue, pushed, id);
      }
  }

  lemma OwingElsewhere(used: State, t: Task, pushed: bool, id: int)
    requires id in used.db.live && t.id != id && used.runner.owed.None?
    ensures var s' := Post(used.(runner := used.runner.(owed := Some(t))), t, Aborted, pushed);
            id in s'.db.live && TraceOf(s', id) == TraceOf(used, id)
  {
    var owing := used.(runner := used.runner.(owed := Some(t)));
    TraceOwing(used, owing, id);
    PostElsewhere(owing, t, Aborted, pushed, id);
  }

  lemma CheckElsewhere(s: State, timeout: int, pushed: bool, id: int)
    requires id in s.db.live && RunningEnabled(s, Check(timeout, pushed)) && TraceOf(s, id).watched == multiset{}
    ensures var s' := RunningApply(s, Check(timeout, pushed)); id in s'.db.live && TraceOf(s', id) == TraceOf(s, id)
  {
    var t := s.runner.batch[0];
    var used := s.(runner := s.runner.(batch := s.runner.batch[1..]));
    var verdict := CheckTask(t, s.runner.snapshot, timeout, s.world.now);
    TraceChecked(s, used, id);
    VerdictElsewhere(used, t, verdict, pushed, id);
  }

  lemma OweElsewhere(s: State, pushed: bool, id: int)
    requires id in s.db.live && RunningEnabled(s, Owe(pushed)) && TraceOf(s, id).owed.None?
    ensures var s' := RunningApply(s, Owe(pushed)); id in s'.db.live && TraceOf(s', id) == TraceOf(s, id)
  {
    var used := s.(runner := s.runner.(owed := None));
    assert TraceOf(used, id) == TraceOf(s, id);
    PostElsewhere(used, s.runner.owed.value, RunningNotInQueue, pushed, id);
  }

  lemma WatchElsewhere(s: State, step: RunningStep, id: int)
    requires id in s.db.live && RunningEnabled(s, step)
    requires TraceOf(s, id).watched == multiset{} && TraceOf(s, id).owed.None?
    ensures id in RunningApply(s, step).db.live && TraceOf(RunningApply(s, step), id) == TraceOf(s, id)
  {
    match step
    case Check(timeout, pushed) => CheckElsewhere(s, timeout, pushed, id);
    case Owe(pushed) => OweElsewhere(s, pushed, id);
    case _ => TraceWatching(s, step, id);
  }

  // ---------------------------------------------------------------- the loop

  /** What the row is after one more turn: flagged, "not in queue", all counters as they are. */
  function Settled(row: LiveRow): LiveRow {
    row.(status := FlaggedStatus(row.status), logQueueFailed := true)
  }

  /** The flagged row waits for the sweep or is in its batch. */
  ghost predicate Rests(tr: Trace) {
    && tr.row.logQueueFailed && tr.phase.Sweeping? && tr.mail == []
    && (tr.swept == multiset{}
        || exists t :: tr.swept == multiset{t} && t.logQueueFailed && WriteBack(tr.row, t) == tr.row)
  }

  /** The message that sends it back is on its way; the row is still flagged as long as the sweep has not cleared it. */
  ghost predicate Returns(tr: Trace, id: int) {
    && tr.swept == multiset{} && tr.phase == (if tr.row.logQueueFailed then Clearing(id) else Sweeping)
    && |tr.mail| == 1 && WriteBack(tr.row, tr.mail[0]) == Settled(tr.row)
  }

  /** No copy of the task is with a worker. */
  predicate Idles(tr: Trace) {
    tr.pended == multiset{} && tr.flying == multiset{} && tr.watched == multiset{} && tr.owed.None?
  }

  /** A turn of the loop for a row that is r after each turn. */
  ghost predicate Turns(tr: Trace, id: int, r: LiveRow) {
    && RowStatus(tr.row.status) && Settled(tr.row) == r && Idles(tr) && (Rests(tr) || Returns(tr, id))
  }

  ghost predicate InLoop(s: State, id: int, r: LiveRow) {
    id in s.db.live && Turns(TraceOf(s, id), id, r)
  }

  /**
   The message is applied before the sweep has cleared the flag; or the sweep fetches the row between the two, finding
   it unflagged; or a crash comes between the two, or reboots the device and so changes the status.
   */
  ghost predicate Leaves(s: State, step: Step, id: int)
    requires id in s.db.live
  {
    var row := s.db.live[id];
    match step
    case Log(g) =>
      g.ApplyStatus? && s.logger.batch != [] && s.logger.batch[0].id == id && s.sweeper.phase == Clearing(id)
    case Sweep(w) => w.Fetch? && !row.logQueueFailed && NotInQueue(row.status)
    case Outside(o) =>
      o.Crash? && (!row.logQueueFailed || (o.rebooted && FlaggedStatus(row.status) != PendingNotInQueue))
    case _ => false
  }

  // ---------------------------------------------------------------- the sweep

  /** The head of the batch is the task's only in the resting state, and flagged. */
  lemma HeadFlagged(s: State, id: int, r: LiveRow)
    requires InLoop(s, id, r) && s.sweeper.batch != [] && s.sweeper.batch[0].id == id
    ensures Rests(TraceOf(s, id)) && TraceOf(s, id).swept == multiset{s.sweeper.batch[0]}
    ensures s.sweeper.batch[0].logQueueFailed
    ensures WriteBack(s.db.live[id], s.sweeper.batch[0]) == s.db.live[id]
  {
    SweptHead(s.sweeper.batch, id);
  }

  lemma FetchTrace(s: State, batch: seq<Task>, id: int)
    requires Inv(s) && SweepEnabled(s, Fetch(batch)) && id in s.db.live
    ensures id in s.db.fods && TraceOf(s, id).swept == multiset{} && TraceOf(s, id).phase.Sweeping?
    ensures TraceOf(SweepApply(s, Fetch(batch)), id) == TraceOf(s, id).(swept :=
              if Selected(s.db, id) then multiset{TaskOf(id, s.db.live[id], s.db.fods[id])} else multiset{})
  {
    assert id in Analysed(s.db);
    SweptFresh(s.db, batch, id);
    TraceSweep(s, SweepApply(s, Fetch(batch)), id);
    PartNone(multiset(s.sweeper.batch), Has(id));
  }

  lemma FetchTurns(s: State, batch: seq<Task>, id: int, r: LiveRow)
    requires Inv(s) && SweepEnabled(s, Fetch(batch)) && InLoop(s, id, r)
    ensures InLoop(SweepApply(s, Fetch(batch)), id, r) <==> !Leaves(s, Sweep(Fetch(batch)), id)
  {
    FetchTrace(s, batch, id);
    var t := TaskOf(id, s.db.live[id], s.db.fods[id]);
    FetchedTurns(TraceOf(s, id), TraceOf(SweepApply(s, Fetch(batch)), id), t, id, r);
  }

  /** The row is fetched as it is, if it is selected. */
  lemma FetchedTurns(tr: Trace, tr': Trace, t: Task, id: int, r: LiveRow)
    requires Turns(tr, id, r) && tr.phase.Sweeping? && tr.swept == multiset{}
    requires WriteBack(tr.row, t) == tr.row && t.logQueueFailed == tr.row.logQueueFailed
    requires var selected := NotInQueue(tr.row.status) || tr.row.logQueueFailed;
             tr' == tr.(swept := if selected then multiset{t} else multiset{})
    ensures Turns(tr', id, r) <==> tr.row.logQueueFailed || !NotInQueue(tr.row.status)
  {
    if NotInQueue(tr.row.status) && !tr.row.logQueueFailed {
      assert t in tr'.swept;
    }
  }

  lemma SendTurns(s: State, status: Status, pushed: bool, id: int, r: LiveRow)
    requires s.sweeper.batch != [] && (s.sweeper.phase.Sweeping? || s.sweeper.phase.Rejecting?) && InLoop(s, id, r)
    requires s.sweeper.batch[0].id == id ==> status == FlaggedStatus(s.sweeper.batch[0].status)
    ensures InLoop(SweepToLog(s, status, pushed), id, r)
  {
    var t, s' := s.sweeper.batch[0], SweepToLog(s, status, pushed);
    TraceToLog(s, status, pushed, id);
    if t.id == id {
      HeadFlagged(s, id, r);
      if pushed {
        OwnTurn(s, s', t, status, id, r);
      }
    }
  }

  lemma OwnTurn(s: State, s': State, t: Task, status: Status, id: int, r: LiveRow)
    requires InLoop(s, id, r) && s.sweeper.batch != [] && t == s.sweeper.batch[0] && t.id == id
    requires s' == SweepToLog(s, status, true) && status == FlaggedStatus(t.status)
    ensures InLoop(s', id, r)
  {
    HeadFlagged(s, id, r);
    var used := Beheaded(s, Clearing(id));
    TraceBeheaded(s, Clearing(id), id);
    TraceLogged(used, t.(status := status), id);
    assert s' == Logged(used, t.(status := status));
  }

  lemma CountTurns(s: State, read: bool, id: int, r: LiveRow)
    requires SweepEnabled(s, Count(read)) && InLoop(s, id, r)
    ensures InLoop(SweepApply(s, Count(read)), id, r)
  {
    var s' := SweepApply(s, Count(read));
    if s.sweeper.batch[0].id == id {
      HeadFlagged(s, id, r);
      assert false;
    }
    if s'.sweeper.phase.Admitting? {
      TracePassed(s, s'.past, id);
    } else {
      TraceSweep(s, s', id);
    }
  }

  lemma UpdateTurns(s: State, id: int, r: LiveRow)
    requires SweepEnabled(s, Update) && InLoop(s, id, r)
    ensures InLoop(SweepApply(s, Update), id, r)
  {
    var s' := SweepApply(s, Update);
    if s.sweeper.phase.id == id {
      assert s'.db.live[id] == s.db.live[id].(logQueueFailed := false);
      TraceSweep(s, s', id);
    } else {
      TraceUpdate(s, id);
    }
  }

  lemma PushTurns(s: State, step: SweepStep, id: int, r: LiveRow)
    requires SweepEnabled(s, step) && InLoop(s, id, r) && (step.Admit? || step.Resume?)
    ensures InLoop(SweepApply(s, step), id, r)
  {
    if step.Admit? {
      TraceAdmit(s, step.pushed, id);
    } else {
      if s.sweeper.batch[0].id == id {
        HeadFlagged(s, id, r);
        assert false;
      }
      TraceResume(s, step.pushed, id);
    }
  }

  /** Only a fetch may end it. */
  lemma SweepTurns(s: State, step: SweepStep, id: int, r: LiveRow)
    requires Inv(s) && SweepEnabled(s, step) && InLoop(s, id, r)
    ensures InLoop(SweepApply(s, step), id, r) <==> !Leaves(s, Sweep(step), id)
  {
    match step
    case Fetch(batch) => FetchTurns(s, batch, id, r);
    case Count(read) => CountTurns(s, read, id, r);
    case Update => UpdateTurns(s, id, r);
    case Admit(_) | Resume(_) => PushTurns(s, step, id, r);
    case Flagged(pushed) => SendTurns(s, FlaggedStatus(s.sweeper.batch[0].status), pushed, id, r);
    case Malicious(through, pushed) =>
      HeadPlain(s, id, r);
      SendTurns(s, through, pushed, id, r);
    case Reject(pushed) =>
      HeadPlain(s, id, r);
      SendTurns(s, Aborted, pushed, id, r);
  }

  lemma HeadPlain(s: State, id: int, r: LiveRow)
    requires InLoop(s, id, r) && s.sweeper.batch != [] && !s.sweeper.batch[0].logQueueFailed
    ensures s.sweeper.batch[0].id != id
  {
    if s.sweeper.batch[0].id == id {
      HeadFlagged(s, id, r);
      assert false;
    }
  }

  // ---------------------------------------------------------------- the log handler, requests, and the world

  /** The first message is not a terminal one of the task. */
  lemma FirstPlain(s: State, t: Task, rest: seq<Task>, id: int, r: LiveRow)
    requires InLoop(s, id, r) && Pending(s) == [t] + rest
    ensures TraceOf(s, id).mail == Letter(t, id) + Letters(rest, id)
    ensures t.id == id ==> TraceOf(s, id).mail == [t] && Letters(rest, id) == [] && RowStatus(t.status)
  {
    LettersCons(t, rest, id);
    if t.id == id {
      assert TraceOf(s, id).mail[0] == t;
    }
  }

  lemma LogTurns(s: State, step: LogStep, id: int, r: LiveRow)
    requires Inv(s) && LogEnabled(s, step) && InLoop(s, id, r)
    ensures InLoop(LogApply(s, step), id, r) <==> !Leaves(s, Log(step), id)
  {
    var s' := LogApply(s, step);
    if step.TakeLog? {
      TakeMail(s);
      TraceMail(s, s', id);
    } else {
      var t, rest := FirstMail(s, step);
      FirstPlain(s, t, rest, id, r);
      TraceApplied(s, step, t, rest, id);
      if t.id == id {
        OwnMessage(s, step, t, id);
        AppliedTurns(TraceOf(s, id), TraceOf(s', id), t, id, r);
      } else {
        assert !Leaves(s, Log(step), id);
      }
    }
  }

  /** Only the step that applies a row update concerns a message that is not terminal. */
  lemma OwnMessage(s: State, step: LogStep, t: Task, id: int)
    requires LogEnabled(s, step) && !step.TakeLog? && id in s.db.live
    requires Pending(s) != [] && Pending(s)[0] == t && t.id == id && !Terminal(t.status)
    ensures Leaves(s, Log(step), id) <==> s.sweeper.phase == Clearing(id)
  {
  }

  /** Its message is applied: too early if the sweep has still to clear the flag. */
  lemma AppliedTurns(tr: Trace, tr': Trace, t: Task, id: int, r: LiveRow)
    requires Turns(tr, id, r) && tr.mail == [t] && tr' == tr.(row := WriteBack(tr.row, t), mail := [])
    ensures Turns(tr', id, r) <==> tr.phase != Clearing(id)
  {
  }

  /** Nothing is in motion. */
  lemma EmptyTrace(s: State, id: int)
    requires id in s.db.live && s.ch == Channels([], [], []) && s.sweeper == Sweeper([], Sweeping)
    requires s.pender == IDLE_PENDER && s.runner == IDLE_RUNNER && s.logger == Logger([], Listening)
    ensures TraceOf(s, id)
         == Trace(s.db.live[id], multiset{}, multiset{}, multiset{}, multiset{}, Sweeping, [], None)
  {
    PartNone(Pended(s), Has(id));
    PartNone(Watched(s), Has(id));
    PartNone(s.pender.returned, Carries(id));
    PartNone(multiset(s.sweeper.batch), Has(id));
  }

  lemma CrashRow(s: State, rebooted: bool, id: int)
    requires Inv(s) && id in s.db.live
    ensures id in Reset(s.db, rebooted).live
    ensures var row := s.db.live[id];
            Reset(s.db, rebooted).live[id]
            == row.(status := if rebooted then PendingNotInQueue else FlaggedStatus(row.status))
  {
    assert id in Analysed(s.db) && id > 0;
  }

  lemma CrashTurns(s: State, rebooted: bool, id: int, r: LiveRow)
    requires Inv(s) && InLoop(s, id, r)
    ensures InLoop(WorldApply(s, Crash(rebooted)), id, r) <==> !Leaves(s, Outside(Crash(rebooted)), id)
  {
    CrashRow(s, rebooted, id);
    EmptyTrace(WorldApply(s, Crash(rebooted)), id);
    RestTurns(WorldApply(s, Crash(rebooted)).db.live[id], id, r);
  }

  lemma RestTurns(row: LiveRow, id: int, r: LiveRow)
    ensures Turns(Trace(row, multiset{}, multiset{}, multiset{}, multiset{}, Sweeping, [], None), id, r)
       <==> row.logQueueFailed && RowStatus(row.status) && Settled(row) == r
  {
  }

  // ---------------------------------------------------------------- every run

  /** A step leaves the task in the loop if and only if it is none of those four. */
  lemma LoopExactly(s: State, step: Step, id: int, r: LiveRow)
    requires Inv(s) && Enabled(s, step) && InLoop(s, id, r)
    ensures InLoop(Apply(s, step), id, r) <==> !Leaves(s, step, id)
  {
    match step
    case Sweep(w) => SweepTurns(s, w, id, r);
    case Pend(p) => PendElsewhere(s, p, id);
    case Watch(w) => WatchElsewhere(s, w, id);
    case Log(g) => LogTurns(s, g, id, r);
    case Ask(a) => TraceAsked(s, a, id);
    case Outside(o) =>
      if o.Crash? {
        CrashTurns(s, o.rebooted, id, r);
      } else {
        TraceOutside(s, o, id);
      }
  }

  lemma {:induction false} SettleLetters(o: Outcome, id: int, mail: seq<Task>)
    ensures Settle(o, id, mail) == Settle(o, id, Letters(mail, id))
    decreases |mail|
  {
    if mail != [] {
      SettleLetters(After(o, id, mail[0]), id, mail[1..]);
      var rest := Letters(mail[1..], id);
      if mail[0].id == id {
        assert Letters(mail, id) == [mail[0]] + rest && ([mail[0]] + rest)[1..] == rest;
      } else {
        assert Letters(mail, id) == rest;
      }
    }
  }

  /** It is not stranded, since the sweep always selects it again; and yet it gets nowhere: no copy is on its way. */
  lemma LoopIsSafe(s: State, id: int, r: LiveRow)
    requires InLoop(s, id, r)
    ensures Safe(s, id, true) && id !in WorkIds(s)
  {
    NoneAtWork(s, id);
    var o, mail := RowOutcome(s.db.live[id]), TraceOf(s, id).mail;
    SettleLetters(o, id, Pending(s));
    if mail != [] {
      LettersIn(Pending(s), id);
      assert mail[0] in mail && mail[1..] == [];
    }
  }

  ghost predicate AlwaysLoops(s: State, steps: seq<Step>, id: int, r: LiveRow)
    requires CanRun(s, steps)
    decreases |steps|
  {
    InLoop(s, id, r) && (steps != [] ==> AlwaysLoops(Apply(s, steps[0]), steps[1..], id, r))
  }

  ghost predicate NoneLeaves(s: State, steps: seq<Step>, id: int)
    requires CanRun(s, steps)
    decreases |steps|
  {
    steps != [] ==>
      && id in s.db.live && !Leaves(s, steps[0], id)
      && NoneLeaves(Apply(s, steps[0]), steps[1..], id)
  }

  /**
   From a state in the loop, in every fine-grained run, with lost pushes and crashes, the task stays in it, without a
   copy and with all its counters, if and only if no step is one of those that end it.
   */
  lemma {:induction false} LoopTheorem(s: State, steps: seq<Step>, id: int, r: LiveRow)
    requires Inv(s) && InLoop(s, id, r) && CanRun(s, steps)
    ensures AlwaysLoops(s, steps, id, r) <==> NoneLeaves(s, steps, id)
    decreases |steps|
  {
    if steps != [] {
      LoopExactly(s, steps[0], id, r);
      StepKeeps(s, steps[0]);
      if !Leaves(s, steps[0], id) {
        LoopTheorem(Apply(s, steps[0]), steps[1..], id, r);
      }
    }
  }
}
