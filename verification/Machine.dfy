/**
 The task pipeline as a state machine. The four handlers, the spawned sends, the submission and override
 requests, the sandbox and a process crash interleave freely: every channel operation, every transaction and
 every read that another component can overtake is a step of its own.

 A push that fails has no effect by itself; what the code does next (a row update) may come after the channel
 has drained again. So a step flag such as `pushed` set to true demands room in the channel, and set to false
 demands nothing. The running queue is different while its handler checks a task: only that handler drains it, so
 the push back fails exactly when the queue is full.
 */
module Machine {
  import opened Records
  import opened Database
  import opened Transactions
  import opened Lookups

  const CAPACITY := 5000
  const QUEUE_MAX_RETRIES := 3
  const RUNNING_MAX_RETRIES := 5
  const SANDBOX_MAX_RETRIES := 5
  const MAX_FREE_VMS := 5
  const MAX_CONCURRENT_SENDS := 50
  const LOG_BATCH := 20
  const MALICIOUS_SCORE := 3.5

  datatype SandboxStatus = SbPending | SbRunning | SbCompleted | SbReported | SbFailedAnalysis | SbOther

  predicate Unreported(status: SandboxStatus) {
    !status.SbReported? && !status.SbFailedAnalysis?
  }

  // ---------------------------------------------------------------- state

  datatype Channels = Channels(pending: seq<Task>, running: seq<Task>, log: seq<Task>)

  /** Where the sweep is inside its loop body. */
  datatype SweepPhase =
    | Sweeping                               // between two tasks
    | Admitting(task: Task)                  // the live count allowed the push to the pending queue
    | Rejecting                              // the live count was too high for the head of the batch
    | Clearing(id: int)                      // pushed to the log queue, flag not yet cleared
    | Marking(id: int, status: Status)       // pushed to a work queue, status not yet written

  /** The sweep over rows that are not in a queue, with the rest of its batch. */
  datatype Sweeper = Sweeper(batch: seq<Task>, phase: SweepPhase)

  /** A goroutine whose sandbox call has returned. */
  datatype Flight =
    | SendFailed(task: Task)
    | Created(task: Task)                    // sandbox id known, nothing pushed yet
    | Queued(task: Task)                     // pushed to the running queue, status message still to come
    | Refused(task: Task)                    // running queue full, status message still to come

  /** The pending handler: how many tasks its last poll still allows, what it took, and its goroutines. */
  datatype Pender = Pender(quota: nat, batch: seq<Task>, sending: multiset<Task>, returned: multiset<Flight>)

  /** The running handler: its batch, its last sandbox listing, and the second message of an exhausted task. */
  datatype Runner = Runner(batch: seq<Task>, snapshot: map<int, SandboxStatus>, owed: Option<Task>)

  /** Where the log handler is: it may have read the duplicates but not yet committed. */
  datatype LogPhase =
    | Listening
    | Reporting(task: Task, score: real, ids: seq<int>)
    | Aborting(task: Task, next: Option<int>)

  datatype Logger = Logger(batch: seq<Task>, phase: LogPhase)

  /** A request between two of its transactions. */
  datatype Asking =
    | Numbered(id: int, hashes: Hashes, at: int)                  // id allocated
    | NotClean(id: int, hashes: Hashes, at: int)                  // no allowed row found
    | Answering(id: int, hashes: Hashes, at: int, clean: bool)    // known file, row not picked yet
    | Answered(id: int, fod: Fod)                                 // row to store is known
    | Unanswered(id: int, hashes: Hashes, at: int)                // unknown file
    | Counted(id: int, hashes: Hashes, at: int, leader: bool)     // live rows of the file counted
    | Overriding(hashes: Hashes, verdict: Verdict)                // submission read, rows not rewritten yet

  /** The sandbox, the clock, and the table of known malware, which no component writes. */
  datatype World = World(sandbox: map<int, SandboxStatus>, nextId: int, now: int, signatures: set<Hashes>)

  /** What no component reads: ids ever admitted to the pending queue, and failed sandbox and count reads. */
  datatype History = History(admitted: set<int>, failedPolls: nat, failedCounts: nat)

  datatype State = State(
    db: Db, desk: multiset<Asking>, ch: Channels, sweeper: Sweeper, pender: Pender, runner: Runner, logger: Logger,
    world: World, past: History)

  const IDLE_PENDER := Pender(0, [], multiset{}, multiset{})
  const IDLE_RUNNER := Runner([], map[], None)

  function Init(signatures: set<Hashes>): State {
    State(Db(map[], map[], map[], []), multiset{}, Channels([], [], []), Sweeper([], Sweeping),
          IDLE_PENDER, IDLE_RUNNER, Logger([], Listening), World(map[], 1, 0, signatures), History({}, 0, 0))
  }

  // ---------------------------------------------------------------- steps

  /** The transactions of a submission in order, and the two of an override. */
  datatype AskStep =
    | Number(id: int, hashes: Hashes, at: int)
    | LookClean(asking: Asking)
    | LookMalware(asking: Asking)
    | PickRow(asking: Asking, pick: Option<int>)
    | CountLive(asking: Asking)
    | Insert(asking: Asking)
    | ReadOverride(id: int, verdict: Verdict)
    | WriteOverride(asking: Asking)

  datatype SweepStep =
    | Fetch(batch: seq<Task>)
    | Flagged(pushed: bool)
    | Malicious(through: Status, pushed: bool)
    | Count(read: bool)
    | Admit(pushed: bool)
    | Reject(pushed: bool)
    | Resume(pushed: bool)
    | Update

  datatype PendingStep =
    | Poll(read: bool)
    | TakePending
    | CloseBatch
    | Start(timeout: int, pushed: bool)
    | Send(task: Task, created: bool)
    | RouteFailure(task: Task, requeued: bool, pushed: bool)
    | RouteCreated(task: Task, queued: bool)
    | RouteStatus(flight: Flight, pushed: bool)

  datatype RunningStep =
    | List
    | TakeRunning
    | Check(timeout: int, pushed: bool)
    | Owe(pushed: bool)

  datatype LogStep =
    | TakeLog
    | ReadReport(score: real, ids: seq<int>)
    | ReadAbort(next: Option<int>)
    | Commit
    | ApplyStatus

  datatype WorldStep =
    | SandboxMoves(sandboxId: int, status: SandboxStatus)
    | SandboxDeletes(sandboxId: int)
    | Tick(elapsed: nat)
    | Crash(rebooted: bool)

  datatype Step =
    | Ask(ask: AskStep)
    | Sweep(sweep: SweepStep)
    | Pend(pend: PendingStep)
    | Watch(watch: RunningStep)
    | Log(log: LogStep)
    | Outside(world: WorldStep)

  // ---------------------------------------------------------------- reads

  predicate Selected(db: Db, id: int) {
    id in db.live && id in db.fods && (NotInQueue(db.live[id].status) || db.live[id].logQueueFailed)
  }

  /** What the sweep's query returns: each selected row once, in some order. */
  ghost predicate IsSelection(db: Db, batch: seq<Task>) {
    && (forall t | t in batch :: Selected(db, t.id) && t == TaskOf(t.id, db.live[t.id], db.fods[t.id]))
    && (forall i, j | 0 <= i < j < |batch| :: batch[i].id != batch[j].id)
    && (forall id | id in db.live && Selected(db, id) :: TaskOf(id, db.live[id], db.fods[id]) in batch)
  }

  function UnreportedIds(sandbox: map<int, SandboxStatus>): set<int> {
    set k | k in sandbox && Unreported(sandbox[k])
  }

  function MatchingDups(db: Db, hashes: Hashes): set<int> {
    set id | id in db.dups && Matches(db.dups[id], hashes)
  }

  /** The rows of a query by key set: each key once, in some order. */
  ghost predicate Enumerates(ids: seq<int>, keys: set<int>) {
    && Ids(ids) == keys
    && (forall i, j | 0 <= i < j < |ids| :: ids[i] != ids[j])
  }

  /** The smallest matching duplicate, if there is one. */
  ghost predicate IsSmallest(next: Option<int>, keys: set<int>) {
    match next
    case None => keys == {}
    case Some(id) => id in keys && forall k | k in keys :: id <= k
  }

  predicate Room(queue: seq<Task>) {
    |queue| < CAPACITY
  }

  // ---------------------------------------------------------------- decisions

  /** The status a flagged row is sent back with. */
  function FlaggedStatus(status: Status): Status {
    if status == PendingInQueue then PendingNotInQueue
    else if status == RunningInQueue then RunningNotInQueue
    else status
  }

  predicate PendingExpired(task: Task, timeout: int, now: int) {
    task.queueRetries >= QUEUE_MAX_RETRIES || task.submittedTime + timeout < now
  }

  datatype FailureRoute = GiveUp(task: Task) | Requeue(task: Task) | SendBack(task: Task)

  /** What a goroutine does with a task whose send failed; the task is returned with its counters updated. */
  function RouteOf(task: Task, requeued: bool): FailureRoute {
    var t := task.(sandboxRetries := task.sandboxRetries + 1);
    if t.sandboxRetries >= SANDBOX_MAX_RETRIES then GiveUp(t)
    else if requeued then Requeue(t)
    else
      var u := t.(queueRetries := t.queueRetries + 1);
      if u.queueRetries >= QUEUE_MAX_RETRIES then GiveUp(u) else SendBack(u)
  }

  datatype RunningVerdict = Finish(status: Status) | Exhausted | Lost | KeepWaiting

  /** What the running handler decides for one task; `Lost` and `Exhausted` count a retry. */
  function CheckTask(task: Task, snapshot: map<int, SandboxStatus>, timeout: int, now: int): RunningVerdict {
    if task.runningRetries >= RUNNING_MAX_RETRIES then Finish(Aborted)
    else if task.sandboxId !in snapshot then
      if task.runningRetries + 1 >= RUNNING_MAX_RETRIES then Exhausted else Lost
    else
      match snapshot[task.sandboxId]
      case SbReported => Finish(Reported)
      case SbRunning | SbCompleted | SbPending =>
        if now - task.runningStartedAt > timeout then Finish(Aborted) else KeepWaiting
      case _ => Finish(Aborted)
  }

  function Retried(task: Task): Task {
    task.(runningRetries := task.runningRetries + 1)
  }

  /** Start-up repair of the live table after a crash (false) or a device reboot (true). */
  function Reset(db: Db, rebooted: bool): Db {
    db.(live := map id | id in db.live ::
          var row := db.live[id];
          if rebooted then if id > 0 then row.(status := PendingNotInQueue) else row
          else if row.status == PendingInQueue then row.(status := PendingNotInQueue)
          else if row.status == RunningInQueue then row.(status := RunningNotInQueue)
          else row)
  }

  // ---------------------------------------------------------------- writes shared by the handlers

  function PushLog(s: State, task: Task, status: Status): State {
    s.(ch := s.ch.(log := s.ch.log + [task.(status := status)]))
  }

  /** A status message; when the log queue is full the row is flagged instead, with the task's old status. */
  function Post(s: State, task: Task, status: Status, pushed: bool): State {
    if pushed then PushLog(s, task, status)
    else s.(db := SetRow(s.db, task.(logQueueFailed := true)))
  }

  // ---------------------------------------------------------------- requests

  function Submission(hashes: Hashes, at: int): Fod {
    Fod(hashes, at, false, NoRating, NoVerdict, 0.0, false)
  }

  /** What a request writes. */
  datatype Entry =
    | SubmitLive(id: int, hashes: Hashes, at: int)
    | SubmitDuplicate(id: int, hashes: Hashes, at: int)
    | SubmitCached(id: int, fod: Fod)
    | OverrideRows(hashes: Hashes, verdict: Verdict)

  /** A submission's id is its primary key. */
  predicate Accepts(db: Db, entry: Entry) {
    entry.OverrideRows? || entry.id !in db.fods
  }

  function Enter(db: Db, entry: Entry): Db {
    match entry
    case SubmitLive(id, h, at) =>
      db.(fods := db.fods[id := Submission(h, at)], live := db.live[id := NewLiveRow(Some(h))])
    case SubmitDuplicate(id, h, at) =>
      db.(fods := db.fods[id := Submission(h, at)], dups := db.dups[id := h])
    case SubmitCached(id, fod) => db.(fods := db.fods[id := fod])
    case OverrideRows(h, verdict) => Override(db, h, verdict)
  }

  predicate Ready(a: Asking) {
    a.Answered? || a.Counted? || a.Overriding?
  }

  function EntryOf(a: Asking): Entry
    requires Ready(a)
  {
    match a
    case Answered(id, fod) => SubmitCached(id, fod)
    case Counted(id, h, at, leader) => if leader then SubmitDuplicate(id, h, at) else SubmitLive(id, h, at)
    case Overriding(h, verdict) => OverrideRows(h, verdict)
  }

  ghost predicate AskEnabled(s: State, step: AskStep) {
    match step
    case Number(id, _, _) => IsNextId(s.db, id)
    case LookClean(a) => a in s.desk && a.Numbered?
    case LookMalware(a) => a in s.desk && a.NotClean?
    case PickRow(a, pick) => a in s.desk && a.Answering? && Picked(s.db, a.hashes, pick)
    case CountLive(a) => a in s.desk && a.Unanswered?
    case Insert(a) => a in s.desk && (a.Answered? || a.Counted?)
    case ReadOverride(id, verdict) =>
      && id in s.db.fods && !s.db.fods[id].rating.NoRating?
      && !verdict.NoVerdict? && verdict != s.db.fods[id].verdict
    case WriteOverride(a) => a in s.desk && a.Overriding?
  }

  /** What a request knows after its next transaction. */
  function Learned(s: State, a: Asking, step: AskStep): Asking
    requires step.LookClean? ==> a.Numbered?
    requires step.LookMalware? ==> a.NotClean?
    requires step.PickRow? ==> a.Answering? && (step.pick.Some? ==> step.pick.value in s.db.fods)
    requires step.CountLive? ==> a.Unanswered?
  {
    match step
    case LookClean(_) =>
      if IsCleanHash(s.db, a.hashes) then Answering(a.id, a.hashes, a.at, true) else NotClean(a.id, a.hashes, a.at)
    case LookMalware(_) =>
      if IsMalwareHash(s.db, s.world.signatures, a.hashes) then Answering(a.id, a.hashes, a.at, false)
      else Unanswered(a.id, a.hashes, a.at)
    case PickRow(_, pick) => Answered(a.id, CachedFod(s.db, a.hashes, a.at, pick, a.clean))
    case CountLive(_) => Counted(a.id, a.hashes, a.at, HasLeader(s.db, a.hashes))
    case _ => a
  }

  /** The last transaction of a request; a second insert of one id is refused and leaves nothing. */
  function Close(s: State, a: Asking): State
    requires Ready(a)
  {
    s.(desk := s.desk - multiset{a}, db := if Accepts(s.db, EntryOf(a)) then Enter(s.db, EntryOf(a)) else s.db)
  }

  ghost function AskApply(s: State, step: AskStep): State
    requires AskEnabled(s, step)
  {
    match step
    case Number(id, h, at) => s.(desk := s.desk + multiset{Numbered(id, h, at)})
    case LookClean(a) => s.(desk := s.desk - multiset{a} + multiset{Learned(s, a, step)})
    case LookMalware(a) => s.(desk := s.desk - multiset{a} + multiset{Learned(s, a, step)})
    case PickRow(a, _) => s.(desk := s.desk - multiset{a} + multiset{Learned(s, a, step)})
    case CountLive(a) => s.(desk := s.desk - multiset{a} + multiset{Learned(s, a, step)})
    case Insert(a) => Close(s, a)
    case ReadOverride(id, verdict) => s.(desk := s.desk + multiset{Overriding(s.db.fods[id].hashes, verdict)})
    case WriteOverride(a) => Close(s, a)
  }

  // ---------------------------------------------------------------- the sweep

  /** The head of the batch is a plain task in the given status. */
  predicate SweepAt(sweeper: Sweeper, status: Status) {
    && sweeper.phase.Sweeping? && sweeper.batch != []
    && !sweeper.batch[0].logQueueFailed && sweeper.batch[0].status == status
  }

  ghost predicate SweepEnabled(s: State, step: SweepStep) {
    match step
    case Fetch(batch) => s.sweeper.phase.Sweeping? && s.sweeper.batch == [] && IsSelection(s.db, batch)
    case Flagged(pushed) =>
      && s.sweeper.phase.Sweeping? && s.sweeper.batch != [] && s.sweeper.batch[0].logQueueFailed
      && (pushed ==> Room(s.ch.log))
    case Malicious(through, pushed) =>
      && SweepAt(s.sweeper, PendingNotInQueue) && (pushed ==> Room(s.ch.log))
      && (through.ReportedThroughClamd? || through.ReportedThroughQuickScope?)
    case Count(_) => SweepAt(s.sweeper, PendingNotInQueue)
    case Admit(pushed) => s.sweeper.phase.Admitting? && (pushed ==> Room(s.ch.pending))
    case Reject(pushed) => s.sweeper.phase.Rejecting? && s.sweeper.batch != [] && (pushed ==> Room(s.ch.log))
    case Resume(pushed) => SweepAt(s.sweeper, RunningNotInQueue) && (pushed ==> Room(s.ch.running))
    case Update => s.sweeper.phase.Clearing? || s.sweeper.phase.Marking?
  }

  /** The head of the batch is sent to the log queue, or dropped from the batch when that queue is full. */
  function SweepToLog(s: State, status: Status, pushed: bool): State
    requires s.sweeper.batch != []
  {
    var t := s.sweeper.batch[0];
    var rest := s.sweeper.batch[1..];
    if pushed then PushLog(s, t, status).(sweeper := Sweeper(rest, Clearing(t.id)))
    else s.(sweeper := Sweeper(rest, Sweeping))
  }

  ghost function SweepApply(s: State, step: SweepStep): State
    requires SweepEnabled(s, step)
  {
    match step
    case Fetch(batch) => s.(sweeper := Sweeper(batch, Sweeping))
    case Flagged(pushed) => SweepToLog(s, FlaggedStatus(s.sweeper.batch[0].status), pushed)
    case Malicious(through, pushed) => SweepToLog(s, through, pushed)
    case Count(read) =>
      var s' := if read then s else s.(past := s.past.(failedCounts := s.past.failedCounts + 1));
      if (if read then |s.db.live| else 0) < MAX_FREE_VMS then
        s'.(sweeper := Sweeper(s.sweeper.batch[1..], Admitting(s.sweeper.batch[0])))
      else s'.(sweeper := s.sweeper.(phase := Rejecting))
    case Reject(pushed) => SweepToLog(s, Aborted, pushed)
    case Admit(pushed) =>
      var t := s.sweeper.phase.task;
      if pushed then
        s.(ch := s.ch.(pending := s.ch.pending + [t.(status := PendingInQueue)]),
           sweeper := s.sweeper.(phase := Marking(t.id, PendingInQueue)),
           past := s.past.(admitted := s.past.admitted + {t.id}))
      else s.(sweeper := s.sweeper.(phase := Sweeping))
    case Resume(pushed) =>
      var t := s.sweeper.batch[0].(runningStartedAt := s.world.now);
      var rest := s.sweeper.batch[1..];
      if pushed then
        s.(ch := s.ch.(running := s.ch.running + [t.(status := RunningInQueue)]),
           sweeper := Sweeper(rest, Marking(t.id, RunningInQueue)))
      else s.(sweeper := Sweeper(rest, Sweeping))
    case Update =>
      s.(db := if s.sweeper.phase.Clearing? then SetFlag(s.db, s.sweeper.phase.id, false)
               else SetStatus(s.db, s.sweeper.phase.id, s.sweeper.phase.status),
         sweeper := s.sweeper.(phase := Sweeping))
  }

  // ---------------------------------------------------------------- the pending handler and its goroutines

  ghost predicate PendingEnabled(s: State, step: PendingStep) {
    match step
    case Poll(_) => s.pender.quota == 0 && s.pender.batch == []
    case TakePending => s.pender.quota > 0 && s.ch.pending != []
    case CloseBatch => s.pender.quota > 0 && s.ch.pending == []
    case Start(timeout, pushed) =>
      && s.pender.quota == 0 && s.pender.batch != []
      && (if PendingExpired(s.pender.batch[0], timeout, s.world.now) then pushed ==> Room(s.ch.log)
          else |s.pender.sending| + |s.pender.returned| < MAX_CONCURRENT_SENDS)
    case Send(task, _) => task in s.pender.sending
    case RouteFailure(task, requeued, pushed) =>
      SendFailed(task) in s.pender.returned && (requeued ==> Room(s.ch.pending)) && (pushed ==> Room(s.ch.log))
    case RouteCreated(task, queued) => Created(task) in s.pender.returned && (queued ==> Room(s.ch.running))
    case RouteStatus(flight, pushed) =>
      flight in s.pender.returned && (flight.Queued? || flight.Refused?) && (pushed ==> Room(s.ch.log))
  }

  function Land(s: State, flight: Flight): State {
    s.(pender := s.pender.(returned := s.pender.returned - multiset{flight}))
  }

  /** What follows a failed send. */
  function Rerouted(s: State, route: FailureRoute, pushed: bool): State {
    match route
    case GiveUp(t) => Post(s, t, Aborted, pushed)
    case Requeue(t) => s.(ch := s.ch.(pending := s.ch.pending + [t]))
    case SendBack(t) =>
      if pushed then PushLog(s, t, PendingNotInQueue)
      else s.(db := SetRow(s.db, t.(status := PendingNotInQueue, logQueueFailed := true)))
  }

  ghost function PendingApply(s: State, step: PendingStep): State
    requires PendingEnabled(s, step)
  {
    match step
    case Poll(read) =>
      var notReported := if read then |UnreportedIds(s.world.sandbox)| else 0;
      var s' := if read then s else s.(past := s.past.(failedPolls := s.past.failedPolls + 1));
      s'.(pender := s.pender.(quota := if notReported >= MAX_FREE_VMS then 0 else MAX_FREE_VMS - notReported))
    case TakePending =>
      s.(pender := s.pender.(batch := s.pender.batch + [s.ch.pending[0]], quota := s.pender.quota - 1),
         ch := s.ch.(pending := s.ch.pending[1..]))
    case CloseBatch => s.(pender := s.pender.(quota := 0))
    case Start(timeout, pushed) =>
      var t := s.pender.batch[0];
      var s' := s.(pender := s.pender.(batch := s.pender.batch[1..]));
      if PendingExpired(t, timeout, s.world.now) then Post(s', t, Aborted, pushed)
      else s'.(pender := s'.pender.(sending := s.pender.sending + multiset{t}))
    case Send(task, created) =>
      var sending := s.pender.sending - multiset{task};
      if created then
        var t := task.(sandboxId := s.world.nextId, runningStartedAt := s.world.now);
        s.(pender := s.pender.(sending := sending, returned := s.pender.returned + multiset{Created(t)}),
           world := s.world.(sandbox := s.world.sandbox[s.world.nextId := SbPending], nextId := s.world.nextId + 1))
      else
        s.(pender := s.pender.(sending := sending, returned := s.pender.returned + multiset{SendFailed(task)}))
    case RouteFailure(task, requeued, pushed) =>
      Rerouted(Land(s, SendFailed(task)), RouteOf(task, requeued), pushed)
    case RouteCreated(task, queued) =>
      var s' := Land(s, Created(task));
      var next := if queued then Queued(task) else Refused(task);
      s'.(pender := s'.pender.(returned := s'.pender.returned + multiset{next}),
          ch := if queued then s.ch.(running := s.ch.running + [task]) else s.ch)
    case RouteStatus(flight, pushed) =>
      Post(Land(s, flight), flight.task, if flight.Queued? then RunningInQueue else RunningNotInQueue, pushed)
  }

  // ---------------------------------------------------------------- the running handler

  predicate RunningEnabled(s: State, step: RunningStep) {
    match step
    case List => s.runner.batch == [] && s.runner.owed.None?
    case TakeRunning => s.ch.running != []
    case Check(_, pushed) => s.runner.batch != [] && s.runner.owed.None? && (pushed ==> Room(s.ch.log))
    case Owe(pushed) => s.runner.owed.Some? && (pushed ==> Room(s.ch.log))
  }

  /** What follows from the verdict on a task. */
  function Decided(s: State, t: Task, verdict: RunningVerdict, pushed: bool): State {
    match verdict
    case Finish(status) => Post(s, t, status, pushed)
    case Exhausted => Post(s.(runner := s.runner.(owed := Some(Retried(t)))), Retried(t), Aborted, pushed)
    case Lost => Post(s, Retried(t), RunningNotInQueue, pushed)
    case KeepWaiting =>
      if Room(s.ch.running) then s.(ch := s.ch.(running := s.ch.running + [t]))
      else Post(s, t, RunningNotInQueue, pushed)
  }

  function RunningApply(s: State, step: RunningStep): State
    requires RunningEnabled(s, step)
  {
    match step
    case List => s.(runner := s.runner.(snapshot := s.world.sandbox))
    case TakeRunning =>
      s.(runner := s.runner.(batch := s.runner.batch + [s.ch.running[0]]),
         ch := s.ch.(running := s.ch.running[1..]))
    case Check(timeout, pushed) =>
      var t := s.runner.batch[0];
      var used := s.(runner := s.runner.(batch := s.runner.batch[1..]));
      Decided(used, t, CheckTask(t, s.runner.snapshot, timeout, s.world.now), pushed)
    case Owe(pushed) =>
      Post(s.(runner := s.runner.(owed := None)), s.runner.owed.value, RunningNotInQueue, pushed)
  }

  // ---------------------------------------------------------------- the log handler

  ghost predicate LogEnabled(s: State, step: LogStep) {
    match step
    case TakeLog => s.ch.log != [] && |s.logger.batch| < LOG_BATCH
    case ReadReport(score, ids) =>
      && s.logger.phase.Listening? && s.logger.batch != [] && ReportStatus(s.logger.batch[0].status)
      && (!s.logger.batch[0].status.Reported? ==> score == MALICIOUS_SCORE)
      && Enumerates(ids, MatchingDups(s.db, s.logger.batch[0].hashes))
    case ReadAbort(next) =>
      && s.logger.phase.Listening? && s.logger.batch != [] && s.logger.batch[0].status.Aborted?
      && IsSmallest(next, MatchingDups(s.db, s.logger.batch[0].hashes))
    case Commit => !s.logger.phase.Listening?
    case ApplyStatus => s.logger.phase.Listening? && s.logger.batch != [] && !Terminal(s.logger.batch[0].status)
  }

  ghost function LogApply(s: State, step: LogStep): State
    requires LogEnabled(s, step)
  {
    match step
    case TakeLog =>
      s.(logger := s.logger.(batch := s.logger.batch + [s.ch.log[0]]), ch := s.ch.(log := s.ch.log[1..]))
    case ReadReport(score, ids) =>
      s.(logger := Logger(s.logger.batch[1..], Reporting(s.logger.batch[0], score, ids)))
    case ReadAbort(next) =>
      s.(logger := Logger(s.logger.batch[1..], Aborting(s.logger.batch[0], next)))
    case Commit =>
      s.(db := match s.logger.phase {
                 case Reporting(t, score, ids) => FinishReport(s.db, t, score, ids)
                 case Aborting(t, next) => FinishAbort(s.db, t, next)
               },
         logger := s.logger.(phase := Listening))
    case ApplyStatus =>
      var t := s.logger.batch[0];
      s.(logger := s.logger.(batch := s.logger.batch[1..]),
         db := if t.status.SandboxApiTimeout? then s.db else SetRow(s.db, t))
  }

  // ---------------------------------------------------------------- sandbox, clock and crash

  predicate WorldEnabled(s: State, step: WorldStep) {
    match step
    case SandboxMoves(k, _) => k in s.world.sandbox && Unreported(s.world.sandbox[k])
    case SandboxDeletes(k) => k in s.world.sandbox
    case Tick(_) => true
    case Crash(_) => true
  }

  function WorldApply(s: State, step: WorldStep): State
    requires WorldEnabled(s, step)
  {
    match step
    case SandboxMoves(k, status) => s.(world := s.world.(sandbox := s.world.sandbox[k := status]))
    case SandboxDeletes(k) => s.(world := s.world.(sandbox := s.world.sandbox - {k}))
    case Tick(elapsed) => s.(world := s.world.(now := s.world.now + elapsed))
    case Crash(rebooted) =>
      State(Reset(s.db, rebooted), multiset{}, Channels([], [], []), Sweeper([], Sweeping), IDLE_PENDER, IDLE_RUNNER,
            Logger([], Listening), s.world, s.past)
  }

  // ---------------------------------------------------------------- runs

  ghost predicate Enabled(s: State, step: Step) {
    match step
    case Ask(r) => AskEnabled(s, r)
    case Sweep(w) => SweepEnabled(s, w)
    case Pend(p) => PendingEnabled(s, p)
    case Watch(w) => RunningEnabled(s, w)
    case Log(g) => LogEnabled(s, g)
    case Outside(o) => WorldEnabled(s, o)
  }

  ghost function Apply(s: State, step: Step): State
    requires Enabled(s, step)
  {
    match step
    case Ask(r) => AskApply(s, r)
    case Sweep(w) => SweepApply(s, w)
    case Pend(p) => PendingApply(s, p)
    case Watch(w) => RunningApply(s, w)
    case Log(g) => LogApply(s, g)
    case Outside(o) => WorldApply(s, o)
  }

  ghost predicate CanRun(s: State, steps: seq<Step>)
    decreases |steps|
  {
    steps != [] ==> Enabled(s, steps[0]) && CanRun(Apply(s, steps[0]), steps[1..])
  }

  ghost function Run(s: State, steps: seq<Step>): State
    requires CanRun(s, steps)
    decreases |steps|
  {
    if steps == [] then s else Run(Apply(s, steps[0]), steps[1..])
  }

  ghost predicate Reachable(s: State) {
    exists signatures, steps :: CanRun(Init(signatures), steps) && Run(Init(signatures), steps) == s
  }
}
