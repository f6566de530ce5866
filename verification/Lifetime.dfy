/**
 How long a task can live. In orderly runs without a crash, in which the log queue takes the workers' messages, a
 live task without a terminal message has exactly one carrier: a copy on its way, or its row together with the
 messages not yet applied. Every step that acts on the carrier uses up a bounded budget of retries and time, whatever
 the sandbox, the scanners, the clock and all other tasks do.
 */
module Lifetime {
  import opened Records
  import opened Database
  import opened Transactions
  import opened Machine
  import opened Conservation
  import opened Fates
  import opened Safety
  import opened NoStranding
  import opened OrderlyRuns
  import opened Carriers

  // ---------------------------------------------------------------- steps that act on the task

  /** The running handler finds the task still under analysis. */
  predicate WaitsOn(s: State, step: Step, id: int) {
    && step.Watch? && step.watch.Check? && s.runner.batch != [] && s.runner.batch[0].id == id
    && CheckTask(s.runner.batch[0], s.runner.snapshot, step.watch.timeout, s.world.now).KeepWaiting?
  }

  /** And has no room for it in the running queue. */
  predicate Bounces(s: State, step: Step, id: int) {
    WaitsOn(s, step, id) && !Room(s.ch.running)
  }

  predicate SweepActs(s: State, step: SweepStep, id: int) {
    match step
    case Flagged(pushed) => pushed && s.sweeper.batch != [] && s.sweeper.batch[0].id == id
    case Malicious(_, pushed) => pushed && s.sweeper.batch != [] && s.sweeper.batch[0].id == id
    case Reject(pushed) => pushed && s.sweeper.batch != [] && s.sweeper.batch[0].id == id
    case Admit(pushed) => pushed && s.sweeper.phase.Admitting? && s.sweeper.phase.task.id == id
    case Resume(pushed) => pushed && s.sweeper.batch != [] && s.sweeper.batch[0].id == id
    case _ => false
  }

  /**
   The task is admitted, resumed, reported, aborted, checked, or routed after its send. Taking it from a queue,
   handing it to a goroutine, sending it and writing its row only carry on what such a step decided, and a push
   of the sweep that fails leaves the task where it was.
   */
  predicate ActsOn(s: State, step: Step, id: int) {
    match step
    case Sweep(w) => SweepActs(s, w, id)
    case Pend(p) =>
      (match p
       case Start(timeout, _) =>
         s.pender.batch != [] && s.pender.batch[0].id == id && PendingExpired(s.pender.batch[0], timeout, s.world.now)
       case RouteFailure(t, _, _) => t.id == id
       case RouteCreated(t, _) => t.id == id
       case _ => false)
    case Watch(w) => w.Check? && s.runner.batch != [] && s.runner.batch[0].id == id
    case _ => false
  }

  /**
   An orderly step that is no crash; a check of the task uses a timeout of at most `longest`, and one that finds it
   still under analysis comes at least a tick after the last one that did.
   */
  ghost predicate SmoothStep(s: State, step: Step, id: int, last: int, longest: nat) {
    && OrderlyStep(s, step) && !Crashes(step)
    && (WaitsOn(s, step, id) ==> step.watch.timeout <= longest && s.world.now > last)
  }

  function NextLast(s: State, step: Step, id: int, last: int): int {
    if WaitsOn(s, step, id) then s.world.now else last
  }

  /** The budget after a step. */
  function Spend(s: State, step: Step, id: int, longest: nat, m: int): int {
    m - (if ActsOn(s, step, id) then 1 else 0) + if Bounces(s, step, id) then longest + 3 else 0
  }

  // ---------------------------------------------------------------- what a carrier may still cost

  function Less(limit: nat, used: nat): nat {
    if used < limit then limit - used else 0
  }

  /** Every retry left may cost three steps and a check for every tick of the longest timeout. */
  function RetriesLeft(runningRetries: nat, longest: nat): nat
    decreases RUNNING_MAX_RETRIES - runningRetries
  {
    if runningRetries >= RUNNING_MAX_RETRIES then 0 else longest + 3 + RetriesLeft(runningRetries + 1, longest)
  }

  /** The running phase from a fresh start: retries, and a check for every tick of the longest timeout. */
  function FreshLeft(runningRetries: nat, longest: nat): nat {
    RetriesLeft(runningRetries, longest) + longest + 1
  }

  /** Checks that may still find the task under analysis, when the last one that did was at `last`. */
  function WaitsLeft(t: Task, last: int, longest: nat): nat {
    if last < t.runningStartedAt then longest + 1
    else if last - t.runningStartedAt < longest then longest - (last - t.runningStartedAt)
    else 0
  }

  predicate PendingFits(t: Task, longest: nat, m: int) {
    && !t.logQueueFailed && t.sandboxRetries < SANDBOX_MAX_RETRIES
    && 2 * Less(SANDBOX_MAX_RETRIES, t.sandboxRetries) + FreshLeft(t.runningRetries, longest) + 2 <= m
  }

  predicate WatchedFits(t: Task, last: int, now: int, longest: nat, m: int) {
    && !t.logQueueFailed && t.runningStartedAt <= now
    && 1 + RetriesLeft(t.runningRetries, longest) + WaitsLeft(t, last, longest) <= m
  }

  predicate FlightFits(f: Flight, now: int, longest: nat, m: int) {
    match f
    case SendFailed(t) => PendingFits(t, longest, m)
    case Created(t) => PendingFits(t, longest, m) && t.runningStartedAt <= now
    case Queued(_) => false
    case Refused(t) => !t.logQueueFailed && FreshLeft(t.runningRetries, longest) + 2 <= m
  }

  /** A row, or what a message makes of it: in a status the sweep selects it must be within the budget. */
  predicate Rests(status: Status, sandboxRetries: nat, runningRetries: nat, longest: nat, m: int) {
    && RowStatus(status)
    && (status == RunningNotInQueue ==> FreshLeft(runningRetries, longest) + 2 <= m)
    && (status == PendingNotInQueue ==>
          && sandboxRetries < SANDBOX_MAX_RETRIES
          && 2 * Less(SANDBOX_MAX_RETRIES, sandboxRetries) + FreshLeft(runningRetries, longest) + 3 <= m)
  }

  predicate MessageFits(t: Task, longest: nat, m: int) {
    !t.logQueueFailed && Rests(t.status, t.sandboxRetries, t.runningRetries, longest, m)
  }

  /** What a new submission starts with. */
  function Budget(longest: nat): nat {
    29 + 6 * longest
  }

  // ---------------------------------------------------------------- the one carrier

  datatype Life =
    | Table                                  // the row alone, messages may be on their way
    | Held(task: Task)                       // in the sweep's batch
    | Passed(task: Task)                     // the live count let it pass
    | Waiting(task: Task)                    // on its way to the sandbox
    | Air(flight: Flight)                    // with a goroutine whose send has returned
    | Running(task: Task, reported: bool)    // in the running phase; the goroutine may still have to report it

  predicate OnItsWay(life: Life) {
    life.Waiting? || life.Air? || life.Running?
  }

  /** The trace holds this carrier and nothing else. */
  ghost predicate CarriedBy(tr: Trace, life: Life) {
    && tr.owed.None?
    && tr.pended == (if life.Waiting? then multiset{life.task} else multiset{})
    && tr.watched == (if life.Running? then multiset{life.task} else multiset{})
    && tr.flying == (match life
                     case Air(f) => multiset{f}
                     case Running(t, reported) => if reported then multiset{} else multiset{Queued(t)}
                     case _ => multiset{})
    && tr.swept == (if life.Held? then multiset{life.task} else multiset{})
    && (if life.Passed? then tr.phase == Admitting(life.task)
        else tr.phase.Sweeping? || (tr.phase.Marking? && OnItsWay(life)))
  }

  /** The sweep's copy of the row. */
  predicate Reads(t: Task, row: LiveRow) {
    && t.status == row.status && t.sandboxRetries == row.sandboxRetries && t.runningRetries == row.runningRetries
    && !t.logQueueFailed
  }

  predicate InQueue(status: Status) {
    RowStatus(status) && !NotInQueue(status)
  }

  /** Its row and messages: only the last message may hand the task back, and only when no copy is left. */
  ghost predicate TableFits(tr: Trace, life: Life, longest: nat, m: int) {
    && (forall k | 0 <= k < |tr.mail| :: MessageFits(tr.mail[k], longest, m))
    && (forall k | 0 <= k < |tr.mail| :: k < |tr.mail| - 1 || OnItsWay(life) ==> InQueue(tr.mail[k].status))
    && RowStatus(tr.row.status) && !tr.row.logQueueFailed
    && (NotInQueue(tr.row.status) ==> tr.mail == [])
    && (OnItsWay(life) ==>
          if tr.phase.Marking? then InQueue(tr.phase.status) else InQueue(tr.row.status))
    && (!OnItsWay(life) ==> Rests(tr.row.status, tr.row.sandboxRetries, tr.row.runningRetries, longest, m))
    && (life.Held? || life.Passed? ==> Reads(life.task, tr.row) && NotInQueue(tr.row.status))
    && (life.Passed? ==> tr.row.status == PendingNotInQueue)
  }

  predicate CopyFits(life: Life, last: int, now: int, longest: nat, m: int) {
    match life
    case Waiting(t) => PendingFits(t, longest, m)
    case Air(f) => FlightFits(f, now, longest, m)
    case Running(t, _) => WatchedFits(t, last, now, longest, m)
    case _ => true
  }

  ghost predicate Fits(tr: Trace, life: Life, last: int, now: int, longest: nat, m: int) {
    m >= 0 && CarriedBy(tr, life) && TableFits(tr, life, longest, m) && CopyFits(life, last, now, longest, m)
  }

  // ---------------------------------------------------------------- how a fitting trace may change

  lemma Later(tr: Trace, life: Life, last: int, now: int, now': int, longest: nat, m: int)
    requires Fits(tr, life, last, now, longest, m) && now <= now'
    ensures Fits(tr, life, last, now', longest, m)
  {
  }

  /** The copy is used up and a message is sent about it. */
  lemma Posted(tr: Trace, tr': Trace, life: Life, t: Task, last: int, last': int, now: int, longest: nat, m: int,
               m': int)
    requires Fits(tr, life, last, now, longest, m) && OnItsWay(life) && tr.phase.Sweeping?
    requires m' >= 0 && MessageFits(t, longest, m')
    requires tr' == Trace(tr.row, multiset{}, multiset{}, multiset{}, multiset{}, Sweeping, tr.mail + [t], None)
    ensures Fits(tr', Table, last', now, longest, m')
  {
  }

  /** The copy goes on as another one. */
  lemma Moved(tr: Trace, tr': Trace, life: Life, life': Life, last: int, last': int, now: int, longest: nat, m: int,
              m': int)
    requires Fits(tr, life, last, now, longest, m) && OnItsWay(life) && OnItsWay(life')
    requires tr'.row == tr.row && tr'.mail == tr.mail && tr'.phase == tr.phase && CarriedBy(tr', life')
    requires m' >= 0 && CopyFits(life', last', now, longest, m')
    ensures Fits(tr', life', last', now, longest, m')
  {
  }

  /** The sweep takes the row up: a copy is on its way before the row is written. */
  lemma TakenUp(tr: Trace, tr': Trace, life: Life, life': Life, last: int, now: int, longest: nat, m: int, m': int)
    requires Fits(tr, life, last, now, longest, m) && (life.Held? || life.Passed?) && OnItsWay(life')
    requires tr'.row == tr.row && tr'.mail == tr.mail && CarriedBy(tr', life')
    requires tr'.phase.Marking? && InQueue(tr'.phase.status)
    requires m' >= 0 && CopyFits(life', last, now, longest, m')
    ensures Fits(tr', life', last, now, longest, m')
  {
  }

  /** The sweep fetches, drops or passes the row. */
  lemma Swept(tr: Trace, tr': Trace, life: Life, life': Life, last: int, now: int, longest: nat, m: int)
    requires Fits(tr, life, last, now, longest, m) && !OnItsWay(life) && !OnItsWay(life')
    requires tr'.row == tr.row && tr'.mail == tr.mail && CarriedBy(tr', life')
    requires life'.Held? || life'.Passed? ==> Reads(life'.task, tr.row) && NotInQueue(tr.row.status)
    requires life'.Passed? ==> tr.row.status == PendingNotInQueue
    ensures Fits(tr', life', last, now, longest, m)
  {
  }

  /** The row just taken up is written. */
  lemma Written(tr: Trace, tr': Trace, life: Life, last: int, now: int, longest: nat, m: int)
    requires Fits(tr, life, last, now, longest, m) && tr.phase.Marking?
    requires tr' == tr.(row := tr.row.(status := tr.phase.status), phase := Sweeping)
    ensures Fits(tr', life, last, now, longest, m)
  {
  }

  /** The oldest message is applied. */
  lemma AppliedFits(tr: Trace, tr': Trace, life: Life, t: Task, rest: seq<Task>, last: int, now: int, longest: nat,
                    m: int)
    requires Fits(tr, life, last, now, longest, m) && !tr.phase.Marking? && tr.mail == [t] + rest
    requires tr' == tr.(row := WriteBack(tr.row, t), mail := rest)
    ensures Fits(tr', life, last, now, longest, m)
  {
    assert tr.mail[0] == t && forall k | 0 <= k < |rest| :: rest[k] == tr.mail[k + 1];
  }

  /** The goroutine reports what it has pushed. */
  lemma Announced(tr: Trace, tr': Trace, t: Task, last: int, now: int, longest: nat, m: int)
    requires Fits(tr, Running(t, false), last, now, longest, m) && tr.phase.Sweeping?
    requires tr' == tr.(flying := multiset{}, mail := tr.mail + [t.(status := RunningInQueue)])
    ensures Fits(tr', Running(t, true), last, now, longest, m)
  {
  }

  // ---------------------------------------------------------------- tracked states

  ghost predicate Tracked(s: State, id: int, life: Life, last: int, longest: nat, m: int) {
    id in s.db.live && Fits(TraceOf(s, id), life, last, s.world.now, longest, m)
  }

  /** The task is done, or tracked with the budget m. */
  ghost predicate Follows(s: State, id: int, life: Life, last: int, longest: nat, m: int) {
    Done(s, id) || Tracked(s, id, life, last, longest, m)
  }

  /** What a step leaves as it was. */
  lemma Unchanged(s: State, s': State, id: int, life: Life, last: int, longest: nat, m: int)
    requires Tracked(s, id, life, last, longest, m) && s'.world.now >= s.world.now
    requires id in s'.db.live && TraceOf(s', id) == TraceOf(s, id)
    ensures Tracked(s', id, life, last, longest, m)
  {
    Later(TraceOf(s, id), life, last, s.world.now, s'.world.now, longest, m);
  }

  // ---------------------------------------------------------------- the pending handler and its goroutines

  lemma MovesFollow(s: State, step: PendingStep, id: int, life: Life, last: int, longest: nat, m: int)
    requires Tracked(s, id, life, last, longest, m) && PendingEnabled(s, step)
    requires step.Poll? || step.TakePending? || step.CloseBatch?
             || (step.Start? && !PendingExpired(s.pender.batch[0], step.timeout, s.world.now))
    ensures Tracked(PendingApply(s, step), id, life, last, longest, m)
  {
    TraceMoves(s, step, id);
    var s' := PendingApply(s, step);
    assert s'.db == s.db && s'.world == s.world;
    Unchanged(s, s', id, life, last, longest, m);
  }

  lemma ExpiryFollows(s: State, s': State, timeout: int, id: int, life: Life, last: int, longest: nat, m: int, m': int)
    requires PendingEnabled(s, Start(timeout, true)) && PendingExpired(s.pender.batch[0], timeout, s.world.now)
    requires s' == PendingApply(s, Start(timeout, true)) && Tracked(s, id, life, last, longest, m)
    requires s.pender.batch[0].id != id ==> m' == m
    ensures Follows(s', id, life, last, longest, m')
  {
    TraceExpired(s, timeout, id);
    if s.pender.batch[0].id == id {
      DoneBySending(s, s', s.pender.batch[0].(status := Aborted));
    } else {
      Unchanged(s, s', id, life, last, longest, m);
    }
  }

  lemma SendFollows(s: State, task: Task, created: bool, id: int, life: Life, last: int, longest: nat, m: int)
    returns (life': Life)
    requires PendingEnabled(s, Send(task, created)) && Tracked(s, id, life, last, longest, m)
    ensures Tracked(PendingApply(s, Send(task, created)), id, life', last, longest, m)
  {
    var s' := PendingApply(s, Send(task, created));
    TraceSend(s, task, created, id);
    if task.id == id {
      var f := Returned(s, task, created);
      SentLife(TraceOf(s, id), TraceOf(s', id), life, task, f, last, s.world.now, longest, m);
      life' := Air(f);
    } else {
      Unchanged(s, s', id, life, last, longest, m);
      life' := life;
    }
  }

  lemma SentLife(tr: Trace, tr': Trace, life: Life, t: Task, f: Flight, last: int, now: int, longest: nat, m: int)
    requires Fits(tr, life, last, now, longest, m) && t in tr.pended
    requires f == SendFailed(t) || (exists k :: f == Created(t.(sandboxId := k, runningStartedAt := now)))
    requires tr' == tr.(pended := tr.pended - multiset{t}, flying := tr.flying + multiset{f})
    ensures Fits(tr', Air(f), last, now, longest, m)
  {
    assert life == Waiting(t);
    Moved(tr, tr', life, Air(f), last, last, now, longest, m, m);
  }

  predicate FailureFits(task: Task, route: FailureRoute, longest: nat, m: int) {
    && m >= 1 && route.task.id == task.id
    && (route.Requeue? ==> PendingFits(route.task, longest, m - 1))
    && (route.SendBack? ==> MessageFits(route.task.(status := PendingNotInQueue), longest, m - 1))
  }

  /** A failed send costs two of the budget, or one when the task goes back through the table. */
  lemma FailureCosts(task: Task, requeued: bool, longest: nat, m: int)
    requires PendingFits(task, longest, m)
    ensures FailureFits(task, RouteOf(task, requeued), longest, m)
  {
  }

  lemma FailedCopy(s: State, t: Task, life: Life, last: int, longest: nat, m: int)
    requires Tracked(s, t.id, life, last, longest, m) && SendFailed(t) in TraceOf(s, t.id).flying
    ensures PendingFits(t, longest, m)
  {
    assert life == Air(SendFailed(t));
  }

  lemma FailureFollows(s: State, task: Task, requeued: bool, id: int, life: Life, last: int, longest: nat, m: int)
    returns (life': Life)
    requires PendingEnabled(s, RouteFailure(task, requeued, true)) && Tracked(s, id, life, last, longest, m)
    requires !s.sweeper.phase.Marking?
    ensures Follows(PendingApply(s, RouteFailure(task, requeued, true)), id, life', last, longest,
                    if task.id == id then m - 1 else m)
  {
    var s' := PendingApply(s, RouteFailure(task, requeued, true));
    TraceFailure(s, s', task, requeued, id);
    if task.id != id {
      Unchanged(s, s', id, life, last, longest, m);
      life' := life;
    } else {
      FailedCopy(s, task, life, last, longest, m);
      FailureCosts(task, requeued, longest, m);
      life' := OwnFailure(s, s', task, RouteOf(task, requeued), life, last, longest, m);
    }
  }

  lemma OwnFailure(s: State, s': State, t: Task, route: FailureRoute, life: Life, last: int, longest: nat, m: int)
    returns (life': Life)
    requires Tracked(s, t.id, life, last, longest, m) && !s.sweeper.phase.Marking?
    requires s'.db == s.db && s'.world == s.world && SendFailed(t) in TraceOf(s, t.id).flying
    requires var left := TraceOf(s, t.id).(flying := TraceOf(s, t.id).flying - multiset{SendFailed(t)});
             TraceOf(s', t.id) == FailureTrace(left, route)
    requires route.GiveUp? ==> Pending(s') == Pending(s) + [route.task.(status := Aborted)]
    requires FailureFits(t, route, longest, m)
    ensures Follows(s', t.id, life', last, longest, m - 1)
  {
    life' := life;
    if route.GiveUp? {
      DoneBySending(s, s', route.task.(status := Aborted));
    } else {
      life' := FailedLife(TraceOf(s, t.id), TraceOf(s', t.id), life, t, route, last, s.world.now, longest, m);
    }
  }

  lemma FailedLife(tr: Trace, tr': Trace, life: Life, t: Task, route: FailureRoute, last: int, now: int, longest: nat,
                   m: int)
    returns (life': Life)
    requires Fits(tr, life, last, now, longest, m) && SendFailed(t) in tr.flying && tr.phase.Sweeping?
    requires !route.GiveUp? && tr' == FailureTrace(tr.(flying := tr.flying - multiset{SendFailed(t)}), route)
    requires FailureFits(t, route, longest, m)
    ensures Fits(tr', life', last, now, longest, m - 1)
  {
    assert life == Air(SendFailed(t));
    if route.Requeue? {
      life' := Waiting(route.task);
      Moved(tr, tr', life, life', last, last, now, longest, m, m - 1);
    } else {
      life' := Table;
      Posted(tr, tr', life, route.task.(status := PendingNotInQueue), last, last, now, longest, m, m - 1);
    }
  }

  /** An accepted send costs at least one: from here only the running phase is left. */
  lemma AcceptedCosts(task: Task, last: int, now: int, longest: nat, m: int)
    requires FlightFits(Created(task), now, longest, m)
    ensures m >= 1 && WatchedFits(task, last, now, longest, m - 1) && FlightFits(Refused(task), now, longest, m - 1)
  {
  }

  lemma CreatedFollows(s: State, task: Task, queued: bool, id: int, life: Life, last: int, longest: nat, m: int)
    returns (life': Life)
    requires PendingEnabled(s, RouteCreated(task, queued)) && Tracked(s, id, life, last, longest, m)
    ensures Tracked(PendingApply(s, RouteCreated(task, queued)), id, life', last, longest,
                    if task.id == id then m - 1 else m)
  {
    var s' := PendingApply(s, RouteCreated(task, queued));
    TraceCreated(s, task, queued, id);
    if task.id == id {
      life' := if queued then Running(task, false) else Air(Refused(task));
      AcceptedLife(TraceOf(s, id), TraceOf(s', id), life, task, queued, last, s.world.now, longest, m);
    } else {
      Unchanged(s, s', id, life, last, longest, m);
      life' := life;
    }
  }

  lemma AcceptedLife(tr: Trace, tr': Trace, life: Life, t: Task, queued: bool, last: int, now: int, longest: nat,
                     m: int)
    requires Fits(tr, life, last, now, longest, m) && Created(t) in tr.flying
    requires tr' == tr.(flying := tr.flying - multiset{Created(t)} + multiset{if queued then Queued(t) else Refused(t)},
                        watched := if queued then tr.watched + multiset{t} else tr.watched)
    ensures Fits(tr', if queued then Running(t, false) else Air(Refused(t)), last, now, longest, m - 1)
  {
    assert life == Air(Created(t));
    AcceptedCosts(t, last, now, longest, m);
    Moved(tr, tr', life, if queued then Running(t, false) else Air(Refused(t)), last, last, now, longest, m, m - 1);
  }

  lemma StatusFollows(s: State, f: Flight, id: int, life: Life, last: int, longest: nat, m: int)
    returns (life': Life)
    requires PendingEnabled(s, RouteStatus(f, true)) && Tracked(s, id, life, last, longest, m)
    requires !s.sweeper.phase.Marking?
    ensures Tracked(PendingApply(s, RouteStatus(f, true)), id, life', last, longest, m)
  {
    var s' := PendingApply(s, RouteStatus(f, true));
    TraceStatus(s, f, id);
    if f.task.id != id {
      Unchanged(s, s', id, life, last, longest, m);
      life' := life;
    } else {
      life' := if f.Queued? then Running(f.task, true) else Table;
      StatusLife(TraceOf(s, id), TraceOf(s', id), life, f, last, s.world.now, longest, m);
    }
  }

  lemma StatusLife(tr: Trace, tr': Trace, life: Life, f: Flight, last: int, now: int, longest: nat, m: int)
    requires Fits(tr, life, last, now, longest, m) && f in tr.flying && (f.Queued? || f.Refused?) && tr.phase.Sweeping?
    requires var t := f.task.(status := if f.Queued? then RunningInQueue else RunningNotInQueue);
             tr' == tr.(flying := tr.flying - multiset{f}, mail := tr.mail + [t])
    ensures Fits(tr', if f.Queued? then Running(f.task, true) else Table, last, now, longest, m)
  {
    if f.Queued? {
      assert life == Running(f.task, false);
      Announced(tr, tr', f.task, last, now, longest, m);
    } else {
      assert life == Air(f);
      Posted(tr, tr', life, f.task.(status := RunningNotInQueue), last, last, now, longest, m, m);
    }
  }

  lemma PendFollows(s: State, step: PendingStep, id: int, life: Life, last: int, longest: nat, m: int)
    returns (life': Life)
    requires PendingEnabled(s, step) && OrderlyStep(s, Pend(step))
    requires Tracked(s, id, life, last, longest, m)
    ensures Follows(PendingApply(s, step), id, life', last, longest, if ActsOn(s, Pend(step), id) then m - 1 else m)
  {
    var m' := if ActsOn(s, Pend(step), id) then m - 1 else m;
    life' := life;
    match step
    case Start(timeout, pushed) =>
      if PendingExpired(s.pender.batch[0], timeout, s.world.now) {
        ExpiryFollows(s, PendingApply(s, step), timeout, id, life, last, longest, m, m');
      } else {
        MovesFollow(s, step, id, life, last, longest, m);
      }
    case Send(task, created) => life' := SendFollows(s, task, created, id, life, last, longest, m);
    case RouteFailure(task, requeued, _) => life' := FailureFollows(s, task, requeued, id, life, last, longest, m);
    case RouteCreated(task, queued) => life' := CreatedFollows(s, task, queued, id, life, last, longest, m);
    case RouteStatus(f, _) => life' := StatusFollows(s, f, id, life, last, longest, m);
    case _ => MovesFollow(s, step, id, life, last, longest, m);
  }

  // ---------------------------------------------------------------- the running handler

  /** What one check costs: a retry, a tick of waiting, or less than nothing for a bounce. */
  lemma CheckCosts(t: Task, last: int, now: int, timeout: int, snapshot: map<int, SandboxStatus>, longest: nat, m: int)
    requires WatchedFits(t, last, now, longest, m)
    ensures m >= 1
    ensures var verdict := CheckTask(t, snapshot, timeout, now);
            && (verdict.Finish? ==> Terminal(verdict.status))
            && (verdict.Lost? ==> MessageFits(Retried(t).(status := RunningNotInQueue), longest, m - 1))
            && (verdict.KeepWaiting? && timeout <= longest && last < now ==>
                  && WatchedFits(t, now, now, longest, m - 1)
                  && MessageFits(t.(status := RunningNotInQueue), longest, m - 1 + longest + 3))
  {
    var verdict := CheckTask(t, snapshot, timeout, now);
    assert verdict.Finish? || verdict.Exhausted? || verdict.Lost? || verdict.KeepWaiting?;
  }

  lemma CheckedLife(tr: Trace, tr': Trace, life: Life, t: Task, verdict: RunningVerdict, requeued: bool, last: int,
                    last': int, now: int, longest: nat, m: int, m': int)
    returns (life': Life)
    requires Fits(tr, life, last, now, longest, m) && t in tr.watched && tr.phase.Sweeping?
    requires tr.flying == multiset{} && m' >= 0 && CheckedTrace(tr, tr', t, verdict, requeued)
    requires match verdict
             case Lost => MessageFits(Retried(t).(status := RunningNotInQueue), longest, m')
             case KeepWaiting => if requeued then WatchedFits(t, last', now, longest, m')
                                 else MessageFits(t.(status := RunningNotInQueue), longest, m')
             case _ => false
    ensures Fits(tr', life', last', now, longest, m')
  {
    assert life == Running(t, true);
    if verdict.KeepWaiting? && requeued {
      life' := life;
      Moved(tr, tr', life, life', last, last', now, longest, m, m');
    } else {
      life' := Table;
      var message := (if verdict.Lost? then Retried(t) else t).(status := RunningNotInQueue);
      Posted(tr, tr', life, message, last, last', now, longest, m, m');
    }
  }

  /** Without a goroutine between its two pushes the task's copy is all there is. */
  lemma NoneQueued(s: State, id: int, life: Life, last: int, longest: nat, m: int)
    requires Tracked(s, id, life, last, longest, m) && forall f | f in s.pender.returned :: !f.Queued?
    ensures life.Running? ==> TraceOf(s, id).flying == multiset{}
  {
    if life.Running? && !life.reported {
      PartAt(s.pender.returned, Carries(id), Queued(life.task));
      assert false;
    }
  }

  lemma WatchedCopy(s: State, t: Task, id: int, life: Life, last: int, longest: nat, m: int)
    requires Tracked(s, id, life, last, longest, m) && t in TraceOf(s, id).watched
    requires forall f | f in s.pender.returned :: !f.Queued?
    ensures TraceOf(s, id).flying == multiset{} && WatchedFits(t, last, s.world.now, longest, m)
  {
    assert life.Running? && life.task == t;
    NoneQueued(s, id, life, last, longest, m);
  }

  lemma OwnCheck(s: State, s': State, t: Task, verdict: RunningVerdict, requeued: bool, life: Life, last: int,
                 last': int, longest: nat, m: int, m': int)
    returns (life': Life)
    requires Tracked(s, t.id, life, last, longest, m) && t in TraceOf(s, t.id).watched
    requires TraceOf(s, t.id).flying == multiset{} && !s.sweeper.phase.Marking?
    requires s'.db == s.db && s'.world == s.world && m' >= 0
    requires CheckedTrace(TraceOf(s, t.id), TraceOf(s', t.id), t, verdict, requeued)
    requires match verdict
             case Finish(status) => Terminal(status) && Pending(s') == Pending(s) + [t.(status := status)]
             case Exhausted => Pending(s') == Pending(s) + [Retried(t).(status := Aborted)]
             case Lost => MessageFits(Retried(t).(status := RunningNotInQueue), longest, m')
             case KeepWaiting => if requeued then WatchedFits(t, last', s.world.now, longest, m')
                                 else MessageFits(t.(status := RunningNotInQueue), longest, m')
    ensures Follows(s', t.id, life', last', longest, m')
  {
    life' := life;
    match verdict
    case Finish(status) => DoneBySending(s, s', t.(status := status));
    case Exhausted => DoneBySending(s, s', Retried(t).(status := Aborted));
    case _ =>
      life' := CheckedLife(TraceOf(s, t.id), TraceOf(s', t.id), life, t, verdict, requeued, last, last', s.world.now,
                           longest, m, m');
  }

  /** What the check of the task itself makes of the account. */
  lemma CheckSpends(s: State, timeout: int, id: int, last: int, longest: nat, m: int)
    requires s.runner.batch != []
    ensures var step := Watch(Check(timeout, true));
            var waits := CheckTask(s.runner.batch[0], s.runner.snapshot, timeout, s.world.now).KeepWaiting?;
            if s.runner.batch[0].id != id
            then NextLast(s, step, id, last) == last && Spend(s, step, id, longest, m) == m
            else && NextLast(s, step, id, last) == (if waits then s.world.now else last)
                 && Spend(s, step, id, longest, m)
                    == if waits && !Room(s.ch.running) then m - 1 + longest + 3 else m - 1
  {
  }

  lemma CheckFollows(s: State, step: RunningStep, id: int, life: Life, last: int, longest: nat, m: int)
    returns (life': Life)
    requires step.Check? && RunningEnabled(s, step) && SmoothStep(s, Watch(step), id, last, longest)
    requires Tracked(s, id, life, last, longest, m)
    ensures Follows(RunningApply(s, step), id, life', NextLast(s, Watch(step), id, last), longest,
                    Spend(s, Watch(step), id, longest, m))
  {
    var t, s' := s.runner.batch[0], RunningApply(s, step);
    var last', m' := NextLast(s, Watch(step), id, last), Spend(s, Watch(step), id, longest, m);
    var verdict := CheckTask(t, s.runner.snapshot, step.timeout, s.world.now);
    TraceCheck(s, step.timeout, id);
    CheckSpends(s, step.timeout, id, last, longest, m);
    if t.id != id {
      Unchanged(s, s', id, life, last, longest, m);
      life' := life;
    } else {
      WatchedCopy(s, t, id, life, last, longest, m);
      CheckCosts(t, last, s.world.now, step.timeout, s.runner.snapshot, longest, m);
      life' := OwnCheck(s, s', t, verdict, Room(s.ch.running), life, last, last', longest, m, m');
    }
  }

  lemma WatchFollows(s: State, step: RunningStep, id: int, life: Life, last: int, longest: nat, m: int)
    returns (life': Life)
    requires RunningEnabled(s, step) && SmoothStep(s, Watch(step), id, last, longest)
    requires Tracked(s, id, life, last, longest, m)
    ensures Follows(RunningApply(s, step), id, life', NextLast(s, Watch(step), id, last), longest,
                    Spend(s, Watch(step), id, longest, m))
  {
    if step.Check? {
      life' := CheckFollows(s, step, id, life, last, longest, m);
    } else {
      life' := life;
      QuietFollows(s, step, id, life, last, longest, m);
    }
  }

  lemma QuietFollows(s: State, step: RunningStep, id: int, life: Life, last: int, longest: nat, m: int)
    requires RunningEnabled(s, step) && LogAccepts(Watch(step)) && !step.Check?
    requires Tracked(s, id, life, last, longest, m)
    ensures NextLast(s, Watch(step), id, last) == last && Spend(s, Watch(step), id, longest, m) == m
    ensures Tracked(RunningApply(s, step), id, life, last, longest, m)
  {
    if step.Owe? {
      assert s.runner.owed.value.id != id;
      TraceOwed(s, id);
    } else {
      TraceWatching(s, step, id);
    }
    Unchanged(s, RunningApply(s, step), id, life, last, longest, m);
  }

  // ---------------------------------------------------------------- the sweep

  lemma FetchFollows(s: State, batch: seq<Task>, id: int, life: Life, last: int, longest: nat, m: int)
    returns (life': Life)
    requires SweepEnabled(s, Fetch(batch)) && Tracked(s, id, life, last, longest, m)
    ensures Tracked(SweepApply(s, Fetch(batch)), id, life', last, longest, m)
  {
    var s' := SweepApply(s, Fetch(batch));
    SweptFresh(s.db, batch, id);
    PartNone(multiset(s.sweeper.batch), Has(id));
    life' := if Selected(s.db, id) then Held(TaskOf(id, s.db.live[id], s.db.fods[id])) else life;
    FetchedLife(TraceOf(s, id), TraceOf(s', id), life, life', last, s.world.now, longest, m);
  }

  lemma FetchedLife(tr: Trace, tr': Trace, life: Life, life': Life, last: int, now: int, longest: nat, m: int)
    requires Fits(tr, life, last, now, longest, m) && tr.swept == multiset{} && tr.phase.Sweeping?
    requires if life'.Held? then Reads(life'.task, tr.row) && NotInQueue(tr.row.status) else life' == life
    requires tr' == tr.(swept := if life'.Held? then multiset{life'.task} else multiset{})
    ensures Fits(tr', life', last, now, longest, m)
  {
    if life'.Held? {
      assert life == Table || life == life';
      Swept(tr, tr', life, life', last, now, longest, m);
    } else {
      assert tr' == tr;
    }
  }

  lemma DroppedLife(tr: Trace, tr': Trace, life: Life, t: Task, last: int, now: int, longest: nat, m: int)
    requires Fits(tr, life, last, now, longest, m) && t in tr.swept
    requires tr' == tr.(swept := tr.swept - multiset{t})
    ensures Fits(tr', Table, last, now, longest, m)
  {
    assert life == Held(t);
    Swept(tr, tr', life, Table, last, now, longest, m);
  }

  lemma ToLogFollows(s: State, status: Status, pushed: bool, id: int, life: Life, last: int, longest: nat, m: int)
    returns (life': Life)
    requires s.sweeper.batch != [] && (s.sweeper.phase.Sweeping? || s.sweeper.phase.Rejecting?)
    requires Tracked(s, id, life, last, longest, m)
    requires pushed && s.sweeper.batch[0].id == id ==> Terminal(status)
    ensures Follows(SweepToLog(s, status, pushed), id, life', last, longest,
                    if pushed && s.sweeper.batch[0].id == id then m - 1 else m)
  {
    var t, s' := s.sweeper.batch[0], SweepToLog(s, status, pushed);
    TraceToLog(s, status, pushed, id);
    life' := life;
    if t.id != id {
      Unchanged(s, s', id, life, last, longest, m);
    } else if pushed {
      DoneBySending(s, s', t.(status := status));
    } else {
      life' := Table;
      DroppedLife(TraceOf(s, id), TraceOf(s', id), life, t, last, s.world.now, longest, m);
    }
  }

  lemma FlagUnseen(s: State, id: int, life: Life, last: int, longest: nat, m: int)
    requires s.sweeper.batch != [] && s.sweeper.batch[0].logQueueFailed && Tracked(s, id, life, last, longest, m)
    ensures s.sweeper.batch[0].id != id
  {
    SweptHead(s.sweeper.batch, id);
  }

  lemma PassedLife(tr: Trace, tr': Trace, life: Life, t: Task, last: int, now: int, longest: nat, m: int)
    requires Fits(tr, life, last, now, longest, m) && t in tr.swept && t.status == PendingNotInQueue
    requires tr' == tr.(swept := tr.swept - multiset{t}, phase := Admitting(t))
    ensures Fits(tr', Passed(t), last, now, longest, m)
  {
    assert life == Held(t);
    Swept(tr, tr', life, Passed(t), last, now, longest, m);
  }

  lemma CountPasses(s: State, past: History, id: int, life: Life, last: int, longest: nat, m: int)
    returns (life': Life)
    requires SweepAt(s.sweeper, PendingNotInQueue) && Tracked(s, id, life, last, longest, m)
    ensures Tracked(Beheaded(s, Admitting(s.sweeper.batch[0])).(past := past), id, life', last, longest, m)
  {
    var t := s.sweeper.batch[0];
    var s' := Beheaded(s, Admitting(t)).(past := past);
    TracePassed(s, past, id);
    if t.id == id {
      life' := Passed(t);
      PassedLife(TraceOf(s, id), TraceOf(s', id), life, t, last, s.world.now, longest, m);
    } else {
      life' := life;
      Unchanged(s, s', id, life, last, longest, m);
    }
  }

  lemma CountFollows(s: State, read: bool, id: int, life: Life, last: int, longest: nat, m: int)
    returns (life': Life)
    requires SweepEnabled(s, Count(read)) && Tracked(s, id, life, last, longest, m)
    ensures Tracked(SweepApply(s, Count(read)), id, life', last, longest, m)
  {
    var past := SweepApply(s, Count(read)).past;
    if (if read then |s.db.live| else 0) < MAX_FREE_VMS {
      life' := CountPasses(s, past, id, life, last, longest, m);
    } else {
      CountStops(s, past, id, life, last, longest, m);
      life' := life;
    }
  }

  lemma CountStops(s: State, past: History, id: int, life: Life, last: int, longest: nat, m: int)
    requires s.sweeper.phase.Sweeping? && Tracked(s, id, life, last, longest, m)
    ensures Tracked(s.(past := past, sweeper := s.sweeper.(phase := Rejecting)), id, life, last, longest, m)
  {
    var s' := s.(past := past, sweeper := s.sweeper.(phase := Rejecting));
    TraceSweep(s, s', id);
    Unchanged(s, s', id, life, last, longest, m);
  }

  /** An admission costs one, which the row had paid for; so does a resumption. */
  lemma TakeUpCosts(t: Task, now: int, last: int, longest: nat, m: int)
    requires !t.logQueueFailed && NotInQueue(t.status)
    requires Rests(t.status, t.sandboxRetries, t.runningRetries, longest, m)
    ensures m >= 1
    ensures if t.status == PendingNotInQueue then PendingFits(t.(status := PendingInQueue), longest, m - 1)
            else WatchedFits(t.(status := RunningInQueue, runningStartedAt := now), last, now, longest, m - 1)
  {
  }

  lemma AdmittedLife(tr: Trace, tr': Trace, life: Life, t: Task, pushed: bool, id: int, last: int, now: int,
                     longest: nat, m: int)
    returns (life': Life)
    requires Fits(tr, life, last, now, longest, m) && tr.phase == Admitting(t)
    requires tr' == if !pushed then tr.(phase := Sweeping)
                    else tr.(phase := Marking(id, PendingInQueue),
                             pended := tr.pended + multiset{t.(status := PendingInQueue)})
    ensures Fits(tr', life', last, now, longest, if pushed then m - 1 else m)
  {
    assert life == Passed(t);
    if pushed {
      TakeUpCosts(t, now, last, longest, m);
      life' := Waiting(t.(status := PendingInQueue));
      TakenUp(tr, tr', life, life', last, now, longest, m, m - 1);
    } else {
      life' := Table;
      Swept(tr, tr', life, life', last, now, longest, m);
    }
  }

  lemma AdmitFollows(s: State, pushed: bool, id: int, life: Life, last: int, longest: nat, m: int)
    returns (life': Life)
    requires SweepEnabled(s, Admit(pushed)) && Tracked(s, id, life, last, longest, m)
    ensures Tracked(SweepApply(s, Admit(pushed)), id, life', last, longest,
                    if SweepActs(s, Admit(pushed), id) then m - 1 else m)
  {
    var s' := SweepApply(s, Admit(pushed));
    TraceAdmit(s, pushed, id);
    if s.sweeper.phase.task.id == id {
      life' := AdmittedLife(TraceOf(s, id), TraceOf(s', id), life, s.sweeper.phase.task, pushed, id, last, s.world.now,
                            longest, m);
    } else {
      Unchanged(s, s', id, life, last, longest, m);
      life' := life;
    }
  }

  lemma ResumedLife(tr: Trace, tr': Trace, life: Life, t: Task, id: int, last: int, now: int, longest: nat, m: int)
    returns (life': Life)
    requires Fits(tr, life, last, now, longest, m) && t in tr.swept && t.status == RunningNotInQueue
    requires tr' == tr.(swept := tr.swept - multiset{t}, phase := Marking(id, RunningInQueue),
                        watched := tr.watched + multiset{t.(status := RunningInQueue, runningStartedAt := now)})
    ensures Fits(tr', life', last, now, longest, m - 1)
  {
    assert life == Held(t);
    TakeUpCosts(t, now, last, longest, m);
    life' := Running(t.(status := RunningInQueue, runningStartedAt := now), true);
    TakenUp(tr, tr', life, life', last, now, longest, m, m - 1);
  }

  lemma ResumeFollows(s: State, s': State, pushed: bool, id: int, life: Life, last: int, longest: nat, m: int)
    returns (life': Life)
    requires SweepEnabled(s, Resume(pushed)) && s' == SweepApply(s, Resume(pushed))
    requires Tracked(s, id, life, last, longest, m)
    ensures Tracked(s', id, life', last, longest, if SweepActs(s, Resume(pushed), id) then m - 1 else m)
  {
    var t := s.sweeper.batch[0];
    TraceResume(s, pushed, id);
    if t.id != id {
      Unchanged(s, s', id, life, last, longest, m);
      life' := life;
    } else if pushed {
      life' := ResumedLife(TraceOf(s, id), TraceOf(s', id), life, t, id, last, s.world.now, longest, m);
    } else {
      DroppedLife(TraceOf(s, id), TraceOf(s', id), life, t, last, s.world.now, longest, m);
      life' := Table;
    }
  }

  lemma ClearsOther(s: State, id: int, life: Life)
    requires id in s.db.live && CarriedBy(TraceOf(s, id), life)
    ensures s.sweeper.phase.Clearing? ==> s.sweeper.phase.id != id
  {
    NotClearing(TraceOf(s, id), life);
    assert TraceOf(s, id).phase == PhaseOf(s.sweeper.phase, id);
  }

  lemma NotClearing(tr: Trace, life: Life)
    requires CarriedBy(tr, life)
    ensures !tr.phase.Clearing?
  {
  }

  lemma UpdateFollows(s: State, s': State, id: int, life: Life, last: int, longest: nat, m: int)
    requires SweepEnabled(s, Update) && s' == SweepApply(s, Update) && Tracked(s, id, life, last, longest, m)
    ensures Tracked(s', id, life, last, longest, m)
  {
    ClearsOther(s, id, life);
    TraceUpdate(s, id);
    if s.sweeper.phase.id == id {
      Written(TraceOf(s, id), TraceOf(s', id), life, last, s.world.now, longest, m);
    } else {
      Unchanged(s, s', id, life, last, longest, m);
    }
  }

  lemma SweepFollows(s: State, step: SweepStep, id: int, life: Life, last: int, longest: nat, m: int)
    returns (life': Life)
    requires SweepEnabled(s, step) && Tracked(s, id, life, last, longest, m)
    ensures Follows(SweepApply(s, step), id, life', last, longest, if SweepActs(s, step, id) then m - 1 else m)
  {
    life' := life;
    match step
    case Fetch(batch) => life' := FetchFollows(s, batch, id, life, last, longest, m);
    case Flagged(pushed) =>
      FlagUnseen(s, id, life, last, longest, m);
      life' := ToLogFollows(s, FlaggedStatus(s.sweeper.batch[0].status), pushed, id, life, last, longest, m);
    case Malicious(through, pushed) => life' := ToLogFollows(s, through, pushed, id, life, last, longest, m);
    case Count(read) => life' := CountFollows(s, read, id, life, last, longest, m);
    case Reject(pushed) => life' := ToLogFollows(s, Aborted, pushed, id, life, last, longest, m);
    case Admit(pushed) => life' := AdmitFollows(s, pushed, id, life, last, longest, m);
    case Resume(pushed) => life' := ResumeFollows(s, SweepApply(s, step), pushed, id, life, last, longest, m);
    case Update => UpdateFollows(s, SweepApply(s, step), id, life, last, longest, m);
  }

  // ---------------------------------------------------------------- the log handler

  /** A terminal message is about another task. */
  lemma FirstMine(s: State, t: Task, rest: seq<Task>, id: int, life: Life, last: int, longest: nat, m: int)
    requires Tracked(s, id, life, last, longest, m) && Pending(s) == [t] + rest
    ensures TraceOf(s, id).mail == Letter(t, id) + Letters(rest, id)
    ensures t.id == id ==> RowStatus(t.status)
  {
    LettersCons(t, rest, id);
    if t.id == id {
      assert TraceOf(s, id).mail[0] == t;
    }
  }

  lemma LogFollows(s: State, step: LogStep, id: int, life: Life, last: int, longest: nat, m: int)
    requires Inv(s) && LogEnabled(s, step) && !s.sweeper.phase.Marking? && Tracked(s, id, life, last, longest, m)
    ensures Tracked(LogApply(s, step), id, life, last, longest, m)
  {
    var s' := LogApply(s, step);
    if step.TakeLog? {
      TakeMail(s);
      TraceMail(s, s', id);
      Unchanged(s, s', id, life, last, longest, m);
    } else {
      var t, rest := FirstMail(s, step);
      FirstMine(s, t, rest, id, life, last, longest, m);
      TraceApplied(s, step, t, rest, id);
      if t.id == id {
        AppliedFits(TraceOf(s, id), TraceOf(s', id), life, t, Letters(rest, id), last, s.world.now, longest, m);
      } else {
        Unchanged(s, s', id, life, last, longest, m);
      }
    }
  }

  // ---------------------------------------------------------------- every step

  lemma QuietSteps(s: State, step: Step, id: int, life: Life, last: int, longest: nat, m: int)
    requires Inv(s) && Enabled(s, step) && OrderlyStep(s, step) && !Crashes(step)
    requires step.Log? || step.Ask? || step.Outside?
    requires Tracked(s, id, life, last, longest, m)
    ensures Tracked(Apply(s, step), id, life, last, longest, m)
  {
    match step
    case Log(g) => LogFollows(s, g, id, life, last, longest, m);
    case Ask(r) =>
      TraceAsked(s, r, id);
      Unchanged(s, AskApply(s, r), id, life, last, longest, m);
    case Outside(o) =>
      TraceOutside(s, o, id);
      Unchanged(s, WorldApply(s, o), id, life, last, longest, m);
  }

  /**
   Every step keeps the one carrier, and each step that acts on the task takes one of its budget; only a bounce
   gives some back. Otherwise the terminal message is sent.
   */
  lemma StepFollows(s: State, step: Step, id: int, life: Life, last: int, longest: nat, m: int) returns (life': Life)
    requires Inv(s) && Enabled(s, step) && SmoothStep(s, step, id, last, longest)
    requires Tracked(s, id, life, last, longest, m)
    ensures Follows(Apply(s, step), id, life', NextLast(s, step, id, last), longest, Spend(s, step, id, longest, m))
  {
    if step.Watch? {
      life' := WatchFollows(s, step.watch, id, life, last, longest, m);
    } else {
      assert NextLast(s, step, id, last) == last;
      assert Spend(s, step, id, longest, m) == if ActsOn(s, step, id) then m - 1 else m;
      if step.Sweep? {
        life' := SweepFollows(s, step.sweep, id, life, last, longest, m);
      } else if step.Pend? {
        life' := PendFollows(s, step.pend, id, life, last, longest, m);
      } else {
        QuietSteps(s, step, id, life, last, longest, m);
        life' := life;
      }
    }
  }

  // ---------------------------------------------------------------- the birth of a task

  ghost predicate Absent(s: State, id: int) {
    && NoneOf(Pended(s), id) && NoneOf(Watched(s), id)
    && (forall t | t in s.sweeper.batch :: t.id != id)
    && (forall f | f in s.pender.returned :: f.task.id != id)
    && !Concerns(s.sweeper.phase, id)
    && (s.runner.owed.Some? ==> s.runner.owed.value.id != id)
    && (forall t | t in Pending(s) :: t.id != id)
  }

  lemma UnknownCopies(s: State, id: int)
    requires Inv(s) && id !in Known(s.db)
    ensures NoneOf(Pended(s), id) && NoneOf(Watched(s), id)
  {
    var l := LedgerOf(s.db, s.past.admitted);
    assert ChannelsOk(l, s.ch) && PenderOk(l, s.pender) && RunnerOk(l, s.runner);
    forall t | t in Pended(s) || t in Watched(s) ensures t.id != id {
      assert WorkerOk(l, t) by { if t in s.pender.sending { assert SenderOk(l, t); } }
    }
  }

  /** Nothing is on its way for a submission that is not live yet. */
  lemma UnknownAbsent(s: State, id: int)
    requires Inv(s) && id !in Known(s.db)
    ensures Absent(s, id)
  {
    UnknownCopies(s, id);
    var l := LedgerOf(s.db, s.past.admitted);
    assert RunnerOk(l, s.runner) && SweeperOk(l, s.sweeper) && PhaseOk(l, s.sweeper.phase);
    assert forall t | t in s.sweeper.batch :: SweptOk(l, t);
    assert forall f | f in s.pender.returned :: FlightOk(l, f);
    MessagesKnown(s);
  }

  lemma AbsentTrace(s: State, id: int)
    requires Absent(s, id) && id in s.db.live
    ensures TraceOf(s, id) == Trace(s.db.live[id], multiset{}, multiset{}, multiset{}, multiset{}, Sweeping, [], None)
  {
    PartNone(Pended(s), Has(id));
    PartNone(Watched(s), Has(id));
    PartNone(s.pender.returned, Carries(id));
    PartNone(multiset(s.sweeper.batch), Has(id));
    LettersNone(Pending(s), id);
  }

  predicate NewRow(row: LiveRow) {
    row.status == PendingNotInQueue && row.sandboxRetries == 0 && row.runningRetries == 0 && !row.logQueueFailed
  }

  /** A new row is within the budget. */
  lemma BornFits(row: LiveRow, last: int, now: int, longest: nat)
    requires NewRow(row)
    ensures Fits(Trace(row, multiset{}, multiset{}, multiset{}, multiset{}, Sweeping, [], None), Table, last, now,
                 longest, Budget(longest))
  {
    assert RetriesLeft(0, longest) == 5 * (longest + 3) by {
      assert RetriesLeft(3, longest) == 2 * (longest + 3);
    }
  }

  lemma CommitBirth(s: State, id: int)
    requires LogEnabled(s, Commit) && id !in s.db.live && id in LogApply(s, Commit).db.live
    ensures var s' := LogApply(s, Commit);
            NewRow(s'.db.live[id]) && OnlyLogger(s, s') && Pending(s) != [] && Pending(s') == Pending(s)[1..]
  {
    assert Pending(LogApply(s, Commit)) == s.logger.batch + s.ch.log;
    assert Pending(s)[1..] == s.logger.batch + s.ch.log;
  }

  lemma AskBirth(s: State, step: AskStep, id: int)
    requires AskEnabled(s, step) && id !in s.db.live && id in AskApply(s, step).db.live
    ensures var s' := AskApply(s, step); NewRow(s'.db.live[id]) && OnlyLogger(s, s') && Pending(s') == Pending(s)
  {
  }

  lemma AbsentStays(s: State, s': State, id: int)
    requires Absent(s, id) && OnlyLogger(s, s')
    requires Pending(s') == Pending(s) || (Pending(s) != [] && Pending(s') == Pending(s)[1..])
    ensures Absent(s', id)
  {
    assert forall t | t in Pending(s') :: t in Pending(s);
  }

  lemma OthersNoRow(s: State, step: Step)
    requires Enabled(s, step) && !Crashes(step) && !step.Ask? && step != Log(Commit)
    ensures Apply(s, step).db.live.Keys == s.db.live.Keys
  {
    match step
    case Sweep(w) => SweepMail(s, w);
    case Pend(p) => PendingMail(s, p);
    case Watch(w) => RunningMail(s, w);
    case Log(g) => LogMail(s, g);
    case Outside(o) =>
  }

  /** Only a submission and a promotion add a live row, and it is a new one. */
  lemma BirthFollows(s: State, step: Step, id: int, last: int, longest: nat)
    requires Inv(s) && Enabled(s, step) && !Crashes(step) && id !in Known(s.db) && id in Apply(s, step).db.live
    ensures Tracked(Apply(s, step), id, Table, last, longest, Budget(longest))
  {
    UnknownAbsent(s, id);
    if step.Ask? {
      AskBirth(s, step.ask, id);
    } else if step == Log(Commit) {
      CommitBirth(s, id);
    } else {
      OthersNoRow(s, step);
      assert false;
    }
    var s' := Apply(s, step);
    AbsentStays(s, s', id);
    AbsentTrace(s', id);
    BornFits(s'.db.live[id], last, s'.world.now, longest);
  }

  lemma UnbornIdle(s: State, step: Step, id: int)
    requires Inv(s) && Enabled(s, step) && id !in Known(s.db)
    ensures !ActsOn(s, step, id) && !WaitsOn(s, step, id)
  {
    UnknownAbsent(s, id);
    AbsentHeads(s, id);
  }

  lemma AbsentHeads(s: State, id: int)
    requires Absent(s, id)
    ensures s.pender.batch != [] ==> s.pender.batch[0].id != id
    ensures s.runner.batch != [] ==> s.runner.batch[0].id != id
  {
    if s.pender.batch != [] { assert s.pender.batch[0] in Pended(s); }
    if s.runner.batch != [] { assert s.runner.batch[0] in Watched(s); }
  }

  // ---------------------------------------------------------------- every run

  ghost predicate Smooth(s: State, steps: seq<Step>, id: int, last: int, longest: nat)
    requires CanRun(s, steps)
    decreases |steps|
  {
    steps != [] ==>
      && SmoothStep(s, steps[0], id, last, longest)
      && Smooth(Apply(s, steps[0]), steps[1..], id, NextLast(s, steps[0], id, last), longest)
  }

  /** How many steps act on the task. */
  ghost function Acts(s: State, steps: seq<Step>, id: int): nat
    requires CanRun(s, steps)
    decreases |steps|
  {
    if steps == [] then 0 else (if ActsOn(s, steps[0], id) then 1 else 0) + Acts(Apply(s, steps[0]), steps[1..], id)
  }

  /** How often the running queue had no room for the task while it was under analysis. */
  ghost function Bounced(s: State, steps: seq<Step>, id: int): nat
    requires CanRun(s, steps)
    decreases |steps|
  {
    if steps == [] then 0 else (if Bounces(s, steps[0], id) then 1 else 0) + Bounced(Apply(s, steps[0]), steps[1..], id)
  }

  ghost predicate Alive(s: State, id: int) {
    id in s.db.live && forall t | t in Pending(s) && t.id == id :: !Terminal(t.status)
  }

  /** Before the birth of the task and during its life. */
  ghost predicate Stage(s: State, id: int, life: Life, last: int, longest: nat, m: int) {
    Inv(s) && (if id in Known(s.db) then Tracked(s, id, life, last, longest, m) else m == Budget(longest))
  }

  lemma {:induction false} RunDone(s: State, steps: seq<Step>, id: int, last: int, longest: nat)
    requires Inv(s) && Done(s, id) && CanRun(s, steps) && Smooth(s, steps, id, last, longest)
    ensures !Alive(Run(s, steps), id)
    decreases |steps|
  {
    if steps != [] {
      DoneKeeps(s, steps[0], id);
      StepKeeps(s, steps[0]);
      RunDone(Apply(s, steps[0]), steps[1..], id, NextLast(s, steps[0], id, last), longest);
    }
  }

  /** After a step the task is done, or at a stage with the budget that is left. */
  lemma StageStep(s: State, step: Step, id: int, life: Life, last: int, longest: nat, m: int) returns (life': Life)
    requires Stage(s, id, life, last, longest, m) && Enabled(s, step) && SmoothStep(s, step, id, last, longest)
    ensures Done(Apply(s, step), id)
            || Stage(Apply(s, step), id, life', NextLast(s, step, id, last), longest, Spend(s, step, id, longest, m))
  {
    StepKeeps(s, step);
    if id in Known(s.db) {
      life' := StepFollows(s, step, id, life, last, longest, m);
    } else {
      life' := Table;
      UnbornIdle(s, step, id);
      if id in Apply(s, step).db.live {
        BirthFollows(s, step, id, last, longest);
      }
    }
  }

  /** The budget at the end of a run. */
  ghost function Account(s: State, steps: seq<Step>, id: int, longest: nat, m: int): int
    requires CanRun(s, steps)
    decreases |steps|
  {
    if steps == [] then m else Account(Apply(s, steps[0]), steps[1..], id, longest, Spend(s, steps[0], id, longest, m))
  }

  lemma OneMore(longest: nat, bounced: nat)
    ensures (longest + 3) * (1 + bounced) == (longest + 3) * bounced + longest + 3
  {
  }

  lemma {:induction false} AccountIs(s: State, steps: seq<Step>, id: int, longest: nat, m: int)
    requires CanRun(s, steps)
    ensures Account(s, steps, id, longest, m) == m - Acts(s, steps, id) + (longest + 3) * Bounced(s, steps, id)
    decreases |steps|
  {
    if steps != [] {
      var s', m' := Apply(s, steps[0]), Spend(s, steps[0], id, longest, m);
      AccountIs(s', steps[1..], id, longest, m');
      OneMore(longest, Bounced(s', steps[1..], id));
    }
  }

  /** Along a run the account is never overdrawn. */
  lemma {:induction false} RunFollows(s: State, steps: seq<Step>, id: int, life: Life, last: int, longest: nat, m: int)
    returns (life': Life, end: int)
    requires Stage(s, id, life, last, longest, m) && CanRun(s, steps) && Smooth(s, steps, id, last, longest)
    requires Alive(Run(s, steps), id)
    ensures Tracked(Run(s, steps), id, life', end, longest, Account(s, steps, id, longest, m))
    decreases |steps|
  {
    if steps == [] {
      life', end := life, last;
    } else {
      var s', next := Apply(s, steps[0]), NextLast(s, steps[0], id, last);
      life' := StageStep(s, steps[0], id, life, last, longest, m);
      StepKeeps(s, steps[0]);
      if Done(s', id) {
        RunDone(s', steps[1..], id, next, longest);
        assert false;
      }
      life', end := RunFollows(s', steps[1..], id, life', next, longest, Spend(s, steps[0], id, longest, m));
    }
  }

  /**
   In a smooth run, as long as a task is live and its terminal message not sent, at most 29 steps plus six for every
   tick of the longest timeout have acted on it, and a timeout's worth more for every time the running queue was full.
   The run starts after the moment `last`, which may be -1.
   */
  lemma LifetimeTheorem(signatures: set<Hashes>, steps: seq<Step>, id: int, last: int, longest: nat)
    requires CanRun(Init(signatures), steps) && Smooth(Init(signatures), steps, id, last, longest)
    requires Alive(Run(Init(signatures), steps), id)
    ensures Acts(Init(signatures), steps, id)
         <= 29 + 6 * longest + (longest + 3) * Bounced(Init(signatures), steps, id)
  {
    var life, end := RunFollows(Init(signatures), steps, id, Table, last, longest, Budget(longest));
    AccountIs(Init(signatures), steps, id, longest, Budget(longest));
  }

  // ---------------------------------------------------------------- one carrier

  lemma {:induction false} SmoothIsOrderly(s: State, steps: seq<Step>, id: int, last: int, longest: nat)
    requires CanRun(s, steps) && Smooth(s, steps, id, last, longest)
    ensures Orderly(s, steps)
    decreases |steps|
  {
    if steps != [] {
      SmoothIsOrderly(Apply(s, steps[0]), steps[1..], id, NextLast(s, steps[0], id, last), longest);
    }
  }

  lemma {:induction false} NeverMeansEnd(s: State, steps: seq<Step>, trust: bool)
    requires CanRun(s, steps) && NeverStranded(s, steps, trust)
    ensures NothingStranded(Run(s, steps), trust)
    decreases |steps|
  {
    if steps != [] {
      NeverMeansEnd(Apply(s, steps[0]), steps[1..], trust);
    }
  }

  lemma NoWork(s: State, id: int, life: Life)
    requires id in s.db.live && CarriedBy(TraceOf(s, id), life) && !OnItsWay(life)
    ensures id !in WorkIds(s)
  {
    NoneAtWork(s, id);
  }

  lemma {:induction false} NotGone(o: Outcome, id: int, mail: seq<Task>)
    requires o.At? && forall t | t in mail && t.id == id :: !Terminal(t.status)
    ensures Settle(o, id, mail).At?
    decreases |mail|
  {
    if mail != [] {
      assert mail[0] in mail && forall t | t in mail[1..] :: t in mail;
      NotGone(After(o, id, mail[0]), id, mail[1..]);
    }
  }

  /**
   In a smooth run a live task without a terminal message has exactly one carrier: a copy on its way, while all its
   messages keep the row "in queue"; or its row, which will be selected once the messages are applied, and which the
   sweep may hold once.
   */
  lemma SingleCarrierTheorem(signatures: set<Hashes>, steps: seq<Step>, id: int, last: int, longest: nat)
    returns (life: Life)
    requires CanRun(Init(signatures), steps) && Smooth(Init(signatures), steps, id, last, longest)
    requires Alive(Run(Init(signatures), steps), id)
    ensures var s := Run(Init(signatures), steps);
            var end := Settle(RowOutcome(s.db.live[id]), id, Pending(s));
            && CarriedBy(TraceOf(s, id), life)
            && (OnItsWay(life) ==> forall t | t in Pending(s) && t.id == id :: InQueue(t.status))
            && (!OnItsWay(life) ==> end.At? && NotInQueue(end.status))
  {
    var s := Run(Init(signatures), steps);
    var end: int;
    life, end := RunFollows(Init(signatures), steps, id, Table, last, longest, Budget(longest));
    LettersIn(Pending(s), id);
    SmoothIsSafe(signatures, steps, id, last, longest);
    if !OnItsWay(life) {
      NoWork(s, id, life);
      assert Safe(s, id, false);
      NotGone(RowOutcome(s.db.live[id]), id, Pending(s));
    }
  }

  lemma SmoothIsSafe(signatures: set<Hashes>, steps: seq<Step>, id: int, last: int, longest: nat)
    requires CanRun(Init(signatures), steps) && Smooth(Init(signatures), steps, id, last, longest)
    ensures NothingStranded(Run(Init(signatures), steps), false)
  {
    SmoothIsOrderly(Init(signatures), steps, id, last, longest);
    NoStrandingTheorem(Init(signatures), steps);
    NeverMeansEnd(Init(signatures), steps, false);
  }
}
