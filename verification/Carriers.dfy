/**
 What a state holds about one live task: its row, its copies on their way, what the sweep holds of it, and the
 messages about it that are not yet applied. Every step leaves this trace alone or changes it as told here.
 */
module Carriers {
  import opened Records
  import opened Database
  import opened Transactions
  import opened Machine
  import opened Conservation
  import opened Fates

  // ---------------------------------------------------------------- parts of bags and of the mail

  function Has(id: int): Task -> bool {
    (t: Task) => t.id == id
  }

  function Carries(id: int): Flight -> bool {
    (f: Flight) => f.task.id == id
  }

  /** What satisfies p. */
  ghost function Part<T(!new)>(bag: multiset<T>, p: T -> bool): multiset<T>
    decreases |bag|
  {
    if bag == multiset{} then multiset{}
    else
      var x :| x in bag;
      var rest := Part(bag - multiset{x}, p);
      if p(x) then rest + multiset{x} else rest
  }

  lemma {:induction false} PartAt<T(!new)>(bag: multiset<T>, p: T -> bool, x: T)
    ensures Part(bag, p)[x] == if p(x) then bag[x] else 0
    decreases |bag|
  {
    if bag == multiset{} {
      assert bag[x] == 0 && Part(bag, p) == multiset{};
    } else {
      var y :| y in bag && Part(bag, p)
                           == var rest := Part(bag - multiset{y}, p); if p(y) then rest + multiset{y} else rest;
      PartAt(bag - multiset{y}, p, x);
      assert bag[x] == (bag - multiset{y})[x] + multiset{y}[x];
    }
  }

  lemma PartAdd<T(!new)>(bag: multiset<T>, p: T -> bool, x: T)
    ensures Part(bag + multiset{x}, p) == if p(x) then Part(bag, p) + multiset{x} else Part(bag, p)
  {
    var more := if p(x) then Part(bag, p) + multiset{x} else Part(bag, p);
    forall y ensures Part(bag + multiset{x}, p)[y] == more[y] {
      PartAt(bag + multiset{x}, p, y);
      PartAt(bag, p, y);
    }
  }

  lemma PartTake<T(!new)>(bag: multiset<T>, p: T -> bool, x: T)
    requires x in bag
    ensures Part(bag - multiset{x}, p) == if p(x) then Part(bag, p) - multiset{x} else Part(bag, p)
    ensures p(x) ==> x in Part(bag, p)
  {
    var rest := bag - multiset{x};
    assert rest + multiset{x} == bag;
    PartAdd(rest, p, x);
    if p(x) {
      assert Part(bag, p) == Part(rest, p) + multiset{x};
    }
  }

  lemma PartNone<T(!new)>(bag: multiset<T>, p: T -> bool)
    requires forall x | x in bag :: !p(x)
    ensures Part(bag, p) == multiset{}
  {
    forall y ensures Part(bag, p)[y] == 0 {
      PartAt(bag, p, y);
    }
  }

  lemma NotInPart<T(!new)>(bag: multiset<T>, p: T -> bool)
    requires Part(bag, p) == multiset{}
    ensures forall x | x in bag :: !p(x)
  {
    forall x | x in bag ensures !p(x) {
      PartAt(bag, p, x);
    }
  }

  function Letter(t: Task, id: int): seq<Task> {
    if t.id == id then [t] else []
  }

  /** The messages about one task. */
  function Letters(mail: seq<Task>, id: int): seq<Task>
    decreases |mail|
  {
    if mail == [] then [] else Letter(mail[0], id) + Letters(mail[1..], id)
  }

  lemma {:induction false} LettersSnoc(mail: seq<Task>, t: Task, id: int)
    ensures Letters(mail + [t], id) == Letters(mail, id) + Letter(t, id)
    decreases |mail|
  {
    if mail == [] {
      assert (mail + [t])[1..] == [];
    } else {
      assert (mail + [t])[1..] == mail[1..] + [t];
      LettersSnoc(mail[1..], t, id);
    }
  }

  lemma LettersCons(t: Task, rest: seq<Task>, id: int)
    ensures Letters([t] + rest, id) == Letter(t, id) + Letters(rest, id)
  {
    assert ([t] + rest)[1..] == rest;
  }

  lemma {:induction false} LettersIn(mail: seq<Task>, id: int)
    ensures forall t :: t in Letters(mail, id) <==> t in mail && t.id == id
    decreases |mail|
  {
    if mail != [] {
      LettersIn(mail[1..], id);
      assert mail == [mail[0]] + mail[1..];
    }
  }

  lemma LettersNone(mail: seq<Task>, id: int)
    requires forall t | t in mail :: t.id != id
    ensures Letters(mail, id) == []
  {
    LettersIn(mail, id);
    assert forall t :: t !in Letters(mail, id);
  }

  // ---------------------------------------------------------------- the trace of a task

  datatype Trace = Trace(
    row: LiveRow,
    pended: multiset<Task>,     // in the pending queue, with its handler, or being sent
    flying: multiset<Flight>,   // with a goroutine whose send has returned
    watched: multiset<Task>,    // in the running queue or with its handler
    swept: multiset<Task>,      // in the batch of the sweep
    phase: SweepPhase,          // what the sweep is doing about it
    mail: seq<Task>,            // messages not yet applied
    owed: Option<Task>)         // the second message of an exhausted task

  predicate Concerns(phase: SweepPhase, id: int) {
    match phase
    case Sweeping => false
    case Admitting(t) => t.id == id
    case Rejecting => false
    case Clearing(i) => i == id
    case Marking(i, _) => i == id
  }

  function PhaseOf(phase: SweepPhase, id: int): SweepPhase {
    if Concerns(phase, id) then phase else Sweeping
  }

  ghost function Pended(s: State): multiset<Task> {
    multiset(s.ch.pending) + multiset(s.pender.batch) + s.pender.sending
  }

  ghost function Watched(s: State): multiset<Task> {
    multiset(s.ch.running) + multiset(s.runner.batch)
  }

  ghost function TraceOf(s: State, id: int): Trace
    requires id in s.db.live
  {
    Trace(s.db.live[id], Part(Pended(s), Has(id)), Part(s.pender.returned, Carries(id)), Part(Watched(s), Has(id)),
          Part(multiset(s.sweeper.batch), Has(id)), PhaseOf(s.sweeper.phase, id), Letters(Pending(s), id),
          if s.runner.owed.Some? && s.runner.owed.value.id == id then s.runner.owed else None)
  }

  lemma BagSnoc(tasks: seq<Task>, t: Task)
    ensures multiset(tasks + [t]) == multiset(tasks) + multiset{t}
  {
  }

  lemma BagHead(tasks: seq<Task>)
    requires tasks != []
    ensures tasks[0] in multiset(tasks) && multiset(tasks[1..]) == multiset(tasks) - multiset{tasks[0]}
  {
    var first := tasks[0];
    assert tasks == [first] + tasks[1..];
  }

  // ---------------------------------------------------------------- a message is sent

  ghost function Logged(s: State, t: Task): State {
    s.(ch := s.ch.(log := s.ch.log + [t]))
  }

  lemma TraceLogged(s: State, t: Task, id: int)
    requires id in s.db.live
    ensures Pending(Logged(s, t)) == Pending(s) + [t]
    ensures TraceOf(Logged(s, t), id) == TraceOf(s, id).(mail := TraceOf(s, id).mail + Letter(t, id))
  {
    assert Pending(Logged(s, t)) == Pending(s) + [t];
    LettersSnoc(Pending(s), t, id);
  }

  // ---------------------------------------------------------------- the pending handler and its goroutines

  /** The head of the handler's batch is let go, and a message is sent about it. */
  lemma TraceExpired(s: State, timeout: int, id: int)
    requires id in s.db.live && PendingEnabled(s, Start(timeout, true))
    requires PendingExpired(s.pender.batch[0], timeout, s.world.now)
    ensures s.pender.batch[0].id != id ==> TraceOf(PendingApply(s, Start(timeout, true)), id) == TraceOf(s, id)
    ensures Pending(PendingApply(s, Start(timeout, true))) == Pending(s) + [s.pender.batch[0].(status := Aborted)]
  {
    var t := s.pender.batch[0];
    var used := s.(pender := s.pender.(batch := s.pender.batch[1..]));
    TraceStarted(s, used, id);
    TraceLogged(used, t.(status := Aborted), id);
    assert PendingApply(s, Start(timeout, true)) == Logged(used, t.(status := Aborted));
  }

  lemma TraceStarted(s: State, used: State, id: int)
    requires id in s.db.live && s.pender.batch != []
    requires used == s.(pender := s.pender.(batch := s.pender.batch[1..]))
    ensures s.pender.batch[0].id != id ==> TraceOf(used, id) == TraceOf(s, id)
    ensures s.pender.batch[0].id == id ==> s.pender.batch[0] in TraceOf(s, id).pended
    ensures Pending(used) == Pending(s)
  {
    BagHead(s.pender.batch);
    assert Pended(used) == Pended(s) - multiset{s.pender.batch[0]};
    PartTake(Pended(s), Has(id), s.pender.batch[0]);
    TraceWork(s, used, id);
  }

  /** Only the work queues and the workers change. */
  lemma TraceWork(s: State, s': State, id: int)
    requires id in s.db.live && s'.db == s.db && s'.sweeper == s.sweeper
    requires s'.logger == s.logger && s'.ch.log == s.ch.log
    requires s'.runner.owed == s.runner.owed
    ensures TraceOf(s', id)
         == TraceOf(s, id).(pended := Part(Pended(s'), Has(id)), flying := Part(s'.pender.returned, Carries(id)),
                            watched := Part(Watched(s'), Has(id)))
    ensures Pending(s') == Pending(s)
  {
  }

  lemma TraceSame(s: State, s': State, id: int)
    requires id in s.db.live && s'.db == s.db && s'.sweeper == s.sweeper
    requires s'.logger == s.logger && s'.ch.log == s.ch.log
    requires Pended(s') == Pended(s) && s'.pender.returned == s.pender.returned && Watched(s') == Watched(s)
    requires s'.runner.owed == s.runner.owed
    ensures TraceOf(s', id) == TraceOf(s, id) && Pending(s') == Pending(s)
  {
    TraceWork(s, s', id);
  }

  /** Copies that only move on. */
  lemma TraceMoves(s: State, step: PendingStep, id: int)
    requires id in s.db.live && PendingEnabled(s, step)
    requires step.Poll? || step.TakePending? || step.CloseBatch?
             || (step.Start? && !PendingExpired(s.pender.batch[0], step.timeout, s.world.now))
    ensures TraceOf(PendingApply(s, step), id) == TraceOf(s, id)
  {
    if step.TakePending? {
      TraceTaken(s, id);
    } else if step.Start? {
      TraceHanded(s, step, id);
    } else {
      TraceSame(s, PendingApply(s, step), id);
    }
  }

  lemma TraceTaken(s: State, id: int)
    requires id in s.db.live && PendingEnabled(s, TakePending)
    ensures TraceOf(PendingApply(s, TakePending), id) == TraceOf(s, id)
  {
    BagHead(s.ch.pending);
    BagSnoc(s.pender.batch, s.ch.pending[0]);
    TraceSame(s, PendingApply(s, TakePending), id);
  }

  /** The head of the batch is handed to a goroutine. */
  lemma TraceHanded(s: State, step: PendingStep, id: int)
    requires id in s.db.live && PendingEnabled(s, step)
    requires step.Start? && !PendingExpired(s.pender.batch[0], step.timeout, s.world.now)
    ensures TraceOf(PendingApply(s, step), id) == TraceOf(s, id)
  {
    BagHead(s.pender.batch);
    TraceSame(s, PendingApply(s, step), id);
  }

  function Returned(s: State, task: Task, created: bool): Flight {
    if created then Created(task.(sandboxId := s.world.nextId, runningStartedAt := s.world.now)) else SendFailed(task)
  }

  lemma TraceSend(s: State, task: Task, created: bool, id: int)
    requires id in s.db.live && PendingEnabled(s, Send(task, created))
    ensures var tr := TraceOf(s, id);
            TraceOf(PendingApply(s, Send(task, created)), id) ==
            if task.id != id then tr
            else tr.(pended := tr.pended - multiset{task}, flying := tr.flying + multiset{Returned(s, task, created)})
    ensures task.id == id ==> task in TraceOf(s, id).pended
  {
    var f := Returned(s, task, created);
    var mid := s.(pender := s.pender.(sending := s.pender.sending - multiset{task}));
    TraceUnsent(s, mid, task, id);
    TraceJoined(mid, f, id);
    TraceSame(mid.(pender := mid.pender.(returned := mid.pender.returned + multiset{f})),
              PendingApply(s, Send(task, created)), id);
  }

  lemma TraceUnsent(s: State, mid: State, task: Task, id: int)
    requires id in s.db.live && task in s.pender.sending
    requires mid == s.(pender := s.pender.(sending := s.pender.sending - multiset{task}))
    ensures TraceOf(mid, id) ==
            if task.id != id then TraceOf(s, id) else TraceOf(s, id).(pended := TraceOf(s, id).pended - multiset{task})
    ensures task.id == id ==> task in TraceOf(s, id).pended
  {
    assert Pended(mid) == Pended(s) - multiset{task};
    PartTake(Pended(s), Has(id), task);
    TraceWork(s, mid, id);
  }

  lemma TraceLand(s: State, f: Flight, id: int)
    requires id in s.db.live && f in s.pender.returned
    ensures TraceOf(Land(s, f), id) ==
            if f.task.id != id then TraceOf(s, id)
            else TraceOf(s, id).(flying := TraceOf(s, id).flying - multiset{f})
    ensures f.task.id == id ==> f in TraceOf(s, id).flying
  {
    PartTake(s.pender.returned, Carries(id), f);
  }

  lemma TraceRequeued(s: State, t: Task, id: int)
    requires id in s.db.live
    ensures TraceOf(s.(ch := s.ch.(pending := s.ch.pending + [t])), id)
         == if t.id != id then TraceOf(s, id) else TraceOf(s, id).(pended := TraceOf(s, id).pended + multiset{t})
  {
    var s' := s.(ch := s.ch.(pending := s.ch.pending + [t]));
    BagSnoc(s.ch.pending, t);
    assert Pended(s') == Pended(s) + multiset{t};
    PartAdd(Pended(s), Has(id), t);
  }

  lemma TraceRunning(s: State, t: Task, id: int)
    requires id in s.db.live
    ensures TraceOf(s.(ch := s.ch.(running := s.ch.running + [t])), id)
         == if t.id != id then TraceOf(s, id) else TraceOf(s, id).(watched := TraceOf(s, id).watched + multiset{t})
  {
    var s' := s.(ch := s.ch.(running := s.ch.running + [t]));
    BagSnoc(s.ch.running, t);
    assert Watched(s') == Watched(s) + multiset{t};
    PartAdd(Watched(s), Has(id), t);
  }

  lemma TraceJoined(s: State, f: Flight, id: int)
    requires id in s.db.live
    ensures TraceOf(s.(pender := s.pender.(returned := s.pender.returned + multiset{f})), id)
         == if f.task.id != id then TraceOf(s, id) else TraceOf(s, id).(flying := TraceOf(s, id).flying + multiset{f})
  {
    PartAdd(s.pender.returned, Carries(id), f);
  }

  ghost function Routed(used: State, route: FailureRoute): State {
    match route
    case GiveUp(t) => Logged(used, t.(status := Aborted))
    case Requeue(t) => used.(ch := used.ch.(pending := used.ch.pending + [t]))
    case SendBack(t) => Logged(used, t.(status := PendingNotInQueue))
  }

  lemma FailureIs(s: State, task: Task, requeued: bool)
    requires PendingEnabled(s, RouteFailure(task, requeued, true))
    ensures PendingApply(s, RouteFailure(task, requeued, true))
         == Routed(Land(s, SendFailed(task)), RouteOf(task, requeued))
    ensures RouteOf(task, requeued).task.id == task.id
  {
    var route := RouteOf(task, requeued);
    assert route.GiveUp? || route.Requeue? || route.SendBack?;
  }

  function FailureTrace(tr: Trace, route: FailureRoute): Trace {
    match route
    case GiveUp(t) => tr.(mail := tr.mail + [t.(status := Aborted)])
    case Requeue(t) => tr.(pended := tr.pended + multiset{t})
    case SendBack(t) => tr.(mail := tr.mail + [t.(status := PendingNotInQueue)])
  }

  lemma TraceRouted(used: State, route: FailureRoute, id: int)
    requires id in used.db.live
    ensures TraceOf(Routed(used, route), id) ==
            if route.task.id != id then TraceOf(used, id) else FailureTrace(TraceOf(used, id), route)
    ensures route.GiveUp? ==> Pending(Routed(used, route)) == Pending(used) + [route.task.(status := Aborted)]
  {
    match route
    case GiveUp(t) => TraceLogged(used, t.(status := Aborted), id);
    case Requeue(t) => TraceRequeued(used, t, id);
    case SendBack(t) => TraceLogged(used, t.(status := PendingNotInQueue), id);
  }

  lemma TraceFailure(s: State, s': State, task: Task, requeued: bool, id: int)
    requires id in s.db.live && PendingEnabled(s, RouteFailure(task, requeued, true))
    requires s' == PendingApply(s, RouteFailure(task, requeued, true))
    ensures s'.db == s.db && s'.world == s.world
    ensures var tr := TraceOf(s, id);
            var left := tr.(flying := tr.flying - multiset{SendFailed(task)});
            TraceOf(s', id) == if task.id != id then tr else FailureTrace(left, RouteOf(task, requeued))
    ensures task.id == id ==> SendFailed(task) in TraceOf(s, id).flying
    ensures RouteOf(task, requeued).GiveUp? ==>
              Pending(s') == Pending(s) + [RouteOf(task, requeued).task.(status := Aborted)]
  {
    var used := Land(s, SendFailed(task));
    FailureIs(s, task, requeued);
    TraceLand(s, SendFailed(task), id);
    TraceRouted(used, RouteOf(task, requeued), id);
    assert Pending(used) == Pending(s);
  }

  lemma TraceCreated(s: State, task: Task, queued: bool, id: int)
    requires id in s.db.live && PendingEnabled(s, RouteCreated(task, queued))
    ensures var tr := TraceOf(s, id);
            var f := if queued then Queued(task) else Refused(task);
            TraceOf(PendingApply(s, RouteCreated(task, queued)), id) ==
            if task.id != id then tr
            else tr.(flying := tr.flying - multiset{Created(task)} + multiset{f},
                     watched := if queued then tr.watched + multiset{task} else tr.watched)
    ensures task.id == id ==> Created(task) in TraceOf(s, id).flying
  {
    var f := if queued then Queued(task) else Refused(task);
    var used := Land(s, Created(task));
    TraceLand(s, Created(task), id);
    TraceJoined(used, f, id);
    if queued {
      TraceRunning(used.(pender := used.pender.(returned := used.pender.returned + multiset{f})), task, id);
    }
  }

  lemma TraceStatus(s: State, f: Flight, id: int)
    requires id in s.db.live && PendingEnabled(s, RouteStatus(f, true))
    ensures var tr := TraceOf(s, id);
            var t := f.task.(status := if f.Queued? then RunningInQueue else RunningNotInQueue);
            TraceOf(PendingApply(s, RouteStatus(f, true)), id) ==
            if f.task.id != id then tr else tr.(flying := tr.flying - multiset{f}, mail := tr.mail + [t])
    ensures f.task.id == id ==> f in TraceOf(s, id).flying
  {
    TraceLand(s, f, id);
    TraceLogged(Land(s, f), f.task.(status := if f.Queued? then RunningInQueue else RunningNotInQueue), id);
  }

  // ---------------------------------------------------------------- the running handler

  lemma TraceWatching(s: State, step: RunningStep, id: int)
    requires id in s.db.live && RunningEnabled(s, step) && (step.List? || step.TakeRunning?)
    ensures TraceOf(RunningApply(s, step), id) == TraceOf(s, id)
  {
    if step.TakeRunning? {
      BagHead(s.ch.running);
      BagSnoc(s.runner.batch, s.ch.running[0]);
    }
    TraceSame(s, RunningApply(s, step), id);
  }

  /** The head of the handler's batch is let go. */
  lemma TraceChecked(s: State, used: State, id: int)
    requires id in s.db.live && s.runner.batch != [] && s.runner.owed.None?
    requires used == s.(runner := s.runner.(batch := s.runner.batch[1..]))
    ensures var t := s.runner.batch[0];
            TraceOf(used, id) == if t.id != id then TraceOf(s, id)
                                 else TraceOf(s, id).(watched := TraceOf(s, id).watched - multiset{t})
    ensures s.runner.batch[0].id == id ==> s.runner.batch[0] in TraceOf(s, id).watched
  {
    var t := s.runner.batch[0];
    BagHead(s.runner.batch);
    assert Watched(used) == Watched(s) - multiset{t};
    PartTake(Watched(s), Has(id), t);
    TraceWork(s, used, id);
  }

  /** What the running handler makes of the task at the head of its batch. */
  ghost function Checked(used: State, t: Task, verdict: RunningVerdict, requeued: bool): State {
    match verdict
    case Finish(status) => Logged(used, t.(status := status))
    case Exhausted => Logged(used.(runner := used.runner.(owed := Some(Retried(t)))), Retried(t).(status := Aborted))
    case Lost => Logged(used, Retried(t).(status := RunningNotInQueue))
    case KeepWaiting =>
      if requeued then used.(ch := used.ch.(running := used.ch.running + [t]))
      else Logged(used, t.(status := RunningNotInQueue))
  }

  lemma CheckIs(s: State, timeout: int)
    requires RunningEnabled(s, Check(timeout, true))
    ensures var t := s.runner.batch[0];
            RunningApply(s, Check(timeout, true)) ==
            Checked(s.(runner := s.runner.(batch := s.runner.batch[1..])), t,
                    CheckTask(t, s.runner.snapshot, timeout, s.world.now), Room(s.ch.running))
  {
    var verdict := CheckTask(s.runner.batch[0], s.runner.snapshot, timeout, s.world.now);
    assert verdict.Finish? || verdict.Exhausted? || verdict.Lost? || verdict.KeepWaiting?;
  }

  lemma TraceOwing(used: State, owing: State, id: int)
    requires id in used.db.live && used.runner.owed.None? && owing.runner.owed.Some?
    requires owing == used.(runner := used.runner.(owed := owing.runner.owed))
    ensures owing.runner.owed.value.id != id ==> TraceOf(owing, id) == TraceOf(used, id)
  {
  }

  lemma VerdictMail(used: State, t: Task, verdict: RunningVerdict, requeued: bool)
    ensures verdict.Finish? ==>
              Pending(Checked(used, t, verdict, requeued)) == Pending(used) + [t.(status := verdict.status)]
    ensures verdict.Exhausted? ==>
              Pending(Checked(used, t, verdict, requeued)) == Pending(used) + [Retried(t).(status := Aborted)]
  {
  }

  lemma TraceVerdict(used: State, t: Task, verdict: RunningVerdict, requeued: bool, id: int)
    requires id in used.db.live && used.runner.owed.None?
    ensures t.id != id ==> TraceOf(Checked(used, t, verdict, requeued), id) == TraceOf(used, id)
    ensures t.id == id ==>
              var tr, tr' := TraceOf(used, id), TraceOf(Checked(used, t, verdict, requeued), id);
              match verdict
              case Lost => tr' == tr.(mail := tr.mail + [Retried(t).(status := RunningNotInQueue)])
              case KeepWaiting =>
                if requeued then tr' == tr.(watched := tr.watched + multiset{t})
                else tr' == tr.(mail := tr.mail + [t.(status := RunningNotInQueue)])
              case _ => true
  {
    match verdict
    case Finish(status) => TraceLogged(used, t.(status := status), id);
    case Exhausted =>
      var owing := used.(runner := used.runner.(owed := Some(Retried(t))));
      TraceOwing(used, owing, id);
      TraceLogged(owing, Retried(t).(status := Aborted), id);
    case Lost => TraceLogged(used, Retried(t).(status := RunningNotInQueue), id);
    case KeepWaiting =>
      if requeued {
        TraceRunning(used, t, id);
      } else {
        TraceLogged(used, t.(status := RunningNotInQueue), id);
      }
  }

  /** What a check leaves of the task it is about. */
  ghost predicate CheckedTrace(tr: Trace, tr': Trace, t: Task, verdict: RunningVerdict, requeued: bool) {
    var left := tr.(watched := tr.watched - multiset{t});
    match verdict
    case Lost => tr' == left.(mail := tr.mail + [Retried(t).(status := RunningNotInQueue)])
    case KeepWaiting =>
      if requeued then tr' == left.(watched := left.watched + multiset{t})
      else tr' == left.(mail := tr.mail + [t.(status := RunningNotInQueue)])
    case _ => true
  }

  lemma TraceCheck(s: State, timeout: int, id: int)
    requires id in s.db.live && RunningEnabled(s, Check(timeout, true))
    ensures var s', t := RunningApply(s, Check(timeout, true)), s.runner.batch[0];
            var verdict := CheckTask(t, s.runner.snapshot, timeout, s.world.now);
            && s'.db == s.db
            && (if t.id != id then TraceOf(s', id) == TraceOf(s, id)
                else && t in TraceOf(s, id).watched
                     && CheckedTrace(TraceOf(s, id), TraceOf(s', id), t, verdict, Room(s.ch.running)))
            && (verdict.Finish? ==> Pending(s') == Pending(s) + [t.(status := verdict.status)])
            && (verdict.Exhausted? ==> Pending(s') == Pending(s) + [Retried(t).(status := Aborted)])
  {
    var t := s.runner.batch[0];
    var used := s.(runner := s.runner.(batch := s.runner.batch[1..]));
    CheckIs(s, timeout);
    TraceChecked(s, used, id);
    assert Pending(used) == Pending(s);
    VerdictMail(used, t, CheckTask(t, s.runner.snapshot, timeout, s.world.now), Room(s.ch.running));
    TraceVerdict(used, t, CheckTask(t, s.runner.snapshot, timeout, s.world.now), Room(s.ch.running), id);
  }

  lemma TraceOwed(s: State, id: int)
    requires id in s.db.live && RunningEnabled(s, Owe(true)) && s.runner.owed.value.id != id
    ensures TraceOf(RunningApply(s, Owe(true)), id) == TraceOf(s, id)
  {
    var t := s.runner.owed.value.(status := RunningNotInQueue);
    TraceLogged(s.(runner := s.runner.(owed := None)), t, id);
  }

  // ---------------------------------------------------------------- the sweep

  lemma SweptHead(batch: seq<Task>, id: int)
    requires batch != []
    ensures Part(multiset(batch[1..]), Has(id)) ==
            if batch[0].id == id then Part(multiset(batch), Has(id)) - multiset{batch[0]}
            else Part(multiset(batch), Has(id))
    ensures batch[0].id == id ==> batch[0] in Part(multiset(batch), Has(id))
  {
    BagHead(batch);
    PartTake(multiset(batch), Has(id), batch[0]);
  }

  /** Only the sweep and the table change. */
  lemma TraceSweep(s: State, s': State, id: int)
    requires id in s.db.live && id in s'.db.live
    requires s'.ch == s.ch && s'.pender == s.pender && s'.runner == s.runner && s'.logger == s.logger
    ensures TraceOf(s', id)
         == TraceOf(s, id).(row := s'.db.live[id], swept := Part(multiset(s'.sweeper.batch), Has(id)),
                            phase := PhaseOf(s'.sweeper.phase, id))
  {
  }

  /** The sweep has let the head of its batch go. */
  ghost function Beheaded(s: State, phase: SweepPhase): State
    requires s.sweeper.batch != []
  {
    s.(sweeper := Sweeper(s.sweeper.batch[1..], phase))
  }

  lemma TraceBeheaded(s: State, phase: SweepPhase, id: int)
    requires id in s.db.live && s.sweeper.batch != [] && !Concerns(s.sweeper.phase, id)
    requires s.sweeper.batch[0].id != id ==> !Concerns(phase, id)
    ensures var t, tr := s.sweeper.batch[0], TraceOf(s, id);
            TraceOf(Beheaded(s, phase), id) ==
            if t.id != id then tr else tr.(swept := tr.swept - multiset{t}, phase := PhaseOf(phase, id))
    ensures s.sweeper.batch[0].id == id ==> s.sweeper.batch[0] in TraceOf(s, id).swept
    ensures Pending(Beheaded(s, phase)) == Pending(s)
  {
    SweptHead(s.sweeper.batch, id);
    TraceSweep(s, Beheaded(s, phase), id);
  }

  /** The head goes to the log queue, or is dropped. */
  lemma TraceToLog(s: State, status: Status, pushed: bool, id: int)
    requires id in s.db.live && s.sweeper.batch != [] && (s.sweeper.phase.Sweeping? || s.sweeper.phase.Rejecting?)
    ensures var t, s' := s.sweeper.batch[0], SweepToLog(s, status, pushed);
            && s'.db == s.db && s'.world == s.world
            && (t.id != id ==> TraceOf(s', id) == TraceOf(s, id))
            && (t.id == id && !pushed ==>
                  && t in TraceOf(s, id).swept
                  && TraceOf(s', id) == TraceOf(s, id).(swept := TraceOf(s, id).swept - multiset{t}))
            && (pushed ==> Pending(s') == Pending(s) + [t.(status := status)])
  {
    var t := s.sweeper.batch[0];
    var used := Beheaded(s, if pushed then Clearing(t.id) else Sweeping);
    TraceBeheaded(s, used.sweeper.phase, id);
    if pushed {
      TraceLogged(used, t.(status := status), id);
      assert SweepToLog(s, status, pushed) == Logged(used, t.(status := status));
    } else {
      assert SweepToLog(s, status, pushed) == used;
    }
  }

  /** The live count lets the head pass. */
  lemma TracePassed(s: State, past: History, id: int)
    requires id in s.db.live && s.sweeper.batch != [] && s.sweeper.phase.Sweeping?
    ensures var t := s.sweeper.batch[0];
            TraceOf(Beheaded(s, Admitting(t)).(past := past), id) ==
            if t.id != id then TraceOf(s, id)
            else TraceOf(s, id).(swept := TraceOf(s, id).swept - multiset{t}, phase := Admitting(t))
    ensures s.sweeper.batch[0].id == id ==> s.sweeper.batch[0] in TraceOf(s, id).swept
  {
    TraceBeheaded(s, Admitting(s.sweeper.batch[0]), id);
  }

  lemma TraceAdmit(s: State, pushed: bool, id: int)
    requires id in s.db.live && SweepEnabled(s, Admit(pushed))
    ensures var t, tr := s.sweeper.phase.task, TraceOf(s, id);
            TraceOf(SweepApply(s, Admit(pushed)), id) ==
            if t.id != id then tr
            else if !pushed then tr.(phase := Sweeping)
            else tr.(phase := Marking(id, PendingInQueue),
                     pended := tr.pended + multiset{t.(status := PendingInQueue)})
  {
    var t := s.sweeper.phase.task;
    if pushed {
      var used := Entered(s, t.id);
      TraceSweep(s, used, id);
      TraceRequeued(used, t.(status := PendingInQueue), id);
    } else {
      TraceSweep(s, s.(sweeper := s.sweeper.(phase := Sweeping)), id);
    }
  }

  /** The sweep has admitted a task, apart from the push. */
  ghost function Entered(s: State, id: int): State {
    s.(sweeper := s.sweeper.(phase := Marking(id, PendingInQueue)),
       past := s.past.(admitted := s.past.admitted + {id}))
  }

  lemma TraceResume(s: State, pushed: bool, id: int)
    requires id in s.db.live && SweepEnabled(s, Resume(pushed))
    ensures var t, tr := s.sweeper.batch[0], TraceOf(s, id);
            var left := tr.(swept := tr.swept - multiset{t});
            TraceOf(SweepApply(s, Resume(pushed)), id) ==
            if t.id != id then tr
            else if !pushed then left
            else left.(phase := Marking(id, RunningInQueue),
                       watched := tr.watched + multiset{t.(status := RunningInQueue, runningStartedAt := s.world.now)})
    ensures s.sweeper.batch[0].id == id ==> s.sweeper.batch[0] in TraceOf(s, id).swept
  {
    ResumeIs(s, pushed);
    var t := s.sweeper.batch[0];
    TraceBeheaded(s, if pushed then Marking(t.id, RunningInQueue) else Sweeping, id);
    if pushed {
      TraceRunning(Beheaded(s, Marking(t.id, RunningInQueue)), ResumedHead(s), id);
    }
  }

  function ResumedHead(s: State): Task
    requires s.sweeper.batch != []
  {
    s.sweeper.batch[0].(status := RunningInQueue, runningStartedAt := s.world.now)
  }

  lemma ResumeIs(s: State, pushed: bool)
    requires SweepEnabled(s, Resume(pushed))
    ensures SweepApply(s, Resume(pushed)) ==
            if !pushed then Beheaded(s, Sweeping)
            else var used := Beheaded(s, Marking(s.sweeper.batch[0].id, RunningInQueue));
                 used.(ch := used.ch.(running := used.ch.running + [ResumedHead(s)]))
  {
  }

  lemma UpdateRow(s: State, id: int)
    requires id in s.db.live && SweepEnabled(s, Update)
    requires s.sweeper.phase.Clearing? ==> s.sweeper.phase.id != id
    ensures var s' := SweepApply(s, Update);
            && id in s'.db.live && s'.db.live[id] == if s.sweeper.phase.id != id then s.db.live[id]
                                                     else s.db.live[id].(status := s.sweeper.phase.status)
  {
  }

  lemma TraceUpdate(s: State, id: int)
    requires id in s.db.live && SweepEnabled(s, Update)
    requires s.sweeper.phase.Clearing? ==> s.sweeper.phase.id != id
    ensures var s', tr := SweepApply(s, Update), TraceOf(s, id);
            && id in s'.db.live && s'.world == s.world
            && TraceOf(s', id) ==
               if s.sweeper.phase.id != id then tr
               else tr.(row := tr.row.(status := s.sweeper.phase.status), phase := Sweeping)
  {
    UpdateRow(s, id);
    TraceSweep(s, SweepApply(s, Update), id);
  }

  /** A fresh batch holds exactly the selected rows. */
  lemma SweptFresh(db: Db, batch: seq<Task>, id: int)
    requires IsSelection(db, batch) && id in db.live
    ensures Part(multiset(batch), Has(id)) ==
            if Selected(db, id) then multiset{TaskOf(id, db.live[id], db.fods[id])} else multiset{}
  {
    if Selected(db, id) {
      SweptOne(batch, TaskOf(id, db.live[id], db.fods[id]));
    } else {
      PartNone(multiset(batch), Has(id));
    }
  }

  /** Of tasks with different ids one has the id. */
  lemma SweptOne(batch: seq<Task>, t: Task)
    requires t in batch && forall i, j | 0 <= i < j < |batch| :: batch[i].id != batch[j].id
    ensures Part(multiset(batch), Has(t.id)) == multiset{t}
  {
    var i :| 0 <= i < |batch| && batch[i] == t;
    var front, back := batch[..i], batch[i + 1..];
    assert batch == front + [t] + back;
    var others := multiset(front) + multiset(back);
    assert multiset(batch) == others + multiset{t};
    forall x | x in others ensures x.id != t.id {
      assert x in front || x in back;
    }
    PartAdd(others, Has(t.id), t);
    PartNone(others, Has(t.id));
  }

  // ---------------------------------------------------------------- the log handler

  /** What a step of the log handler leaves alone. */
  ghost predicate OnlyLogger(s: State, s': State) {
    && s'.ch.pending == s.ch.pending && s'.ch.running == s.ch.running
    && s'.sweeper == s.sweeper && s'.pender == s.pender && s'.runner == s.runner && s'.world == s.world
  }

  lemma TraceMail(s: State, s': State, id: int)
    requires id in s.db.live && id in s'.db.live && OnlyLogger(s, s')
    ensures TraceOf(s', id) == TraceOf(s, id).(row := s'.db.live[id], mail := Letters(Pending(s'), id))
  {
  }

  lemma TakeMail(s: State)
    requires LogEnabled(s, TakeLog)
    ensures Pending(LogApply(s, TakeLog)) == Pending(s) && OnlyLogger(s, LogApply(s, TakeLog))
  {
    assert s.ch.log == [s.ch.log[0]] + s.ch.log[1..];
  }

  /** The first message goes, or is prepared for its commit under another status. */
  lemma FirstMail(s: State, step: LogStep) returns (t: Task, rest: seq<Task>)
    requires LogEnabled(s, step) && !step.TakeLog?
    ensures Pending(s) == [t] + rest && OnlyLogger(s, LogApply(s, step))
    ensures Pending(LogApply(s, step)) ==
            match step
            case ReadReport(_, _) => [t.(status := Reported)] + rest
            case ReadAbort(_) => [t.(status := Aborted)] + rest
            case _ => rest
    ensures step.ApplyStatus? ==> t == s.logger.batch[0]
    ensures !step.ApplyStatus? ==> Terminal(t.status)
  {
    if step.Commit? {
      t, rest := Pending(s)[0], s.logger.batch + s.ch.log;
    } else {
      t, rest := s.logger.batch[0], s.logger.batch[1..] + s.ch.log;
      assert s.logger.batch == [t] + s.logger.batch[1..];
    }
  }

  /** What a commit and a row update do to the row. */
  lemma FirstRow(s: State, step: LogStep, id: int)
    requires Inv(s) && LogEnabled(s, step) && id in s.db.live
    requires step.Commit? ==> Pending(s) != [] && Pending(s)[0].id != id
    ensures id in LogApply(s, step).db.live
    ensures LogApply(s, step).db.live[id] ==
            if step.ApplyStatus? && s.logger.batch[0].id == id && !s.logger.batch[0].status.SandboxApiTimeout?
            then WriteBack(s.db.live[id], s.logger.batch[0]) else s.db.live[id]
  {
    if step.Commit? && s.logger.phase.Aborting? && s.logger.phase.next.Some? {
      assert s.logger.phase.next.value in s.db.dups;
    }
  }

  /** A message about another task leaves the trace alone; one about the task is applied to its row. */
  lemma TraceApplied(s: State, step: LogStep, t: Task, rest: seq<Task>, id: int)
    requires Inv(s) && LogEnabled(s, step) && !step.TakeLog? && id in s.db.live && Pending(s) == [t] + rest
    requires t.id == id ==> RowStatus(t.status)
    ensures id in LogApply(s, step).db.live
    ensures TraceOf(LogApply(s, step), id) ==
            if t.id != id then TraceOf(s, id)
            else TraceOf(s, id).(row := WriteBack(s.db.live[id], t), mail := Letters(rest, id))
  {
    var s' := LogApply(s, step);
    var t', rest' := FirstMail(s, step);
    assert Pending(s)[0] == t && Pending(s)[1..] == rest && Pending(s)[1..] == rest';
    FirstRow(s, step, id);
    TraceMail(s, s', id);
    if t.id != id {
      LettersCons(t, rest, id);
      LettersCons(t.(status := Reported), rest, id);
      LettersCons(t.(status := Aborted), rest, id);
    }
  }

  // ---------------------------------------------------------------- requests and the world

  lemma AskRow(s: State, step: AskStep, id: int)
    requires Inv(s) && AskEnabled(s, step) && id in s.db.live
    ensures var s' := AskApply(s, step);
            && id in s'.db.live && s'.db.live[id] == s.db.live[id] && OnlyLogger(s, s')
            && s'.logger == s.logger && s'.ch == s.ch
  {
    if step.Insert? && Accepts(s.db, EntryOf(step.asking)) {
      EnterKeeps(s.db, step.asking);
    }
  }

  lemma TraceAsked(s: State, step: AskStep, id: int)
    requires Inv(s) && AskEnabled(s, step) && id in s.db.live
    ensures id in AskApply(s, step).db.live && TraceOf(AskApply(s, step), id) == TraceOf(s, id)
  {
    AskRow(s, step, id);
    TraceMail(s, AskApply(s, step), id);
  }

  lemma TraceOutside(s: State, step: WorldStep, id: int)
    requires WorldEnabled(s, step) && !step.Crash? && id in s.db.live
    ensures TraceOf(WorldApply(s, step), id) == TraceOf(s, id)
  {
  }

  // ---------------------------------------------------------------- no copy

  ghost predicate NoneOf(tasks: multiset<Task>, id: int) {
    forall t | t in tasks :: t.id != id
  }

  lemma NotAtWork(s: State, id: int)
    requires forall t | t in Pended(s) :: !Has(id)(t)
    requires forall t | t in Watched(s) :: !Has(id)(t)
    requires forall f | f in s.pender.returned :: !Carries(id)(f)
    ensures id !in WorkIds(s)
  {
    assert NoneOf(Pended(s), id) && NoneOf(Watched(s), id);
    assert id !in TaskIds(s.ch.pending) && id !in TaskIds(s.pender.batch) && id !in SendIds(s.pender.sending);
    assert id !in TaskIds(s.ch.running) && id !in TaskIds(s.runner.batch);
    assert id !in FlightIds(s.pender.returned);
  }

  /** Without a copy in its trace a task has none anywhere. */
  lemma NoneAtWork(s: State, id: int)
    requires id in s.db.live
    requires var tr := TraceOf(s, id);
             tr.pended == multiset{} && tr.watched == multiset{} && tr.flying == multiset{}
    ensures id !in WorkIds(s)
  {
    NotInPart(Pended(s), Has(id));
    NotInPart(Watched(s), Has(id));
    NotInPart(s.pender.returned, Carries(id));
    NotAtWork(s, id);
  }

  // ---------------------------------------------------------------- the end of a life

  /** A terminal message is sent, or the row has gone. */
  ghost predicate Done(s: State, id: int) {
    id in Known(s.db) && (id in s.db.live ==> exists t :: t in Pending(s) && t.id == id && Terminal(t.status))
  }

  predicate Crashes(step: Step) {
    step.Outside? && step.world.Crash?
  }

  lemma DoneBySending(s: State, s': State, t: Task)
    requires t.id in s.db.live && s'.db.live.Keys == s.db.live.Keys && Terminal(t.status)
    requires Pending(s') == Pending(s) + [t]
    ensures Done(s', t.id)
  {
    assert t in Pending(s');
  }

  /** What a step other than a commit and a crash does to the messages: it sends some, or applies the first. */
  ghost predicate MailGoesOn(mail: seq<Task>, mail': seq<Task>) {
    || mail <= mail'
    || (mail != [] && mail' == mail[1..] && !Terminal(mail[0].status))
    || (mail != [] && mail' != [] && mail'[1..] == mail[1..] && mail'[0].id == mail[0].id
        && Terminal(mail'[0].status) && Terminal(mail[0].status))
  }

  lemma MailKeepsTerminal(id: int, mail: seq<Task>, mail': seq<Task>)
    requires exists t :: t in mail && t.id == id && Terminal(t.status)
    requires MailGoesOn(mail, mail')
    ensures exists t :: t in mail' && t.id == id && Terminal(t.status)
  {
    var t :| t in mail && t.id == id && Terminal(t.status);
    if mail <= mail' {
      assert t in mail';
    } else if t != mail[0] {
      assert mail == [mail[0]] + mail[1..];
      assert t in mail[1..];
      assert forall x | x in mail'[1..] :: x in mail';
    } else {
      assert mail'[0] in mail';
    }
  }

  lemma PendingMail(s: State, step: PendingStep)
    requires PendingEnabled(s, step)
    ensures MailGoesOn(Pending(s), Pending(PendingApply(s, step)))
    ensures PendingApply(s, step).db.live.Keys == s.db.live.Keys
    ensures PendingApply(s, step).db.finished == s.db.finished
  {
    if step.RouteFailure? {
      var route := RouteOf(step.task, step.requeued);
      assert route.GiveUp? || route.Requeue? || route.SendBack?;
    }
    assert PendingApply(s, step).logger == s.logger && s.ch.log <= PendingApply(s, step).ch.log;
  }

  lemma RunningMail(s: State, step: RunningStep)
    requires RunningEnabled(s, step)
    ensures MailGoesOn(Pending(s), Pending(RunningApply(s, step)))
    ensures RunningApply(s, step).db.live.Keys == s.db.live.Keys
    ensures RunningApply(s, step).db.finished == s.db.finished
  {
    if step.Check? {
      CheckMail(s, step.timeout, step.pushed);
    }
    assert RunningApply(s, step).logger == s.logger && s.ch.log <= RunningApply(s, step).ch.log;
  }

  lemma CheckMail(s: State, timeout: int, pushed: bool)
    requires RunningEnabled(s, Check(timeout, pushed))
    ensures var s' := RunningApply(s, Check(timeout, pushed));
            && s'.logger == s.logger && s.ch.log <= s'.ch.log
            && s'.db.live.Keys == s.db.live.Keys && s'.db.finished == s.db.finished
  {
    var verdict := CheckTask(s.runner.batch[0], s.runner.snapshot, timeout, s.world.now);
    assert verdict.Finish? || verdict.Exhausted? || verdict.Lost? || verdict.KeepWaiting?;
  }

  lemma SweepMail(s: State, step: SweepStep)
    requires SweepEnabled(s, step)
    ensures MailGoesOn(Pending(s), Pending(SweepApply(s, step)))
    ensures SweepApply(s, step).db.live.Keys == s.db.live.Keys
    ensures SweepApply(s, step).db.finished == s.db.finished
  {
    assert SweepApply(s, step).logger == s.logger && s.ch.log <= SweepApply(s, step).ch.log;
  }

  lemma HeadMail(s: State, step: LogStep)
    requires LogEnabled(s, step) && (step.ReadReport? || step.ReadAbort? || step.ApplyStatus?)
    ensures MailGoesOn(Pending(s), Pending(LogApply(s, step)))
  {
    var first := s.logger.batch[0];
    var rest := s.logger.batch[1..] + s.ch.log;
    assert Pending(s) == [first] + rest;
    assert Pending(LogApply(s, step)) == if step.ApplyStatus? then rest else
        [first.(status := if step.ReadReport? then Reported else Aborted)] + rest;
  }

  lemma LogMail(s: State, step: LogStep)
    requires LogEnabled(s, step) && !step.Commit?
    ensures MailGoesOn(Pending(s), Pending(LogApply(s, step)))
    ensures LogApply(s, step).db.live.Keys == s.db.live.Keys
    ensures LogApply(s, step).db.finished == s.db.finished
  {
    if step.TakeLog? {
      assert s.ch.log == [s.ch.log[0]] + s.ch.log[1..];
      assert Pending(LogApply(s, step)) == Pending(s);
    } else {
      HeadMail(s, step);
    }
  }

  lemma CommitDone(s: State, id: int)
    requires Inv(s) && Done(s, id) && LogEnabled(s, Commit)
    ensures Done(LogApply(s, Commit), id)
  {
    var s' := LogApply(s, Commit);
    var rest := s.logger.batch + s.ch.log;
    assert Pending(s') == rest;
    match s.logger.phase
    case Reporting(t, score, ids) =>
      ReportPartition(s.db, t, score, ids);
      assert Pending(s) == [t.(status := Reported)] + rest;
    case Aborting(t, next) =>
      AbortPartition(s.db, t, next);
      assert Pending(s) == [t.(status := Aborted)] + rest;
      assert next.Some? ==> next.value in s.db.dups;
  }

  /** A step other than a commit and a crash keeps the live rows, or adds a new one. */
  lemma StepMail(s: State, step: Step, id: int)
    requires Inv(s) && id in Known(s.db) && Enabled(s, step) && !Crashes(step) && step != Log(Commit)
    ensures MailGoesOn(Pending(s), Pending(Apply(s, step)))
    ensures id in Known(Apply(s, step).db) && (id in Apply(s, step).db.live <==> id in s.db.live)
  {
    match step
    case Sweep(w) => SweepMail(s, w);
    case Pend(p) => PendingMail(s, p);
    case Watch(w) => RunningMail(s, w);
    case Log(g) => LogMail(s, g);
    case Ask(r) => AskDone(s, r, id);
    case Outside(o) =>
  }

  /** Once the terminal message is sent, the task stays done. */
  lemma DoneKeeps(s: State, step: Step, id: int)
    requires Inv(s) && Done(s, id) && Enabled(s, step) && !Crashes(step)
    ensures Done(Apply(s, step), id)
  {
    if step == Log(Commit) {
      CommitDone(s, id);
    } else {
      StepMail(s, step, id);
      if id in s.db.live {
        MailKeepsTerminal(id, Pending(s), Pending(Apply(s, step)));
      }
    }
  }

  lemma AskDone(s: State, step: AskStep, id: int)
    requires Inv(s) && id in Known(s.db) && AskEnabled(s, step)
    ensures id in Known(AskApply(s, step).db) && (id in AskApply(s, step).db.live <==> id in s.db.live)
  {
    if step.Insert? && Accepts(s.db, EntryOf(step.asking)) {
      assert AskingOk(step.asking);
      EnterKeeps(s.db, step.asking);
    }
  }
}
