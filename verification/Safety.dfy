/**
 When a live row is safe: some copy of its task is still on its way, or the messages already sent will leave the row
 deleted, in a status the sweep selects, or flagged so that the sweep selects it. And what a step must do to a row
 or send about it to endanger that.
 */
module Safety {
  import opened Records
  import opened Database
  import opened Transactions
  import opened Machine
  import opened Fates

  // ---------------------------------------------------------------- the property

  ghost predicate Safe(s: State, id: int, trust: bool)
    requires id in s.db.live
  {
    id in WorkIds(s) || SafeOutcome(Settle(RowOutcome(s.db.live[id]), id, Pending(s)), trust)
  }

  ghost predicate NothingStranded(s: State, trust: bool) {
    forall id | id in s.db.live :: Safe(s, id, trust)
  }

  /** Rows that differ at most in the task j. */
  predicate SameButOne(db: Db, db': Db, j: int) {
    && db'.live.Keys == db.live.Keys
    && forall k | k in db.live && k != j :: RowOutcome(db'.live[k]) == RowOutcome(db.live[k])
  }

  /** A step about one task, with at most one message more: everything hangs on that task. */
  lemma AboutOne(s: State, s': State, j: int, more: seq<Task>, trust: bool)
    requires NothingStranded(s, trust) && SameButOne(s.db, s'.db, j)
    requires |more| <= 1 && forall m | m in more :: m.id == j
    requires Pending(s') == Pending(s) + more
    requires WorkIds(s') + {j} == WorkIds(s) + {j}
    ensures NothingStranded(s', trust) <==> (j in s'.db.live ==> Safe(s', j, trust))
  {
    forall k | k in s'.db.live && k != j ensures Safe(s', k, trust) {
      assert Safe(s, k, trust);
      if more == [] {
        assert Pending(s) + more == Pending(s);
      } else {
        assert more == [more[0]] && more[0] in more;
        SettleSnoc(RowOutcome(s.db.live[k]), k, Pending(s), more[0]);
      }
    }
  }

  /** Tasks moved between channels, batches and goroutines. */
  lemma MoveSafe(s: State, s': State, trust: bool)
    requires NothingStranded(s, trust)
    requires s'.db.live == s.db.live && WorkIds(s) <= WorkIds(s') && Pending(s') == Pending(s)
    ensures NothingStranded(s', trust)
  {
    forall id | id in s'.db.live ensures Safe(s', id, trust) {
      assert Safe(s, id, trust);
    }
  }

  // ---------------------------------------------------------------- what can strand a task

  /** What a step does that may strand its task: write its row, or send a status the sweep does not select. */
  datatype Risk =
    | NoRisk
    | Written(id: int, status: Status, flag: bool)
    | Sent(message: Task)

  function PostRisk(t: Task, status: Status, pushed: bool): Risk {
    if !pushed then Written(t.id, t.status, true)
    else if Terminal(status) || NotInQueue(status) then NoRisk
    else Sent(t.(status := status))
  }

  function UpdateRisk(db: Db, phase: SweepPhase): Risk {
    match phase
    case Clearing(id) => if id in db.live then Written(id, db.live[id].status, false) else NoRisk
    case Marking(id, status) => if id in db.live then Written(id, status, db.live[id].logQueueFailed) else NoRisk
    case _ => NoRisk
  }

  function PendingRisk(s: State, step: PendingStep): Risk {
    match step
    case Start(timeout, pushed) =>
      if s.pender.batch != [] && PendingExpired(s.pender.batch[0], timeout, s.world.now)
      then PostRisk(s.pender.batch[0], Aborted, pushed) else NoRisk
    case RouteFailure(task, requeued, pushed) =>
      (match RouteOf(task, requeued)
       case GiveUp(t) => PostRisk(t, Aborted, pushed)
       case Requeue(_) => NoRisk
       case SendBack(t) => if pushed then NoRisk else Written(t.id, PendingNotInQueue, true))
    case RouteStatus(f, pushed) => PostRisk(f.task, if f.Queued? then RunningInQueue else RunningNotInQueue, pushed)
    case _ => NoRisk
  }

  function RunningRisk(s: State, step: RunningStep): Risk {
    match step
    case Check(timeout, pushed) =>
      if s.runner.batch == [] then NoRisk
      else
        var t := s.runner.batch[0];
        (match CheckTask(t, s.runner.snapshot, timeout, s.world.now)
         case Finish(status) => PostRisk(t, status, pushed)
         case Exhausted => PostRisk(Retried(t), Aborted, pushed)
         case Lost => PostRisk(Retried(t), RunningNotInQueue, pushed)
         case KeepWaiting => if Room(s.ch.running) then NoRisk else PostRisk(t, RunningNotInQueue, pushed))
    case Owe(pushed) => if s.runner.owed.Some? then PostRisk(s.runner.owed.value, RunningNotInQueue, pushed) else NoRisk
    case _ => NoRisk
  }

  function RiskOf(s: State, step: Step): Risk {
    match step
    case Sweep(w) => if w.Update? then UpdateRisk(s.db, s.sweeper.phase) else NoRisk
    case Pend(p) => PendingRisk(s, p)
    case Watch(w) => RunningRisk(s, w)
    case _ => NoRisk
  }

  /**
   The task is live, no copy of it is left, and the messages sent before neither delete the row nor replace what
   is written by something the sweep selects.
   */
  ghost predicate Endangered(s: State, after: State, risk: Risk, trust: bool) {
    match risk
    case NoRisk => false
    case Written(id, status, flag) =>
      && id in s.db.live && id !in WorkIds(after)
      && !SafeOutcome(Settle(At(status, flag), id, Pending(s)), trust)
    case Sent(m) =>
      && m.id in s.db.live && m.id !in WorkIds(after) && !(trust && m.logQueueFailed)
      && !Settle(RowOutcome(s.db.live[m.id]), m.id, Pending(s)).Gone?
  }

  ghost predicate Strands(s: State, step: Step, trust: bool)
    requires Enabled(s, step)
  {
    Endangered(s, Apply(s, step), RiskOf(s, step), trust)
  }

  lemma MessageExactly(s: State, used: State, m: Task, trust: bool)
    requires NothingStranded(s, trust)
    requires used.db == s.db && used.ch == s.ch && used.logger == s.logger
    requires WorkIds(s) + {m.id} == WorkIds(used) + {m.id} && (Terminal(m.status) || RowStatus(m.status))
    ensures var s' := used.(ch := used.ch.(log := used.ch.log + [m]));
            NothingStranded(s', trust) <==>
            !Endangered(s, s', if Terminal(m.status) || NotInQueue(m.status) then NoRisk else Sent(m), trust)
  {
    var s' := used.(ch := used.ch.(log := used.ch.log + [m]));
    assert Pending(s') == Pending(s) + [m];
    AboutOne(s, s', m.id, [m], trust);
    if m.id in s.db.live {
      SettleSnoc(RowOutcome(s.db.live[m.id]), m.id, Pending(s), m);
    }
  }

  lemma RowWriteExactly(s: State, used: State, t: Task, trust: bool)
    requires NothingStranded(s, trust)
    requires used.db == s.db && used.ch == s.ch && used.logger == s.logger
    requires WorkIds(s) + {t.id} == WorkIds(used) + {t.id}
    ensures var s' := used.(db := SetRow(used.db, t));
            NothingStranded(s', trust) <==> !Endangered(s, s', Written(t.id, t.status, t.logQueueFailed), trust)
  {
    var s' := used.(db := SetRow(used.db, t));
    assert Pending(s') == Pending(s) + [];
    AboutOne(s, s', t.id, [], trust);
  }

  /** A status message or, with a full log queue, the flagged row: it strands exactly the endangered task. */
  lemma PostExactly(s: State, used: State, t: Task, status: Status, pushed: bool, trust: bool)
    requires NothingStranded(s, trust)
    requires used.db == s.db && used.ch == s.ch && used.logger == s.logger
    requires WorkIds(s) + {t.id} == WorkIds(used) + {t.id}
    requires Terminal(status) || RowStatus(status)
    ensures var s' := Post(used, t, status, pushed);
            NothingStranded(s', trust) <==> !Endangered(s, s', PostRisk(t, status, pushed), trust)
  {
    if pushed {
      MessageExactly(s, used, t.(status := status), trust);
    } else {
      RowWriteExactly(s, used, t.(logQueueFailed := true), trust);
    }
  }
}
