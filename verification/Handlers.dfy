/**
 The handlers as programs over the shared connection and the three channels. Each method is proved to do exactly
 the machine steps named in its contract; what may happen between those steps is the machine's matter.
 */
module Handlers {
  import opened Records
  import opened Database
  import opened Transactions
  import opened Machine
  import opened Runs
  import opened TaskChannels
  import opened Store
  import opened Sandbox

  class Pipeline {
    const conn: Connection
    const pending: Channel
    const running: Channel
    const log: Channel

    ghost predicate Valid() {
      pending != running && pending != log && running != log
    }

    /** The tables and channels are those of the machine state. */
    ghost predicate Shows(s: State)
      reads conn, pending, running, log
    {
      conn.db == s.db && Channels(pending.items, running.items, log.items) == s.ch
    }

    constructor (conn: Connection)
      ensures Valid() && this.conn == conn && fresh(pending) && fresh(running) && fresh(log)
      ensures Shows(Init({}).(db := conn.db))
    {
      this.conn := conn;
      var p := new Channel();
      var r := new Channel();
      var l := new Channel();
      pending, running, log := p, r, l;
    }

    /** These messages are sent, and the tables stay. */
    twostate predicate Sends(messages: seq<Task>)
      reads conn, log
    {
      log.items == old(log.items) + messages && conn.db == old(conn.db)
    }

    /** The new status is sent, or lost: with a full log queue the row is flagged under its old status. */
    method ChangeStatusAndPushToLogQueue(task: Task, newStatus: Status, ghost s: State)
      requires Valid() && Shows(s)
      modifies conn, log
      ensures Shows(Post(s, task, newStatus, Room(s.ch.log)))
      ensures |old(log.items)| < 5000 ==> Sends([task.(status := newStatus)])
      ensures |old(log.items)| >= 5000 ==>
                log.items == old(log.items) && conn.db == SetRow(old(conn.db), task.(logQueueFailed := true))
    {
      var pushed := log.Push(task, newStatus);
      if !pushed {
        UpdateLiveTask(conn, task.(logQueueFailed := true));
      }
    }

    // -------------------------------------------------------------- the sweep

    ghost function Closing(pushed: bool): seq<Step> {
      if pushed then [Sweep(Update)] else []
    }

    /** What the sweep does with the head of its batch. */
    ghost function SweepSteps(s: State, clamd: bool, quickScope: bool, counted: bool): seq<Step>
      requires s.sweeper.batch != []
    {
      var t := s.sweeper.batch[0];
      var toLog := Room(s.ch.log);
      if t.logQueueFailed then [Sweep(Flagged(toLog))] + Closing(toLog)
      else if t.status == PendingNotInQueue then
        if clamd then [Sweep(Malicious(ReportedThroughClamd, toLog))] + Closing(toLog)
        else if quickScope then [Sweep(Malicious(ReportedThroughQuickScope, toLog))] + Closing(toLog)
        else if (if counted then |s.db.live| else 0) < MAX_FREE_VMS then
          [Sweep(Count(counted))] + ([Sweep(Admit(Room(s.ch.pending)))] + Closing(Room(s.ch.pending)))
        else [Sweep(Count(counted))] + ([Sweep(Reject(toLog))] + Closing(toLog))
      else [Sweep(Resume(Room(s.ch.running)))] + Closing(Room(s.ch.running))
    }

    ghost predicate AtHead(s: State, task: Task) {
      s.sweeper.phase.Sweeping? && s.sweeper.batch != [] && s.sweeper.batch[0] == task
    }

    lemma StepAndClose(s: State, step: Step, pushed: bool)
      requires Enabled(s, step)
      requires pushed ==> Enabled(Apply(s, step), Sweep(Update))
      ensures CanRun(s, [step] + Closing(pushed))
      ensures Run(s, [step] + Closing(pushed))
           == if pushed then Apply(Apply(s, step), Sweep(Update)) else Apply(s, step)
    {
      RunOne(s, step);
      if pushed {
        RunTwo(s, step, Sweep(Update));
        assert [step] + Closing(pushed) == [step, Sweep(Update)];
      } else {
        assert [step] + Closing(pushed) == [step];
      }
    }

    /** The head of the batch went to the log queue, or nowhere when that queue is full. */
    lemma LogBranch(s: State, step: SweepStep, status: Status)
      requires s.sweeper.batch != [] && SweepEnabled(s, step)
      requires SweepApply(s, step) == SweepToLog(s, status, Room(s.ch.log))
      ensures var t := s.sweeper.batch[0];
              var steps := [Sweep(step)] + Closing(Room(s.ch.log));
              && CanRun(s, steps)
              && Run(s, steps).db == (if Room(s.ch.log) then SetFlag(s.db, t.id, false) else s.db)
              && Run(s, steps).ch == (if Room(s.ch.log) then s.ch.(log := s.ch.log + [t.(status := status)]) else s.ch)
              && Run(s, steps).sweeper == Sweeper(s.sweeper.batch[1..], Sweeping) && Run(s, steps).world == s.world
    {
      StepAndClose(s, Sweep(step), Room(s.ch.log));
    }

    lemma ResumeBranch(s: State)
      requires SweepAt(s.sweeper, RunningNotInQueue)
      ensures var t := s.sweeper.batch[0].(runningStartedAt := s.world.now);
              var room := Room(s.ch.running);
              var steps := [Sweep(Resume(room))] + Closing(room);
              && CanRun(s, steps)
              && Run(s, steps).db == (if room then SetStatus(s.db, t.id, RunningInQueue) else s.db)
              && Run(s, steps).ch ==
                 (if room then s.ch.(running := s.ch.running + [t.(status := RunningInQueue)]) else s.ch)
              && Run(s, steps).sweeper == Sweeper(s.sweeper.batch[1..], Sweeping) && Run(s, steps).world == s.world
    {
      StepAndClose(s, Sweep(Resume(Room(s.ch.running))), Room(s.ch.running));
    }

    lemma AdmitCloses(s: State)
      requires s.sweeper.phase.Admitting?
      ensures var t := s.sweeper.phase.task;
              var room := Room(s.ch.pending);
              var steps := [Sweep(Admit(room))] + Closing(room);
              && CanRun(s, steps)
              && Run(s, steps).db == (if room then SetStatus(s.db, t.id, PendingInQueue) else s.db)
              && Run(s, steps).ch ==
                 (if room then s.ch.(pending := s.ch.pending + [t.(status := PendingInQueue)]) else s.ch)
              && Run(s, steps).sweeper == Sweeper(s.sweeper.batch, Sweeping) && Run(s, steps).world == s.world
    {
      StepAndClose(s, Sweep(Admit(Room(s.ch.pending))), Room(s.ch.pending));
    }

    lemma AdmitBranch(s: State, counted: bool)
      requires SweepAt(s.sweeper, PendingNotInQueue)
      requires (if counted then |s.db.live| else 0) < MAX_FREE_VMS
      ensures var t := s.sweeper.batch[0];
              var room := Room(s.ch.pending);
              var steps := [Sweep(Count(counted))] + ([Sweep(Admit(room))] + Closing(room));
              && CanRun(s, steps)
              && Run(s, steps).db == (if room then SetStatus(s.db, t.id, PendingInQueue) else s.db)
              && Run(s, steps).ch ==
                 (if room then s.ch.(pending := s.ch.pending + [t.(status := PendingInQueue)]) else s.ch)
              && Run(s, steps).sweeper == Sweeper(s.sweeper.batch[1..], Sweeping) && Run(s, steps).world == s.world
    {
      var count := Sweep(Count(counted));
      RunOne(s, count);
      AdmitCloses(Apply(s, count));
      RunAppend(s, [count], [Sweep(Admit(Room(s.ch.pending)))] + Closing(Room(s.ch.pending)));
    }

    /** The sweep sends the head of its batch to the log queue, because of its flag, a scan or the live count. */
    ghost predicate GoesToLog(s: State, clamd: bool, quickScope: bool, counted: bool, newStatus: Status) {
      && s.sweeper.phase.Sweeping? && s.sweeper.batch != []
      && var t := s.sweeper.batch[0];
      if t.logQueueFailed then newStatus == FlaggedStatus(t.status)
      else && t.status == PendingNotInQueue
           && if clamd then newStatus == ReportedThroughClamd
              else if quickScope then newStatus == ReportedThroughQuickScope
              else newStatus == Aborted && (if counted then |s.db.live| else 0) >= MAX_FREE_VMS
    }

    lemma ToLogBranch(s: State, clamd: bool, quickScope: bool, counted: bool, newStatus: Status)
      requires GoesToLog(s, clamd, quickScope, counted, newStatus)
      ensures var t := s.sweeper.batch[0];
              var steps := SweepSteps(s, clamd, quickScope, counted);
              && CanRun(s, steps)
              && Run(s, steps).db == (if Room(s.ch.log) then SetFlag(s.db, t.id, false) else s.db)
              && Run(s, steps).ch
                 == (if Room(s.ch.log) then s.ch.(log := s.ch.log + [t.(status := newStatus)]) else s.ch)
              && Run(s, steps).sweeper == Sweeper(s.sweeper.batch[1..], Sweeping) && Run(s, steps).world == s.world
    {
      var toLog := Room(s.ch.log);
      if s.sweeper.batch[0].logQueueFailed {
        LogBranch(s, Flagged(toLog), newStatus);
      } else if clamd || quickScope {
        LogBranch(s, Malicious(newStatus, toLog), newStatus);
      } else {
        RejectBranch(s, counted);
      }
    }

    lemma RejectBranch(s: State, counted: bool)
      requires SweepAt(s.sweeper, PendingNotInQueue)
      requires (if counted then |s.db.live| else 0) >= MAX_FREE_VMS
      ensures var t := s.sweeper.batch[0];
              var room := Room(s.ch.log);
              var steps := [Sweep(Count(counted))] + ([Sweep(Reject(room))] + Closing(room));
              && CanRun(s, steps)
              && Run(s, steps).db == (if room then SetFlag(s.db, t.id, false) else s.db)
              && Run(s, steps).ch == (if room then s.ch.(log := s.ch.log + [t.(status := Aborted)]) else s.ch)
              && Run(s, steps).sweeper == Sweeper(s.sweeper.batch[1..], Sweeping) && Run(s, steps).world == s.world
    {
      var count := Sweep(Count(counted));
      RunOne(s, count);
      LogBranch(Apply(s, count), Reject(Room(s.ch.log)), Aborted);
      RunAppend(s, [count], [Sweep(Reject(Room(s.ch.log)))] + Closing(Room(s.ch.log)));
    }

    /**
     Which queue and status the sweep picks for a task. A work queue always goes with the status that takes the row
     out of the sweep's selection; the log queue with one that keeps a flagged row selected, or that ends the task.
     Only an unflagged task not yet admitted can end here, and only when infected or when there are too many.
     */
    method Route(task: Task, clamd: bool, quickScope: bool, count: nat) returns (target: Channel, newStatus: Status)
      requires Valid() && (task.logQueueFailed || NotInQueue(task.status))
      ensures target in {pending, running, log}
      ensures target == pending <==> newStatus == PendingInQueue
      ensures target == running <==> newStatus == RunningInQueue
      ensures task.logQueueFailed ==>
                newStatus == if task.status == PendingInQueue then PendingNotInQueue
                             else if task.status == RunningInQueue then RunningNotInQueue else task.status
      ensures target == log <==> task.logQueueFailed || Terminal(newStatus)
      ensures !task.logQueueFailed ==>
                && (target == running <==> task.status == RunningNotInQueue)
                && (Terminal(newStatus) <==>
                      task.status == PendingNotInQueue && (clamd || quickScope || count >= 5))
                && (newStatus == ReportedThroughClamd ==> clamd)
                && (newStatus == ReportedThroughQuickScope ==> quickScope && !clamd)
                && (newStatus == Aborted ==> !clamd && !quickScope) && newStatus != Reported
    {
      if task.logQueueFailed {
        target, newStatus := log, task.status;
        if task.status == PendingInQueue {
          newStatus := PendingNotInQueue;
        } else if task.status == RunningInQueue {
          newStatus := RunningNotInQueue;
        }
      } else if task.status == PendingNotInQueue {
        var foundMalicious := false;
        if clamd {
          foundMalicious := true;
          target, newStatus := log, ReportedThroughClamd;
        } else if quickScope {
          foundMalicious := true;
          target, newStatus := log, ReportedThroughQuickScope;
        }
        if !foundMalicious {
          if count >= MAX_FREE_VMS {
            target, newStatus := log, Aborted;
          } else {
            target, newStatus := pending, PendingInQueue;
          }
        }
      } else {
        target, newStatus := running, RunningInQueue;
      }
    }

    /** The rest of the loop body: push, and on success write the row. */
    method PushAndUpdate(task: Task, target: Channel, newStatus: Status)
      requires Valid() && target in {pending, running, log}
      modifies conn, pending, running, log
      ensures forall c | c in {pending, running, log} ::
                c.items == if c == target && Room(old(c.items)) then old(c.items) + [task.(status := newStatus)]
                           else old(c.items)
      ensures conn.db == if !Room(old(target.items)) then old(conn.db)
                         else if target == log then SetFlag(old(conn.db), task.id, false)
                         else SetStatus(old(conn.db), task.id, newStatus)
    {
      var pushed := target.Push(task, newStatus);
      if pushed {
        if target == log {
          UpdateLogQueueFail(conn, task.id, false);
        } else {
          UpdateTaskStatus(conn, task.id, newStatus);
        }
      }
    }

    /** One task of the sweep, from the scans to the row update. */
    method SweepTask(task: Task, clamd: bool, quickScope: bool, counted: bool, now: int, ghost s: State)
      requires Valid() && Shows(s) && AtHead(s, task) && s.world.now == now
      requires task.logQueueFailed || NotInQueue(task.status)
      modifies conn, pending, running, log
      ensures CanRun(s, SweepSteps(s, clamd, quickScope, counted))
      ensures Shows(Run(s, SweepSteps(s, clamd, quickScope, counted)))
      ensures Run(s, SweepSteps(s, clamd, quickScope, counted)).sweeper == Sweeper(s.sweeper.batch[1..], Sweeping)
      ensures Run(s, SweepSteps(s, clamd, quickScope, counted)).world == s.world
      ensures task.logQueueFailed && |old(log.items)| < 5000 ==>
                && log.items == old(log.items)
                                + [task.(status := if task.status == PendingInQueue then PendingNotInQueue
                                                   else if task.status == RunningInQueue then RunningNotInQueue
                                                   else task.status)]
                && conn.db == SetFlag(old(conn.db), task.id, false)
      ensures !task.logQueueFailed && task.status == RunningNotInQueue && |old(running.items)| < 5000 ==>
                && running.items == old(running.items) + [task.(status := RunningInQueue, runningStartedAt := now)]
                && conn.db == SetStatus(old(conn.db), task.id, RunningInQueue)
      ensures var infected := clamd || quickScope;
              var many := counted && |old(conn.db).live| >= 5;
              !task.logQueueFailed && task.status == PendingNotInQueue ==>
                && (!infected && !many && |old(pending.items)| < 5000 ==>
                      && pending.items == old(pending.items) + [task.(status := PendingInQueue)]
                      && conn.db == SetStatus(old(conn.db), task.id, PendingInQueue))
                && ((infected || many) && |old(log.items)| < 5000 ==>
                      && log.items == old(log.items)
                                      + [task.(status := if clamd then ReportedThroughClamd
                                                         else if quickScope then ReportedThroughQuickScope
                                                         else Aborted)]
                      && conn.db == SetFlag(old(conn.db), task.id, false))
    {
      var count := if counted then |conn.db.live| else 0;
      var target, newStatus := Route(task, clamd, quickScope, count);
      var t := if target == running then task.(runningStartedAt := now) else task;
      PushAndUpdate(t, target, newStatus);
      if target == log {
        ToLogBranch(s, clamd, quickScope, counted, newStatus);
      } else if target == running {
        ResumeBranch(s);
      } else {
        AdmitBranch(s, counted);
      }
    }

    /** The sweep handles the task at the head of what is left of its batch. */
    ghost predicate SweptOne(s: State, s': State, rest: seq<Task>, scanned: (bool, bool), counted: bool) {
      && rest != [] && s.sweeper == Sweeper(rest, Sweeping)
      && CanRun(s, SweepSteps(s, scanned.0, scanned.1, counted))
      && s' == Run(s, SweepSteps(s, scanned.0, scanned.1, counted))
    }

    /** From each of these states to the next it handles the next task. */
    ghost predicate Sweeps(states: seq<State>, batch: seq<Task>, scan: Task -> (bool, bool), counted: bool) {
      && |states| <= |batch| + 1
      && forall i | 0 <= i < |states| - 1 :: SweptOne(states[i], states[i + 1], batch[i..], scan(batch[i]), counted)
    }

    /** One task of the sweep's batch, as a stretch of a run. */
    method SweepNext(task: Task, scanned: (bool, bool), counted: bool, now: int, ghost s: State, ghost rest: seq<Task>)
      returns (ghost more: seq<Step>)
      requires Valid() && Shows(s) && rest != [] && s.sweeper == Sweeper(rest, Sweeping) && rest[0] == task
      requires s.world.now == now && (task.logQueueFailed || NotInQueue(task.status))
      modifies conn, pending, running, log
      ensures CanRun(s, more) && Shows(Run(s, more)) && SweptOne(s, Run(s, more), rest, scanned, counted)
      ensures Run(s, more).sweeper == Sweeper(rest[1..], Sweeping) && Run(s, more).world == s.world
    {
      SweepTask(task, scanned.0, scanned.1, counted, now, s);
      more := SweepSteps(s, scanned.0, scanned.1, counted);
    }

    method FetchBatch() returns (tasks: seq<Task>)
      ensures IsSelection(conn.db, tasks) && forall t | t in tasks :: t.logQueueFailed || NotInQueue(t.status)
    {
      tasks := FetchNotInQueueTasks(conn);
    }

    /** One pass of the sweep: fetch, then every task of the batch. */
    method SweepPass(scan: Task -> (bool, bool), counted: bool, now: int, ghost s: State)
      returns (ghost steps: seq<Step>, ghost states: seq<State>)
      requires Valid() && Shows(s) && s.sweeper == Sweeper([], Sweeping) && s.world.now == now
      modifies conn, pending, running, log
      ensures CanRun(s, steps) && Shows(Run(s, steps))
      ensures steps != [] && steps[0].Sweep? && steps[0].sweep.Fetch? && IsSelection(old(conn.db), steps[0].sweep.batch)
      ensures Run(s, steps).sweeper == Sweeper([], Sweeping)
      ensures Sweeps(states, steps[0].sweep.batch, scan, counted) && |states| == |steps[0].sweep.batch| + 1
      ensures states[0] == Apply(s, steps[0]) && states[|states| - 1] == Run(s, steps)
    {
      var tasks := FetchBatch();
      steps := [Sweep(Fetch(tasks))];
      RunOne(s, steps[0]);
      ghost var cur := Run(s, steps);
      ghost var first := cur;
      states := [cur];
      for i := 0 to |tasks|
        invariant CanRun(s, steps) && Run(s, steps) == cur && Shows(cur)
        invariant |steps| > 0 && steps[0] == Sweep(Fetch(tasks))
        invariant |states| == i + 1 && states[0] == first && states[i] == cur
        invariant Sweeps(states, tasks, scan, counted)
        invariant cur.sweeper == Sweeper(tasks[i..], Sweeping) && cur.world.now == now
      {
        assert tasks[i] in tasks;
        ghost var more := SweepNext(tasks[i], scan(tasks[i]), counted, now, cur, tasks[i..]);
        RunAppend(s, steps, more);
        steps := steps + more;
        cur := Run(cur, more);
        states := states + [cur];
      }
    }

    // -------------------------------------------------------------- the pending handler

    lemma MoveOne(a: seq<Task>, b: seq<Task>, n: nat)
      requires 1 <= n <= |b|
      ensures a + b[..n] == a + b[..n - 1] + [b[n - 1]]
      ensures b[n - 1..][0] == b[n - 1] && b[n - 1..][1..] == b[n..]
    {
    }

    ghost function Takes(n: nat): seq<Step> {
      seq(n, _ => Pend(TakePending))
    }

    lemma {:induction false} TakeMany(s: State, n: nat)
      requires n <= s.pender.quota && n <= |s.ch.pending|
      ensures CanRun(s, Takes(n))
      ensures Run(s, Takes(n)) == s.(pender := s.pender.(batch := s.pender.batch + s.ch.pending[..n],
                                                         quota := s.pender.quota - n),
                                     ch := s.ch.(pending := s.ch.pending[n..]))
    {
      if n == 0 {
        assert s.pender.batch + s.ch.pending[..n] == s.pender.batch;
      } else {
        TakeMany(s, n - 1);
        assert Takes(n) == Takes(n - 1) + [Pend(TakePending)];
        RunSnoc(s, Takes(n - 1), Pend(TakePending));
        MoveOne(s.pender.batch, s.ch.pending, n);
      }
    }

    /** How many tasks a poll may take: the machines not occupied by unreported tasks. */
    ghost function Quota(s: State, read: bool): nat {
      var unreported := if read then |UnreportedIds(s.world.sandbox)| else 0;
      if unreported >= MAX_FREE_VMS then 0 else MAX_FREE_VMS - unreported
    }

    ghost function PollSteps(s: State, read: bool): seq<Step> {
      var quota := Quota(s, read);
      var n := if quota < |s.ch.pending| then quota else |s.ch.pending|;
      [Pend(Poll(read))] + Takes(n) + if n < quota then [Pend(CloseBatch)] else []
    }

    lemma PollTakes(s: State, read: bool, n: nat)
      requires s.pender.quota == 0 && s.pender.batch == []
      requires n <= Quota(s, read) && n <= |s.ch.pending|
      ensures CanRun(s, [Pend(Poll(read))] + Takes(n))
      ensures var s' := Run(s, [Pend(Poll(read))] + Takes(n));
              && s'.db == s.db && s'.ch == s.ch.(pending := s.ch.pending[n..])
              && s'.pender == s.pender.(batch := s.ch.pending[..n], quota := Quota(s, read) - n)
    {
      RunOne(s, Pend(Poll(read)));
      TakeMany(Apply(s, Pend(Poll(read))), n);
      RunAppend(s, [Pend(Poll(read))], Takes(n));
      assert [] + s.ch.pending[..n] == s.ch.pending[..n];
    }

    lemma PollRuns(s: State, read: bool)
      requires s.pender.quota == 0 && s.pender.batch == []
      ensures CanRun(s, PollSteps(s, read))
      ensures var n := if Quota(s, read) < |s.ch.pending| then Quota(s, read) else |s.ch.pending|;
              var s' := Run(s, PollSteps(s, read));
              s'.db == s.db && s'.ch == s.ch.(pending := s.ch.pending[n..])
              && s'.pender == s.pender.(batch := s.ch.pending[..n])
    {
      var n := if Quota(s, read) < |s.ch.pending| then Quota(s, read) else |s.ch.pending|;
      var steps := [Pend(Poll(read))] + Takes(n);
      PollTakes(s, read, n);
      if n < Quota(s, read) {
        RunSnoc(s, steps, Pend(CloseBatch));
      } else {
        assert steps + [] == steps;
      }
    }

    /** Ask the sandbox how much it has to do and take as many tasks as it has room for. */
    method PollAndFetch(listing: Option<seq<Listed>>, ghost s: State) returns (tasks: seq<Task>)
      requires Valid() && Shows(s) && s.pender.quota == 0 && s.pender.batch == []
      requires listing.Some? ==> Lists(listing.value, s.world.sandbox)
      modifies pending
      ensures CanRun(s, PollSteps(s, listing.Some?)) && Shows(Run(s, PollSteps(s, listing.Some?)))
      ensures Run(s, PollSteps(s, listing.Some?)).pender.batch == tasks
      ensures old(pending.items) == tasks + pending.items
      ensures var busy := if listing.Some? then |UnreportedIds(s.world.sandbox)| else 0;
              var free := if busy < 5 then 5 - busy else 0;
              |tasks| == if free < |old(pending.items)| then free else |old(pending.items)|
    {
      PollRuns(s, listing.Some?);
      var freeVms := MAX_FREE_VMS;
      var notReported := FetchSandboxTaskCountWhichAreNotReported(listing, s.world.sandbox);
      if notReported >= freeVms {
        return [];
      }
      freeVms := freeVms - notReported;
      tasks := pending.Fetch(freeVms);
      assert s.ch.pending == tasks + pending.items;
    }

    /** An expired task is aborted; any other is handed to a goroutine. */
    method StartTask(task: Task, timeout: int, now: int, ghost s: State) returns (spawn: bool)
      requires Valid() && Shows(s) && s.pender.batch != [] && s.pender.batch[0] == task && s.world.now == now
      requires PendingEnabled(s, Start(timeout, Room(s.ch.log)))
      modifies conn, log
      ensures spawn <==> task.queueRetries < 3 && now <= task.submittedTime + timeout
      ensures spawn ==> Sends([])
      ensures !spawn && |old(log.items)| < 5000 ==> Sends([task.(status := Aborted)])
      ensures Shows(PendingApply(s, Start(timeout, Room(s.ch.log))))
      ensures spawn ==> task in PendingApply(s, Start(timeout, Room(s.ch.log))).pender.sending
    {
      if task.queueRetries >= QUEUE_MAX_RETRIES || task.submittedTime + timeout < now {
        ChangeStatusAndPushToLogQueue(task, Aborted, s.(pender := s.pender.(batch := s.pender.batch[1..])));
        return false;
      }
      return true;
    }

    // -------------------------------------------------------------- a goroutine

    /** What a goroutine does with a failed send. */
    method RouteFailed(task: Task, ghost s: State)
      requires Valid() && Shows(s) && PendingEnabled(s, RouteFailure(task, Room(s.ch.pending), Room(s.ch.log)))
      modifies conn, pending, log
      ensures Shows(PendingApply(s, RouteFailure(task, Room(s.ch.pending), Room(s.ch.log))))
      ensures task.sandboxRetries >= 4 || |old(pending.items)| >= 5000 ==> pending.items == old(pending.items)
      ensures task.sandboxRetries >= 4 && |old(log.items)| < 5000 ==>
                Sends([task.(sandboxRetries := task.sandboxRetries + 1, status := Aborted)])
      ensures task.sandboxRetries < 4 && |old(pending.items)| < 5000 ==>
                Sends([]) && pending.items == old(pending.items)
                                              + [task.(sandboxRetries := task.sandboxRetries + 1)]
      ensures task.sandboxRetries < 4 && |old(pending.items)| >= 5000 ==>
                var t := task.(sandboxRetries := task.sandboxRetries + 1, queueRetries := task.queueRetries + 1,
                               status := if task.queueRetries >= 2 then Aborted else PendingNotInQueue);
                if |old(log.items)| < 5000 then Sends([t])
                else log.items == old(log.items) &&
                     conn.db == SetRow(old(conn.db), t.(status := if t.status == Aborted then task.status else t.status,
                                                        logQueueFailed := true))
    {
      ghost var landed := Land(s, SendFailed(task));
      ghost var route := RouteOf(task, Room(s.ch.pending));
      var t := task.(sandboxRetries := task.sandboxRetries + 1);
      if t.sandboxRetries >= SANDBOX_MAX_RETRIES {
        assert route == GiveUp(t);
        ChangeStatusAndPushToLogQueue(t, Aborted, landed);
        return;
      }
      var requeued := pending.Push(t, t.status);
      if requeued {
        assert route == Requeue(t);
        return;
      }
      t := t.(queueRetries := t.queueRetries + 1);
      if t.queueRetries >= QUEUE_MAX_RETRIES {
        assert route == GiveUp(t);
        ChangeStatusAndPushToLogQueue(t, Aborted, landed);
      } else {
        assert route == SendBack(t);
        var pushed := log.Push(t, PendingNotInQueue);
        if !pushed {
          UpdateLiveTask(conn, t.(status := PendingNotInQueue, logQueueFailed := true));
        }
      }
    }

    ghost function RouteSteps(s: State, task: Task): seq<Step> {
      var queued := Room(s.ch.running);
      [Pend(RouteCreated(task, queued)),
       Pend(RouteStatus(if queued then Queued(task) else Refused(task), Room(s.ch.log)))]
    }

    lemma RouteRuns(s: State, task: Task)
      requires Created(task) in s.pender.returned
      ensures CanRun(s, RouteSteps(s, task))
      ensures var queued := Room(s.ch.running);
              var landed := Land(s, Created(task));
              Run(s, RouteSteps(s, task)) ==
              Post(if queued then landed.(ch := s.ch.(running := s.ch.running + [task])) else landed, task,
                   if queued then RunningInQueue else RunningNotInQueue, Room(s.ch.log))
    {
      var queued := Room(s.ch.running);
      var f := if queued then Queued(task) else Refused(task);
      var a := Pend(RouteCreated(task, queued));
      var s' := Apply(s, a);
      assert s'.pender.returned - multiset{f} == s.pender.returned - multiset{Created(task)};
      RunTwo(s, a, Pend(RouteStatus(f, Room(s.ch.log))));
    }

    /** What a goroutine does with an accepted task: into the running queue first, then the status message. */
    method RouteAccepted(task: Task, ghost s: State)
      requires Valid() && Shows(s) && Created(task) in s.pender.returned
      modifies conn, running, log
      ensures CanRun(s, RouteSteps(s, task)) && Shows(Run(s, RouteSteps(s, task)))
      ensures running.items == if |old(running.items)| < 5000 then old(running.items) + [task] else old(running.items)
      ensures |old(log.items)| < 5000 ==>
                Sends([task.(status := if |old(running.items)| < 5000 then RunningInQueue else RunningNotInQueue)])
    {
      RouteRuns(s, task);
      ghost var landed := Land(s, Created(task));
      var queued := running.Push(task, task.status);
      if queued {
        ChangeStatusAndPushToLogQueue(task, RunningInQueue, landed.(ch := s.ch.(running := s.ch.running + [task])));
      } else {
        ChangeStatusAndPushToLogQueue(task, RunningNotInQueue, landed);
      }
    }

    /** The whole goroutine, against the mock sandbox. */
    method SendTask(task: Task, client: MockCuckooClient, failing: bool, now: int, ghost s: State)
      returns (ghost steps: seq<Step>)
      requires Valid() && Shows(s) && task in s.pender.sending && s.world.now == now
      requires client.Valid() && s.world.sandbox == client.View() && s.world.nextId == client.nextId
      modifies conn, pending, running, log, client
      ensures CanRun(s, steps) && Shows(Run(s, steps))
      ensures failing ==> steps == [Pend(Send(task, false)),
                                    Pend(RouteFailure(task, Room(s.ch.pending), Room(s.ch.log)))]
      ensures !failing ==>
                var t := task.(sandboxId := old(client.nextId), runningStartedAt := now);
                steps == [Pend(Send(task, true))] + RouteSteps(PendingApply(s, Send(task, true)), t)
      ensures client.Valid()
      ensures Run(s, steps).world == s.world.(sandbox := client.View(), nextId := client.nextId)
      ensures !failing && |old(running.items)| < 5000 ==>
                running.items == old(running.items)
                                 + [task.(sandboxId := old(client.nextId), runningStartedAt := now)]
    {
      ghost var sent := Apply(s, Pend(Send(task, !failing)));
      var sandboxId := client.CreateTaskFile(now, failing);
      assert Shows(sent);
      if sandboxId <= 0 {
        RouteFailed(task, sent);
        steps := FailedRun(s, task);
      } else {
        var t := task.(sandboxId := sandboxId, runningStartedAt := now);
        RouteAccepted(t, sent);
        steps := AcceptedRun(s, sent, task, t);
      }
    }

    lemma FailedRun(s: State, task: Task) returns (steps: seq<Step>)
      requires PendingEnabled(s, Send(task, false))
      ensures CanRun(s, steps)
      ensures steps == [Pend(Send(task, false)), Pend(RouteFailure(task, Room(s.ch.pending), Room(s.ch.log)))]
      ensures var sent := PendingApply(s, Send(task, false));
              Run(s, steps) == PendingApply(sent, RouteFailure(task, Room(s.ch.pending), Room(s.ch.log)))
      ensures Run(s, steps).world == s.world
    {
      var send := Pend(Send(task, false));
      var route := Pend(RouteFailure(task, Room(s.ch.pending), Room(s.ch.log)));
      RunTwo(s, send, route);
      FailureKeepsWorld(Apply(s, send), task, Room(s.ch.pending), Room(s.ch.log));
      steps := [send, route];
    }

    lemma AcceptedRun(s: State, sent: State, task: Task, t: Task) returns (steps: seq<Step>)
      requires PendingEnabled(s, Send(task, true)) && sent == PendingApply(s, Send(task, true))
      requires Created(t) in sent.pender.returned && CanRun(sent, RouteSteps(sent, t))
      ensures steps == [Pend(Send(task, true))] + RouteSteps(sent, t) && CanRun(s, steps)
      ensures Run(s, steps) == Run(sent, RouteSteps(sent, t)) && Run(s, steps).world == sent.world
    {
      var send := Pend(Send(task, true));
      RunOne(s, send);
      RouteRuns(sent, t);
      RunAppend(s, [send], RouteSteps(sent, t));
      steps := [send] + RouteSteps(sent, t);
    }

    lemma FailureKeepsWorld(s: State, task: Task, requeued: bool, pushed: bool)
      requires PendingEnabled(s, RouteFailure(task, requeued, pushed))
      ensures PendingApply(s, RouteFailure(task, requeued, pushed)).world == s.world
    {
      var route := RouteOf(task, requeued);
      assert route.GiveUp? || route.Requeue? || route.SendBack?;
    }

    // -------------------------------------------------------------- the running handler

    ghost function CheckSteps(s: State, timeout: int): seq<Step>
      requires RunningEnabled(s, Check(timeout, Room(s.ch.log)))
    {
      var check := Check(timeout, Room(s.ch.log));
      var s' := RunningApply(s, check);
      [Watch(check)] + if s'.runner.owed.Some? then [Watch(Owe(Room(s'.ch.log)))] else []
    }

    lemma CheckTakesOne(s: State, check: RunningStep)
      requires check.Check? && RunningEnabled(s, check)
      ensures var s' := RunningApply(s, check);
              && s'.world == s.world
              && s'.runner == s.runner.(batch := s.runner.batch[1..], owed := s'.runner.owed)
    {
    }

    /** What a check leads to, the second message of an exhausted task included. */
    ghost function Concluded(s: State, t: Task, decision: RunningVerdict): State {
      if decision.Exhausted? then
        var once := Post(s, Retried(t), Aborted, Room(s.ch.log));
        Post(once, Retried(t), RunningNotInQueue, Room(once.ch.log))
      else Decided(s, t, decision, Room(s.ch.log))
    }

    ghost function HeadGone(s: State): State
      requires s.runner.batch != []
    {
      s.(runner := s.runner.(batch := s.runner.batch[1..]))
    }

    lemma CheckConcludes(s: State, timeout: int)
      requires RunningEnabled(s, Check(timeout, Room(s.ch.log)))
      ensures var s' := RunningApply(s, Check(timeout, Room(s.ch.log)));
              Concluded(HeadGone(s), s.runner.batch[0],
                        CheckTask(s.runner.batch[0], s.runner.snapshot, timeout, s.world.now)) ==
              if s'.runner.owed.Some? then RunningApply(s', Owe(Room(s'.ch.log))) else s'
    {
    }

    lemma CheckRuns(s: State, timeout: int)
      requires RunningEnabled(s, Check(timeout, Room(s.ch.log)))
      ensures CanRun(s, CheckSteps(s, timeout))
      ensures Run(s, CheckSteps(s, timeout)) ==
              Concluded(HeadGone(s), s.runner.batch[0],
                        CheckTask(s.runner.batch[0], s.runner.snapshot, timeout, s.world.now))
      ensures Run(s, CheckSteps(s, timeout)).runner == s.runner.(batch := s.runner.batch[1..], owed := None)
      ensures Run(s, CheckSteps(s, timeout)).world == s.world
    {
      var check := Check(timeout, Room(s.ch.log));
      var s' := RunningApply(s, check);
      CheckTakesOne(s, check);
      CheckConcludes(s, timeout);
      RunOne(s, Watch(check));
      if s'.runner.owed.Some? {
        RunTwo(s, Watch(check), Watch(Owe(Room(s'.ch.log))));
        assert CheckSteps(s, timeout) == [Watch(check), Watch(Owe(Room(s'.ch.log)))];
      } else {
        assert CheckSteps(s, timeout) == [Watch(check)];
      }
    }

    /** One task of the running handler, compared with the last sandbox listing. */
    method CheckRunningTask(task: Task, index: map<int, SandboxStatus>, timeout: int, now: int, ghost s: State)
      requires Valid() && Shows(s) && s.runner.batch != [] && s.runner.batch[0] == task && s.runner.owed.None?
      requires index == s.runner.snapshot && now == s.world.now
      modifies conn, running, log
      ensures CanRun(s, CheckSteps(s, timeout)) && Shows(Run(s, CheckSteps(s, timeout)))
      ensures Run(s, CheckSteps(s, timeout)).runner == s.runner.(batch := s.runner.batch[1..], owed := None)
      ensures Run(s, CheckSteps(s, timeout)).world == s.world
      ensures task.runningRetries >= 5 && |old(log.items)| < 5000 ==> Sends([task.(status := Aborted)])
      ensures task.runningRetries < 5 && task.sandboxId in index && |old(log.items)| < 5000 ==>
                match index[task.sandboxId]
                case SbReported => Sends([task.(status := Reported)])
                case SbPending | SbRunning | SbCompleted =>
                  if now > task.runningStartedAt + timeout then Sends([task.(status := Aborted)])
                  else Sends(if |old(running.items)| < 5000 then [] else [task.(status := RunningNotInQueue)])
                case SbFailedAnalysis | SbOther => Sends([task.(status := Aborted)])
      ensures task.runningRetries < 5 && task.sandboxId !in index && |old(log.items)| + 1 < 5000 ==>
                var t := task.(runningRetries := task.runningRetries + 1);
                Sends((if t.runningRetries == 5 then [t.(status := Aborted)] else [])
                      + [t.(status := RunningNotInQueue)])
      ensures var waits := task.runningRetries < 5 && task.sandboxId in index
                           && index[task.sandboxId] in {SbPending, SbRunning, SbCompleted}
                           && now <= task.runningStartedAt + timeout;
              running.items == if waits && |old(running.items)| < 5000 then old(running.items) + [task]
                               else old(running.items)
    {
      CheckRuns(s, timeout);
      ghost var s' := HeadGone(s);
      ghost var decision := CheckTask(task, index, timeout, now);
      if task.runningRetries >= RUNNING_MAX_RETRIES {
        ChangeStatusAndPushToLogQueue(task, Aborted, s');
      } else if task.sandboxId !in index {
        var t := Retried(task);
        if t.runningRetries >= RUNNING_MAX_RETRIES {
          assert decision == Exhausted;
          ChangeStatusAndPushToLogQueue(t, Aborted, s');
          s' := Post(s', t, Aborted, Room(s.ch.log));
        } else {
          assert decision == Lost;
        }
        ChangeStatusAndPushToLogQueue(t, RunningNotInQueue, s');
      } else {
        var status := index[task.sandboxId];
        if status == SbReported {
          assert decision == Finish(Reported);
          ChangeStatusAndPushToLogQueue(task, Reported, s');
        } else if status == SbRunning || status == SbCompleted || status == SbPending {
          if now - task.runningStartedAt > timeout {
            ChangeStatusAndPushToLogQueue(task, Aborted, s');
          } else {
            assert decision == KeepWaiting;
            var requeued := running.Push(task, task.status);
            if !requeued {
              ChangeStatusAndPushToLogQueue(task, RunningNotInQueue, s');
            }
          }
        } else {
          ChangeStatusAndPushToLogQueue(task, Aborted, s');
        }
      }
    }

    ghost function RunningTakes(n: nat): seq<Step> {
      seq(n, _ => Watch(TakeRunning))
    }

    lemma {:induction false} TakeManyRunning(s: State, n: nat)
      requires n <= |s.ch.running|
      ensures CanRun(s, RunningTakes(n))
      ensures Run(s, RunningTakes(n)) == s.(runner := s.runner.(batch := s.runner.batch + s.ch.running[..n]),
                                            ch := s.ch.(running := s.ch.running[n..]))
    {
      if n == 0 {
        assert s.runner.batch + s.ch.running[..n] == s.runner.batch;
      } else {
        TakeManyRunning(s, n - 1);
        assert RunningTakes(n) == RunningTakes(n - 1) + [Watch(TakeRunning)];
        RunSnoc(s, RunningTakes(n - 1), Watch(TakeRunning));
        MoveOne(s.runner.batch, s.ch.running, n);
      }
    }

    lemma ListAndTake(s: State)
      requires s.runner.batch == [] && s.runner.owed.None?
      ensures var steps := [Watch(List)] + RunningTakes(|s.ch.running|);
              && CanRun(s, steps)
              && Run(s, steps) == s.(runner := Runner(s.ch.running, s.world.sandbox, None), ch := s.ch.(running := []))
    {
      RunOne(s, Watch(List));
      var listed := Apply(s, Watch(List));
      TakeManyRunning(listed, |s.ch.running|);
      RunAppend(s, [Watch(List)], RunningTakes(|s.ch.running|));
      assert [] + s.ch.running[..|s.ch.running|] == s.ch.running;
    }

    /** The running handler checks the task at the head of what is left of its batch. */
    ghost predicate CheckedOne(s: State, s': State, rest: seq<Task>, timeout: int) {
      && rest != [] && s.runner.batch == rest && s.runner.owed.None?
      && CanRun(s, CheckSteps(s, timeout)) && s' == Run(s, CheckSteps(s, timeout))
    }

    /** From each of these states to the next it checks the next task. */
    ghost predicate Checks(states: seq<State>, batch: seq<Task>, timeout: int) {
      && |states| <= |batch| + 1
      && forall i | 0 <= i < |states| - 1 :: CheckedOne(states[i], states[i + 1], batch[i..], timeout)
    }

    /** One pass of the running handler: list the sandbox, take the whole queue, check every task. */
    method RunningPass(listing: seq<Listed>, timeout: int, now: int, ghost s: State)
      returns (ghost steps: seq<Step>, ghost states: seq<State>)
      requires Valid() && Shows(s) && s.runner.batch == [] && s.runner.owed.None?
      requires Lists(listing, s.world.sandbox) && s.world.now == now
      modifies conn, running, log
      ensures CanRun(s, steps) && Shows(Run(s, steps))
      ensures [Watch(List)] + RunningTakes(|s.ch.running|) <= steps
      ensures Run(s, steps).runner == Runner([], s.world.sandbox, None)
      ensures Checks(states, s.ch.running, timeout) && |states| == |s.ch.running| + 1
      ensures states[0] == s.(runner := Runner(s.ch.running, s.world.sandbox, None), ch := s.ch.(running := []))
      ensures states[|states| - 1] == Run(s, steps)
    {
      var index := IndexListing(listing, s.world.sandbox);
      var tasks := running.Fetch(-1);
      assert tasks == s.ch.running;
      ListAndTake(s);
      ghost var front := [Watch(List)] + RunningTakes(|tasks|);
      steps := front;
      ghost var cur := Run(s, steps);
      ghost var first := cur;
      states := [cur];
      for i := 0 to |tasks|
        invariant CanRun(s, steps) && Run(s, steps) == cur && Shows(cur) && front <= steps
        invariant |states| == i + 1 && states[0] == first && states[i] == cur && Checks(states, tasks, timeout)
        invariant cur.runner == Runner(tasks[i..], index, None) && cur.world == s.world
      {
        CheckRunningTask(tasks[i], index, timeout, now, cur);
        ghost var more := CheckSteps(cur, timeout);
        RunAppend(s, steps, more);
        assert CheckedOne(cur, Run(cur, more), tasks[i..], timeout);
        steps := steps + more;
        cur := Run(cur, more);
        states := states + [cur];
      }
    }

    // -------------------------------------------------------------- the log handler

    ghost function LogSteps(task: Task, score: real, ids: seq<int>, next: Option<int>): seq<Step> {
      if ReportStatus(task.status) then [Log(ReadReport(score, ids)), Log(Commit)]
      else if task.status.Aborted? then [Log(ReadAbort(next)), Log(Commit)]
      else [Log(ApplyStatus)]
    }

    lemma LogRuns(s: State, task: Task, score: real, ids: seq<int>, next: Option<int>)
      requires s.logger.phase.Listening? && s.logger.batch != [] && s.logger.batch[0] == task
      requires ReportStatus(task.status) ==> LogEnabled(s, ReadReport(score, ids))
      requires task.status.Aborted? ==> LogEnabled(s, ReadAbort(next))
      ensures CanRun(s, LogSteps(task, score, ids, next))
      ensures Run(s, LogSteps(task, score, ids, next)) ==
              s.(logger := Logger(s.logger.batch[1..], Listening),
                 db := if ReportStatus(task.status) then FinishReport(s.db, task, score, ids)
                       else if task.status.Aborted? then FinishAbort(s.db, task, next)
                       else if task.status.SandboxApiTimeout? then s.db else SetRow(s.db, task))
    {
      if ReportStatus(task.status) {
        RunTwo(s, Log(ReadReport(score, ids)), Log(Commit));
      } else if task.status.Aborted? {
        RunTwo(s, Log(ReadAbort(next)), Log(Commit));
      } else {
        RunOne(s, Log(ApplyStatus));
      }
    }

    /** The row of a submission after a decision with this score. */
    predicate DecidedWith(before: Fod, after: Fod, score: real) {
      after == before.(score := score, rating := after.rating, verdict := if score == 0.0 then Allow else Block)
      && after.rating == RatingOf(score)
    }

    /** Another submission in the class of the task: a duplicate that agrees in one column. */
    predicate Follows(db: Db, task: Task, id: int) {
      id in db.dups && (db.dups[id].md5 == task.hashes.md5 || db.dups[id].sha == task.hashes.sha
                        || db.dups[id].sha256 == task.hashes.sha256)
    }

    /**
     What a report leaves: the task and its duplicates are decided with the score and finished, in the task's order
     and with its sandbox id, and nothing else changes.
     */
    ghost predicate Closed(db: Db, db': Db, task: Task, score: real) {
      && db'.fods.Keys == db.fods.Keys && db'.live == db.live - {task.id}
      && (forall id | id in db.fods ::
            if id == task.id || Follows(db, task, id) then DecidedWith(db.fods[id], db'.fods[id], score)
            else db'.fods[id] == db.fods[id])
      && (forall id :: id in db'.dups <==> id in db.dups && !Follows(db, task, id))
      && (forall id | id in db'.dups :: db'.dups[id] == db.dups[id])
      && |db'.finished| > |db.finished| && db.finished <= db'.finished
      && db'.finished[|db.finished|] == Finished(task.id, task.sandboxId, false)
      && var added := db'.finished[|db.finished| + 1..];
      && (forall id :: Finished(id, task.sandboxId, false) in added <==> Follows(db, task, id))
      && forall f | f in added :: f == Finished(f.id, task.sandboxId, false)
    }

    /** What an abort leaves: the task is decided with score 0, and its first duplicate is live without hashes. */
    ghost predicate GivenUp(db: Db, db': Db, task: Task, next: Option<int>) {
      && db'.fods.Keys == db.fods.Keys
      && (forall id | id in db.fods ::
            if id == task.id then DecidedWith(db.fods[id], db'.fods[id], 0.0) else db'.fods[id] == db.fods[id])
      && (next.None? <==> forall id :: !Follows(db, task, id))
      && (next.Some? ==> Follows(db, task, next.value) && forall id | Follows(db, task, id) :: next.value <= id)
      && db'.live == (if next.None? then db.live - {task.id}
                      else (db.live - {task.id})[next.value := LiveRow(PendingNotInQueue, 0, 0, 0, 0, false, None)])
      && db'.dups == (if next.None? then db.dups else db.dups - {next.value})
      && db'.finished == db.finished + [Finished(task.id, task.sandboxId, true)]
    }

    /** What one message makes of the tables. */
    ghost predicate Processed(db: Db, db': Db, task: Task, report: Option<real>) {
      match task.status
      case Reported => Closed(db, db', task, if report.Some? then report.value else 0.0)
      case ReportedThroughClamd | ReportedThroughQuickScope => Closed(db, db', task, 3.5)
      case Aborted => exists next :: GivenUp(db, db', task, next)
      case SandboxApiTimeout => db' == db
      case _ => db' == SetRow(db, task)
    }

    lemma ReportCloses(db: Db, task: Task, score: real, ids: seq<int>)
      requires Enumerates(ids, MatchingDups(db, task.hashes))
      ensures Closed(db, FinishReport(db, task, score, ids), task, score)
    {
      var db' := FinishReport(db, task, score, ids);
      assert forall id :: id in ids <==> id in Ids(ids);
      assert forall id :: id in ids <==> Follows(db, task, id);
      var rows := FinishedRows(ids, task.sandboxId);
      assert db'.finished == db.finished + ([Finished(task.id, task.sandboxId, false)] + rows);
      assert db'.finished[|db.finished| + 1..] == rows;
      forall id | id in ids ensures Finished(id, task.sandboxId, false) in rows {
        var i :| 0 <= i < |ids| && ids[i] == id;
        assert rows[i] == Finished(id, task.sandboxId, false);
      }
    }

    lemma AbortGivesUp(db: Db, task: Task, next: Option<int>)
      requires IsSmallest(next, MatchingDups(db, task.hashes))
      ensures GivenUp(db, FinishAbort(db, task, next), task, next)
    {
      assert forall id :: Follows(db, task, id) <==> id in MatchingDups(db, task.hashes);
    }

    /** A task is finished with its duplicates, or aborted, or its row is written; one transaction each. */
    method ProcessLogQueueTask(task: Task, report: Option<real>, ghost s: State)
      returns (ghost score: real, ghost ids: seq<int>, ghost next: Option<int>)
      requires Valid() && Shows(s)
      requires s.logger.phase.Listening? && s.logger.batch != [] && s.logger.batch[0] == task
      modifies conn
      ensures task.status.Reported? ==> score == if report.Some? then report.value else 0.0
      ensures Processed(old(conn.db), conn.db, task, report)
      ensures task.status.ReportedThroughClamd? || task.status.ReportedThroughQuickScope? ==>
                forall id | id in conn.db.fods && (id == task.id || Follows(old(conn.db), task, id)) ::
                  conn.db.fods[id].score == 3.5 && conn.db.fods[id].rating == MediumRisk
                  && conn.db.fods[id].verdict == Block
      ensures CanRun(s, LogSteps(task, score, ids, next)) && Shows(Run(s, LogSteps(task, score, ids, next)))
      ensures Run(s, LogSteps(task, score, ids, next)).logger == Logger(s.logger.batch[1..], Listening)
    {
      score, ids, next := 0.0, [], None;
      if task.status.SandboxApiTimeout? {
        LogRuns(s, task, score, ids, next);
      } else if ReportStatus(task.status) {
        var points := if !task.status.Reported? then MALICIOUS_SCORE else if report.Some? then report.value else 0.0;
        var queries := [DecideFod(task.id, points)] + MoveToFinished(task, false);
        var duplicates := SelectDuplicates(conn, task.hashes);
        var more := BuildDuplicatesForReported(task, points, duplicates);
        queries := queries + more;
        ReportOutcome(conn.db, task, points, duplicates);
        var ok := conn.ExecQuery(queries);
        score, ids := points, duplicates;
        ReportCloses(old(conn.db), task, points, duplicates);
        LogRuns(s, task, score, ids, next);
      } else if task.status.Aborted? {
        var queries := [DecideFod(task.id, 0.0)] + MoveToFinished(task, true);
        var first := SelectFirstDuplicate(conn, task.hashes);
        queries := queries + DuplicatesForAborted(first);
        AbortOutcome(conn.db, task, first);
        var ok := conn.ExecQuery(queries);
        next := first;
        AbortGivesUp(old(conn.db), task, first);
        LogRuns(s, task, score, ids, next);
      } else {
        UpdateLiveTask(conn, task);
        LogRuns(s, task, score, ids, next);
      }
    }

    ghost function LogTakes(n: nat): seq<Step> {
      seq(n, _ => Log(TakeLog))
    }

    ghost function WithLogTaken(s: State, n: nat): State
      requires n <= |s.ch.log|
    {
      s.(logger := s.logger.(batch := s.logger.batch + s.ch.log[..n]), ch := s.ch.(log := s.ch.log[n..]))
    }

    lemma TakeOneMoreLog(s: State, n: nat)
      requires 1 <= n <= |s.ch.log| && |s.logger.batch| + n <= LOG_BATCH
      ensures Enabled(WithLogTaken(s, n - 1), Log(TakeLog))
      ensures Apply(WithLogTaken(s, n - 1), Log(TakeLog)) == WithLogTaken(s, n)
    {
      MoveOne(s.logger.batch, s.ch.log, n);
    }

    lemma LogTakesNext(n: nat)
      requires n > 0
      ensures LogTakes(n) == LogTakes(n - 1) + [Log(TakeLog)]
    {
    }

    lemma NoneTaken(s: State)
      ensures WithLogTaken(s, 0) == s
    {
      assert s.logger.batch + s.ch.log[..0] == s.logger.batch && s.ch.log[0..] == s.ch.log;
    }

    lemma {:induction false} TakeManyLog(s: State, n: nat)
      requires n <= |s.ch.log| && |s.logger.batch| + n <= LOG_BATCH
      ensures CanRun(s, LogTakes(n)) && Run(s, LogTakes(n)) == WithLogTaken(s, n)
    {
      if n == 0 {
        assert LogTakes(n) == [];
        NoneTaken(s);
      } else {
        TakeManyLog(s, n - 1);
        TakeOneMoreLog(s, n);
        LogTakesNext(n);
        RunSnoc(s, LogTakes(n - 1), Log(TakeLog));
      }
    }

    method FetchMessages(ghost s: State) returns (tasks: seq<Task>)
      requires Valid() && Shows(s) && s.logger == Logger([], Listening)
      modifies log
      ensures |tasks| == if |s.ch.log| < 20 then |s.ch.log| else 20
      ensures old(log.items) == tasks + log.items
      ensures CanRun(s, LogTakes(|tasks|)) && Shows(Run(s, LogTakes(|tasks|)))
      ensures Run(s, LogTakes(|tasks|)).logger == Logger(tasks, Listening)
    {
      tasks := log.Fetch(LOG_BATCH);
      TakeManyLog(s, |tasks|);
      assert tasks == s.ch.log[..|tasks|] && log.items == s.ch.log[|tasks|..];
      assert [] + s.ch.log[..|tasks|] == tasks;
    }

    /** One message of the batch, as a stretch of a run. */
    method ProcessNext(task: Task, report: Option<real>, ghost s: State, ghost rest: seq<Task>)
      returns (ghost more: seq<Step>)
      requires Valid() && Shows(s) && rest != [] && s.logger == Logger(rest, Listening) && rest[0] == task
      modifies conn
      ensures CanRun(s, more) && Shows(Run(s, more)) && Run(s, more).logger == Logger(rest[1..], Listening)
      ensures Processed(old(conn.db), conn.db, task, report)
    {
      ghost var score, ids, next := ProcessLogQueueTask(task, report, s);
      more := LogSteps(task, score, ids, next);
    }

    /** The tables after each message. */
    ghost predicate Handled(dbs: seq<Db>, messages: seq<Task>, reports: Task -> Option<real>) {
      && |dbs| <= |messages| + 1
      && forall i | 0 <= i < |dbs| - 1 :: Processed(dbs[i], dbs[i + 1], messages[i], reports(messages[i]))
    }

    lemma HandledNext(dbs: seq<Db>, db: Db, messages: seq<Task>, reports: Task -> Option<real>)
      requires Handled(dbs, messages, reports) && 0 < |dbs| <= |messages|
      requires Processed(dbs[|dbs| - 1], db, messages[|dbs| - 1], reports(messages[|dbs| - 1]))
      ensures Handled(dbs + [db], messages, reports)
    {
    }

    lemma HandledMore(dbs: seq<Db>, messages: seq<Task>, more: seq<Task>, reports: Task -> Option<real>)
      requires Handled(dbs, messages, reports)
      ensures Handled(dbs, messages + more, reports)
    {
    }

    /** One pass of the log handler: at most twenty messages, oldest first, each finished before the next. */
    method LogPass(reports: Task -> Option<real>, ghost s: State) returns (ghost steps: seq<Step>, ghost dbs: seq<Db>)
      requires Valid() && Shows(s) && s.logger == Logger([], Listening)
      modifies conn, log
      ensures CanRun(s, steps) && Shows(Run(s, steps))
      ensures LogTakes(if |s.ch.log| < 20 then |s.ch.log| else 20) <= steps
      ensures Run(s, steps).logger == Logger([], Listening)
      ensures log.items == old(log.items)[if |old(log.items)| < 20 then |old(log.items)| else 20..]
      ensures |dbs| == |old(log.items)| - |log.items| + 1 && dbs[0] == old(conn.db) && dbs[|dbs| - 1] == conn.db
      ensures Handled(dbs, old(log.items), reports)
    {
      var tasks := FetchMessages(s);
      ghost var front := LogTakes(|tasks|);
      steps := front;
      ghost var cur := Run(s, steps);
      dbs := [conn.db];
      for i := 0 to |tasks|
        invariant CanRun(s, steps) && Run(s, steps) == cur && Shows(cur) && front <= steps
        invariant cur.logger == Logger(tasks[i..], Listening) && old(log.items) == tasks + log.items
        invariant |dbs| == i + 1 && dbs[0] == old(conn.db) && dbs[i] == conn.db && Handled(dbs, tasks, reports)
      {
        ghost var more := ProcessNext(tasks[i], reports(tasks[i]), cur, tasks[i..]);
        RunAppend(s, steps, more);
        steps := steps + more;
        cur := Run(cur, more);
        HandledNext(dbs, conn.db, tasks, reports);
        dbs := dbs + [conn.db];
      }
      HandledMore(dbs, tasks, log.items, reports);
    }
  }
}
