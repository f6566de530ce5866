/**
 Runs that can go on for ever: a flagged row that is sent back again and again, the copies such a row can leave
 behind, and a task still under analysis that a full running queue gives a new start time each time.
 */
module Endless {
  import opened Records
  import opened Database
  import opened Transactions
  import opened Lookups
  import opened Machine
  import opened Conservation
  import opened HashClasses
  import opened Atomic
  import opened Runs
  import opened Fates
  import opened Safety
  import opened Recovery
  import opened Carriers
  import opened FlagLoop
  import opened Scenes
  import opened Separation

  // ---------------------------------------------------------------- one turn of a flagged row

  /** Nothing moves but what the sweep is about to do for one row, and the log handler waits. */
  ghost predicate Quiet(s: State, id: int) {
    Reachable(s) && Idle(s.sweeper) && Waits(s.logger) && s.ch.log == [] && OnlySelected(s.db, id)
  }

  function WithRow(s: State, id: int, row: LiveRow): State {
    s.(db := s.db.(live := s.db.live[id := row]))
  }

  /** The message that sends the flagged row back. */
  function BackOf(db: Db, id: int): Task
    requires id in db.live && id in db.fods
  {
    Read(db, id).(status := FlaggedStatus(db.live[id].status))
  }

  lemma SentBack(s: State, id: int) returns (s': State)
    requires Quiet(s, id) && s.db.live[id].logQueueFailed
    ensures Reachable(s')
    ensures s' == s.(ch := s.ch.(log := [BackOf(s.db, id)]), sweeper := Sweeper([], Clearing(id)))
    ensures RowStatus(s.db.live[id].status) && !Terminal(BackOf(s.db, id).status)
  {
    ReachableInv(s);
    s' := Fetched(s, id);
    Reach(s', Sweep(Flagged(true)));
    s' := Apply(s', Sweep(Flagged(true)));
  }

  lemma Cleared(s: State, id: int) returns (s': State)
    requires Reachable(s) && s.sweeper == Sweeper([], Clearing(id)) && id in s.db.live
    ensures Reachable(s')
    ensures s' == WithRow(s, id, s.db.live[id].(logQueueFailed := false)).(sweeper := Sweeper([], Sweeping))
  {
    Reach(s, Sweep(Update));
    s' := Apply(s, Sweep(Update));
  }

  /**
   The sweep sends the row back and clears its flag, and the message sets it again. A row already "not in queue" is
   then exactly as before, and so is everything else.
   */
  lemma FlagReturns(s: State, id: int) returns (s': State)
    requires Quiet(s, id) && s.db.live[id].logQueueFailed
    ensures Quiet(s', id) && s' == WithRow(s, id, Settled(s.db.live[id]))
    ensures NotInQueue(s.db.live[id].status) ==> s' == s
  {
    s' := SentBack(s, id);
    s' := Cleared(s', id);
    s' := Applied(s', BackOf(s.db, id));
    assert s'.db.live == s.db.live[id := Settled(s.db.live[id])];
  }

  /** If the message is applied before the flag is cleared, the flag is gone and the task goes on. */
  lemma FlagGoes(s: State, id: int) returns (s': State)
    requires Quiet(s, id) && s.db.live[id].logQueueFailed
    ensures Quiet(s', id) && s' == WithRow(s, id, Settled(s.db.live[id]).(logQueueFailed := false))
  {
    s' := SentBack(s, id);
    s' := Applied(s', BackOf(s.db, id));
    s' := Cleared(s', id);
    assert s'.db.live == s.db.live[id := Settled(s.db.live[id]).(logQueueFailed := false)];
  }

  /** The copy the sweep resumes. */
  function ResumedOf(s: State, id: int): Task
    requires id in s.db.live && id in s.db.fods
  {
    Read(s.db, id).(status := RunningInQueue, logQueueFailed := false, runningStartedAt := s.world.now)
  }

  lemma Resumed(s: State, id: int) returns (s': State)
    requires Reachable(s) && Idle(s.sweeper) && OnlySelected(s.db, id) && Room(s.ch.running)
    requires s.db.live[id].status == RunningNotInQueue && !s.db.live[id].logQueueFailed
    ensures Reachable(s')
    ensures s' == WithRow(s, id, s.db.live[id].(status := RunningInQueue))
                  .(ch := s.ch.(running := s.ch.running + [ResumedOf(s, id)]))
  {
    s' := Fetched(s, id);
    Reach(s', Sweep(Resume(true)));
    s' := Apply(s', Sweep(Resume(true)));
    assert s'.sweeper == Sweeper([], Marking(id, RunningInQueue));
    s' := Marked(s', id, RunningInQueue);
  }

  /**
   If the sweep fetches the row again before the message is applied, it resumes it; the message, applied afterwards,
   makes the row what it was. Nothing is different but one more copy in the running queue.
   */
  lemma FlagMultiplies(s: State, id: int) returns (s': State)
    requires Quiet(s, id) && s.db.live[id].logQueueFailed && s.db.live[id].status == RunningNotInQueue
    requires Room(s.ch.running)
    ensures Quiet(s', id) && s' == s.(ch := s.ch.(running := s.ch.running + [ResumedOf(s, id)]))
  {
    s' := SentBack(s, id);
    s' := Cleared(s', id);
    s' := Resumed(s', id);
    s' := Applied(s', BackOf(s.db, id));
    assert s'.db.live == s.db.live;
  }

  function Copies(n: nat, t: Task): seq<Task> {
    seq(n, _ => t)
  }

  lemma {:induction false} Multiplied(s: State, id: int, n: nat) returns (s': State)
    requires Quiet(s, id) && s.db.live[id].logQueueFailed && s.db.live[id].status == RunningNotInQueue
    requires |s.ch.running| + n <= CAPACITY
    ensures Quiet(s', id)
    ensures s' == s.(ch := s.ch.(running := s.ch.running + Copies(n, ResumedOf(s, id))))
    decreases n
  {
    if n == 0 {
      s' := s;
      assert s.ch.running + Copies(0, ResumedOf(s, id)) == s.ch.running;
    } else {
      s' := Multiplied(s, id, n - 1);
      var more := Copies(n - 1, ResumedOf(s, id));
      assert Copies(n, ResumedOf(s, id)) == more + [ResumedOf(s, id)];
      assert s.ch.running + Copies(n, ResumedOf(s, id)) == s.ch.running + more + [ResumedOf(s, id)];
      s' := FlagMultiplies(s', id);
    }
  }

  // ---------------------------------------------------------------- a flagged row is reached

  /** The task as it was resumed after the running handler had missed it once. */
  function Again(): Task {
    Copy(RunningInQueue).(sandboxId := 1, runningRetries := 1)
  }

  lemma MissedOnce() returns (s: State)
    ensures Quiet(s, 1) && s.ch == Channels([], [], []) && s.pender == IDLE_PENDER && s.runner == IDLE_RUNNER
    ensures s.world == World(map[1 := SbPending], 2, 0, {})
    ensures s.db.fods == map[1 := Submission(H, 0)] && s.db.dups == map[]
    ensures s.db.live == map[1 := LiveIn(RunningNotInQueue).(sandboxId := 1, runningRetries := 1)]
  {
    var t;
    s, t := SentLate();
    s := Marked(s, 1, PendingInQueue);
    s := Scenes.Reported(s, t);
    s := Watching(s, t);
    s := Missing(s, t);
    s := Applied(s, t.(status := RunningInQueue));
    s := Applied(s, Retried(t).(status := RunningNotInQueue));
    assert s.ch.log == [];
  }

  /** It is resumed, listed and taken. */
  lemma WatchedAgain() returns (s: State)
    ensures Reachable(s) && Idle(s.sweeper) && Waits(s.logger) && s.ch == Channels([], [], [])
    ensures s.pender == IDLE_PENDER && s.runner == Runner([Again()], map[1 := SbPending], None)
    ensures s.world == World(map[1 := SbPending], 2, 0, {})
    ensures s.db.fods == map[1 := Submission(H, 0)] && s.db.dups == map[]
    ensures s.db.live == map[1 := LiveIn(RunningInQueue).(sandboxId := 1, runningRetries := 1)]
  {
    s := MissedOnce();
    s := Resumed(s, 1);
    assert s.ch.running == [Again()];
    Reach(s, Watch(List));
    s := Apply(s, Watch(List));
    s := Watching(s, Again());
  }

  /** Another file is submitted. */
  lemma SubmittedMeanwhile() returns (s: State)
    ensures Reachable(s) && Idle(s.sweeper) && Waits(s.logger) && s.ch == Channels([], [], [])
    ensures s.pender == IDLE_PENDER && s.runner == Runner([Again()], map[1 := SbPending], None)
    ensures s.world == World(map[1 := SbPending], 2, 0, {})
    ensures s.db == Db(map[1 := Submission(H, 0), 2 := Submission(OTHER, 0)],
                       map[1 := LiveIn(RunningInQueue).(sandboxId := 1, runningRetries := 1),
                           2 := NewLiveRow(Some(OTHER))], map[], s.db.finished)
  {
    s := WatchedAgain();
    s := OtherSubmitted(s, LiveIn(RunningInQueue).(sandboxId := 1, runningRetries := 1));
  }

  /** The log queue is full of messages about that file, and it is a tick later. */
  lemma FullWhileWatched() returns (s: State)
    ensures Reachable(s) && Idle(s.sweeper) && Waits(s.logger) && s.ch == Channels([], [], Scans(CAPACITY))
    ensures s.pender == IDLE_PENDER && s.runner == Runner([Again()], map[1 := SbPending], None)
    ensures s.world.sandbox == map[1 := SbPending] && s.world.now == 1
    ensures s.db == Db(map[1 := Submission(H, 0), 2 := Submission(OTHER, 0)],
                       map[1 := LiveIn(RunningInQueue).(sandboxId := 1, runningRetries := 1),
                           2 := NewLiveRow(Some(OTHER))], map[], s.db.finished)
  {
    s := SubmittedMeanwhile();
    s := Separation.Filled(s, CAPACITY);
    assert s.ch.log == Scans(CAPACITY);
    Reach(s, Outside(Tick(1)));
    s := Apply(s, Outside(Tick(1)));
  }

  /** The row while it is flagged, once it is "not in queue". */
  function FlaggedRow(): LiveRow {
    LiveIn(RunningNotInQueue).(sandboxId := 1, runningRetries := 1, logQueueFailed := true)
  }

  lemma GivenUp() returns (s: State)
    ensures Reachable(s) && Idle(s.sweeper) && Waits(s.logger) && s.ch == Channels([], [], Scans(CAPACITY))
    ensures s.pender == IDLE_PENDER && s.runner == Runner([], map[1 := SbPending], None)
    ensures s.world.sandbox == map[1 := SbPending] && s.world.now == 1
    ensures s.db == Db(map[1 := Submission(H, 0), 2 := Submission(OTHER, 0)],
                       map[1 := FlaggedRow().(status := RunningInQueue), 2 := NewLiveRow(Some(OTHER))], map[],
                       s.db.finished)
  {
    s := FullWhileWatched();
    Reach(s, Watch(Check(0, false)));
    s := Apply(s, Watch(Check(0, false)));
    assert s.db.live[1] == FlaggedRow().(status := RunningInQueue);
  }

  /** The task times out, and its last message is lost: the row is flagged, and there is no copy left. */
  lemma FlaggedRun() returns (s: State)
    ensures Reachable(s) && InLoop(s, 1, FlaggedRow())
    ensures Idle(s.sweeper) && Waits(s.logger) && s.ch == Channels([], [], Scans(CAPACITY))
    ensures s.pender == IDLE_PENDER && s.runner == Runner([], map[1 := SbPending], None)
    ensures s.world.sandbox == map[1 := SbPending] && s.world.now == 1
    ensures s.db == Db(map[1 := Submission(H, 0), 2 := Submission(OTHER, 0)],
                       map[1 := FlaggedRow().(status := RunningInQueue), 2 := NewLiveRow(Some(OTHER))], map[],
                       s.db.finished)
  {
    s := GivenUp();
    OnlyTheRow(s, 1);
  }

  /** No worker holds anything, and all messages are about other tasks. */
  lemma OnlyTheRow(s: State, id: int)
    requires id in s.db.live && s.ch.pending == [] && s.ch.running == [] && s.pender == IDLE_PENDER
    requires s.runner.batch == [] && s.runner.owed.None? && Idle(s.sweeper)
    requires forall m | m in Pending(s) :: m.id != id
    ensures TraceOf(s, id)
         == Trace(s.db.live[id], multiset{}, multiset{}, multiset{}, multiset{}, Sweeping, [], None)
  {
    PartNone(Pended(s), Has(id));
    PartNone(Watched(s), Has(id));
    PartNone(s.pender.returned, Carries(id));
    PartNone(multiset(s.sweeper.batch), Has(id));
    LettersNone(Pending(s), id);
  }

  // ---------------------------------------------------------------- a full running queue

  /** The log handler works off the messages about the other file; the first one ends its task. */
  lemma {:induction false} Drained(s: State, n: nat) returns (s': State)
    requires Reachable(s) && Waits(s.logger) && s.ch.log == Scans(n) && s.db.dups == map[]
    ensures Reachable(s') && s' == s.(ch := s.ch.(log := []), db := s'.db)
    ensures s'.db.live == (if n == 0 then s.db.live else s.db.live - {2}) && s'.db.dups == map[]
    ensures 1 in s.db.fods ==> 1 in s'.db.fods && s'.db.fods[1] == s.db.fods[1]
    decreases n
  {
    s' := s;
    if n > 0 {
      assert Scans(n)[0] == Scan() && Scans(n)[1..] == Scans(n - 1);
      assert MatchingDups(s.db, OTHER) == {} == Ids([]);
      s' := Prepared(s, Scan(), []);
      s' := Apply(s', Log(Commit));
      s' := Drained(s', n - 1);
    }
  }

  /** The flagged row is alone and at rest. */
  lemma FlaggedAlone() returns (s: State)
    ensures Quiet(s, 1) && s.ch == Channels([], [], []) && s.db.live == map[1 := FlaggedRow()]
    ensures s.db.fods[1] == Submission(H, 0)
    ensures s.runner == Runner([], map[1 := SbPending], None)
    ensures s.world.sandbox == map[1 := SbPending] && s.world.now == 1
  {
    s := FlaggedRun();
    s := Drained(s, CAPACITY);
    assert s.db.live == map[1 := FlaggedRow().(status := RunningInQueue)];
    s := FlagReturns(s, 1);
    assert s.db.live == map[1 := FlaggedRow()];
  }

  predicate Waiting(x: Task, s: State, timeout: int) {
    CheckTask(x, s.runner.snapshot, timeout, s.world.now).KeepWaiting?
  }

  /** The row as a message about the task in this status leaves it. */
  function RowIn(s: State, t: Task, status: Status): LiveRow
    requires t.id in s.db.live
  {
    WriteBack(s.db.live[t.id], t.(status := status))
  }

  /** The running handler is about to check the task, its queue is full, and everything in it is still analysed. */
  ghost predicate Bouncing(s: State, t: Task, timeout: int) {
    && Reachable(s) && Idle(s.sweeper) && Waits(s.logger) && s.ch.log == []
    && s.runner == Runner([t], s.world.sandbox, None) && |s.ch.running| == CAPACITY
    && Waiting(t, s, timeout) && (forall x | x in s.ch.running :: Waiting(x, s, timeout))
    && t.id in s.db.live && t.id in s.db.fods && !t.logQueueFailed && timeout >= 0
    && TaskOf(t.id, RowIn(s, t, RunningNotInQueue), s.db.fods[t.id])
       == t.(status := RunningNotInQueue, runningStartedAt := 0)
    && forall k | k in s.db.live && k != t.id :: !Selected(s.db, k)
  }

  /** Such a state is reached: the queue is full of copies of the one task. */
  lemma UnderAnalysis() returns (s: State, t: Task)
    ensures Bouncing(s, t, 0)
  {
    s := FlaggedAlone();
    t := ResumedOf(s, 1);
    s := Multiplied(s, 1, 1);
    assert s.ch.running == [t];
    Reach(s, Watch(List));
    s := Apply(s, Watch(List));
    s := Watching(s, t);
    s := Multiplied(s, 1, CAPACITY);
    assert s.ch.running == Copies(CAPACITY, t);
  }

  // ---------------------------------------------------------------- a bounce

  /** The push back fails; the task's message is sent and applied. */
  lemma Bounced(s: State, t: Task, timeout: int) returns (s': State)
    requires Bouncing(s, t, timeout)
    ensures Reachable(s')
    ensures s' == WithRow(s, t.id, RowIn(s, t, RunningNotInQueue)).(runner := s.runner.(batch := []))
  {
    Reach(s, Watch(Check(timeout, true)));
    s' := Apply(s, Watch(Check(timeout, true)));
    var m := t.(status := RunningNotInQueue);
    assert s'.ch.log == [m];
    s' := Applied(s', m);
    assert s'.ch.log == [];
  }

  /** The handler takes everything in the running queue. */
  lemma {:induction false} TakenAll(s: State) returns (s': State)
    requires Reachable(s)
    ensures Reachable(s')
    ensures s' == s.(ch := s.ch.(running := []), runner := s.runner.(batch := s.runner.batch + s.ch.running))
    decreases |s.ch.running|
  {
    s' := s;
    if s.ch.running == [] {
      assert s.runner.batch + s.ch.running == s.runner.batch;
    } else {
      Reach(s, Watch(TakeRunning));
      s' := Apply(s, Watch(TakeRunning));
      assert s.runner.batch + s.ch.running == s.runner.batch + [s.ch.running[0]] + s.ch.running[1..];
      s' := TakenAll(s');
    }
  }

  lemma RequeuedOne(s: State, timeout: int) returns (s': State)
    requires Reachable(s) && s.runner.batch != [] && s.runner.owed.None? && Room(s.ch.running) && Room(s.ch.log)
    requires Waiting(s.runner.batch[0], s, timeout)
    ensures Reachable(s')
    ensures s' == s.(ch := s.ch.(running := s.ch.running + [s.runner.batch[0]]),
                     runner := s.runner.(batch := s.runner.batch[1..]))
  {
    Reach(s, Watch(Check(timeout, true)));
    s' := Apply(s, Watch(Check(timeout, true)));
  }

  /** The first of its batch are still analysed, and there is room for them. */
  lemma {:induction false} Requeued(s: State, n: nat, timeout: int) returns (s': State)
    requires Reachable(s) && n <= |s.runner.batch| && s.runner.owed.None? && |s.ch.running| + n <= CAPACITY
    requires Room(s.ch.log)
    requires forall i | 0 <= i < n :: Waiting(s.runner.batch[i], s, timeout)
    ensures Reachable(s')
    ensures s' == s.(ch := s.ch.(running := s.ch.running + s.runner.batch[..n]),
                     runner := s.runner.(batch := s.runner.batch[n..]))
    decreases n
  {
    s' := s;
    if n == 0 {
      assert s.ch.running + s.runner.batch[..0] == s.ch.running;
    } else {
      var batch := s.runner.batch;
      s' := Requeued(s, n - 1, timeout);
      assert s'.runner.batch[0] == batch[n - 1] && Waiting(batch[n - 1], s, timeout);
      s' := RequeuedOne(s', timeout);
      assert s.ch.running + batch[..n] == s.ch.running + batch[..n - 1] + [batch[n - 1]];
      assert batch[n - 1..][1..] == batch[n..];
    }
  }

  /** The next round begins: the sandbox is listed and the first task taken. */
  lemma NextRound(s: State) returns (s': State)
    requires Reachable(s) && s.runner == Runner([], s.world.sandbox, None) && s.ch.running != []
    ensures Reachable(s')
    ensures s' == s.(ch := s.ch.(running := s.ch.running[1..]), runner := s.runner.(batch := [s.ch.running[0]]))
  {
    Reach(s, Watch(List));
    s' := Apply(s, Watch(List));
    Reach(s', Watch(TakeRunning));
    s' := Apply(s', Watch(TakeRunning));
  }

  /** After the bounce the sweep selects the task and nothing else. */
  lemma RoundBegun(s: State, t: Task, timeout: int) returns (s': State)
    requires Bouncing(s, t, timeout)
    ensures Reachable(s') && OnlySelected(s'.db, t.id)
    ensures s' == WithRow(s, t.id, RowIn(s, t, RunningNotInQueue))
                  .(ch := s.ch.(running := s.ch.running[1..]), runner := s.runner.(batch := [s.ch.running[0]]))
  {
    s' := Bounced(s, t, timeout);
    s' := NextRound(s');
  }

  function Restarted(s: State, t: Task): Task {
    t.(status := RunningInQueue, runningStartedAt := s.world.now)
  }

  /** The row says "running in queue", and the queue and the handler's batch are these. */
  function TakenUp(s: State, t: Task, queue: seq<Task>, batch: seq<Task>): State
    requires t.id in s.db.live
  {
    WithRow(s, t.id, RowIn(s, t, RunningInQueue)).(ch := s.ch.(running := queue), runner := s.runner.(batch := batch))
  }

  /** It resumes the task. */
  lemma LastInQueue(s: State, t: Task, timeout: int) returns (s': State)
    requires Bouncing(s, t, timeout)
    ensures Reachable(s')
    ensures s' == TakenUp(s, t, s.ch.running[1..] + [Restarted(s, t)], [s.ch.running[0]])
  {
    s' := RoundBegun(s, t, timeout);
    var row := RowIn(s, t, RunningNotInQueue);
    assert s'.db.live[t.id] == row && row.(status := RunningInQueue) == RowIn(s, t, RunningInQueue);
    assert ResumedOf(s', t.id) == Restarted(s, t);
    s' := Resumed(s', t.id);
    assert s'.db.live == s.db.live[t.id := RowIn(s, t, RunningInQueue)];
  }

  /** The sweep does so while the handler empties the queue. */
  lemma ResumedLast(s: State, t: Task, timeout: int) returns (s': State)
    requires Bouncing(s, t, timeout)
    ensures Reachable(s') && s' == TakenUp(s, t, [], s.ch.running + [Restarted(s, t)])
  {
    var queue, t' := s.ch.running, Restarted(s, t);
    s' := LastInQueue(s, t, timeout);
    s' := TakenAll(s');
    assert [queue[0]] + (queue[1..] + [t']) == queue + [t'];
  }

  /**
   A task still under analysis that finds the running queue full comes back with all its counters and a new start
   time, its row says "running in queue", and everything else is as it was, the full queue included. So it bounces
   again, and the second time the whole state is the same but for the start time: only the number of bounces bounds
   how long it lives.
   */
  lemma BounceGivesAllBack(s: State, t: Task, timeout: int) returns (s': State)
    requires Bouncing(s, t, timeout)
    ensures var t' := Restarted(s, t);
            && s' == TakenUp(s, t, s.ch.running, [t']) && Bouncing(s', t', timeout)
            && WithRow(s', t.id, RowIn(s', t', RunningInQueue)) == s'
  {
    var queue, t' := s.ch.running, Restarted(s, t);
    s' := ResumedLast(s, t, timeout);
    assert s'.runner.batch[..CAPACITY] == queue && s'.runner.batch[CAPACITY..] == [t'];
    forall i | 0 <= i < CAPACITY ensures Waiting(s'.runner.batch[i], s', timeout) {
      assert s'.runner.batch[i] == queue[i] && Waiting(queue[i], s, timeout);
    }
    s' := Requeued(s', CAPACITY, timeout);
    assert s'.ch.running == queue;
    assert s'.db.live[t.id := RowIn(s', t', RunningInQueue)] == s'.db.live;
  }
}
