/** Stretches of runs that are common to many: a row is swept, admitted, sent, and its messages are applied. */
module Scenes {
  import opened Records
  import opened Database
  import opened Transactions
  import opened Lookups
  import opened Machine
  import opened HashClasses
  import opened Atomic
  import opened Runs

  lemma Begin(signatures: set<Hashes>)
    ensures Reachable(Init(signatures))
  {
    assert CanRun(Init(signatures), []) && Run(Init(signatures), []) == Init(signatures);
  }

  lemma ReachAtomic(s: State, a: AtomicStep)
    requires Reachable(s) && AtomicEnabled(s, a)
    ensures Reachable(AtomicApply(s, a))
  {
    AtomicIsRun(s, a);
    ReachRun(s, AtomicSteps(s, a));
  }

  // ---------------------------------------------------------------- the sweep

  /** The one row the sweep selects. */
  ghost predicate OnlySelected(db: Db, id: int) {
    Selected(db, id) && forall k | k in db.live && k != id :: !Selected(db, k)
  }

  predicate Idle(sweeper: Sweeper) {
    sweeper == Sweeper([], Sweeping)
  }

  function Read(db: Db, id: int): Task
    requires id in db.live && id in db.fods
  {
    TaskOf(id, db.live[id], db.fods[id])
  }

  lemma Fetched(s: State, id: int) returns (s': State)
    requires Reachable(s) && Idle(s.sweeper) && OnlySelected(s.db, id)
    ensures Reachable(s') && s' == s.(sweeper := Sweeper([Read(s.db, id)], Sweeping))
  {
    var batch := [Read(s.db, id)];
    assert IsSelection(s.db, batch) by { assert batch[0] in batch; }
    Reach(s, Sweep(Fetch(batch)));
    s' := Apply(s, Sweep(Fetch(batch)));
  }

  /** The scan finds the file malicious: a message is sent and the row stays as it is. */
  lemma Scanned(s: State, id: int) returns (s': State)
    requires Reachable(s) && Idle(s.sweeper) && OnlySelected(s.db, id) && Room(s.ch.log)
    requires s.db.live[id].status == PendingNotInQueue && !s.db.live[id].logQueueFailed
    ensures Reachable(s')
    ensures s' == s.(ch := s.ch.(log := s.ch.log + [Read(s.db, id).(status := ReportedThroughClamd)]))
  {
    var f := Fetched(s, id);
    Reach(f, Sweep(Malicious(ReportedThroughClamd, true)));
    var m := Apply(f, Sweep(Malicious(ReportedThroughClamd, true)));
    assert m.sweeper == Sweeper([], Clearing(id));
    Reach(m, Sweep(Update));
    s' := Apply(m, Sweep(Update));
    assert SetFlag(s.db, id, false) == s.db by {
      assert s.db.live[id := s.db.live[id].(logQueueFailed := false)] == s.db.live;
    }
  }

  /** The live count admits the row; its copy is pushed and the row not yet written. */
  lemma Pushed(s: State, id: int) returns (s': State)
    requires Reachable(s) && Idle(s.sweeper) && OnlySelected(s.db, id) && Room(s.ch.pending)
    requires s.db.live[id].status == PendingNotInQueue && !s.db.live[id].logQueueFailed
    requires |s.db.live| < MAX_FREE_VMS
    ensures Reachable(s')
    ensures s' == s.(ch := s.ch.(pending := s.ch.pending + [Read(s.db, id).(status := PendingInQueue)]),
                     sweeper := Sweeper([], Marking(id, PendingInQueue)),
                     past := s.past.(admitted := s.past.admitted + {id}))
  {
    var f := Fetched(s, id);
    Reach(f, Sweep(Count(true)));
    var c := Apply(f, Sweep(Count(true)));
    assert c.sweeper == Sweeper([], Admitting(Read(s.db, id)));
    Reach(c, Sweep(Admit(true)));
    s' := Apply(c, Sweep(Admit(true)));
  }

  lemma Marked(s: State, id: int, status: Status) returns (s': State)
    requires Reachable(s) && s.sweeper == Sweeper([], Marking(id, status))
    ensures Reachable(s') && s' == s.(db := SetStatus(s.db, id, status), sweeper := Sweeper([], Sweeping))
  {
    Reach(s, Sweep(Update));
    s' := Apply(s, Sweep(Update));
  }

  // ---------------------------------------------------------------- the pending handler

  predicate Free(pender: Pender) {
    pender == IDLE_PENDER
  }

  /** The only pending task is taken. */
  lemma Taken(s: State, t: Task) returns (s': State)
    requires Reachable(s) && Free(s.pender) && s.ch.pending == [t] && s.world.sandbox == map[]
    ensures Reachable(s')
    ensures s' == s.(ch := s.ch.(pending := []), pender := IDLE_PENDER.(batch := [t]))
  {
    assert UnreportedIds(s.world.sandbox) == {};
    Reach(s, Pend(Poll(true)));
    var p := Apply(s, Pend(Poll(true)));
    assert p == s.(pender := IDLE_PENDER.(quota := 5));
    Reach(p, Pend(TakePending));
    var q := Apply(p, Pend(TakePending));
    assert q == p.(ch := p.ch.(pending := []), pender := IDLE_PENDER.(batch := [t], quota := 4));
    Reach(q, Pend(CloseBatch));
    s' := Apply(q, Pend(CloseBatch));
  }

  /** It was submitted too long ago. */
  lemma Expired(s: State, t: Task) returns (s': State)
    requires Reachable(s) && s.pender == IDLE_PENDER.(batch := [t]) && Room(s.ch.log)
    requires t.submittedTime < s.world.now
    ensures Reachable(s')
    ensures s' == s.(ch := s.ch.(log := s.ch.log + [t.(status := Aborted)]), pender := IDLE_PENDER)
  {
    Reach(s, Pend(Start(0, true)));
    s' := Apply(s, Pend(Start(0, true)));
  }

  function Sent(s: State, t: Task): Task {
    t.(sandboxId := s.world.nextId, runningStartedAt := s.world.now)
  }

  /** It is sent, and its copy pushed to the running queue. */
  lemma Running(s: State, t: Task) returns (s': State)
    requires Reachable(s) && s.pender == IDLE_PENDER.(batch := [t]) && Room(s.ch.running)
    requires t.queueRetries == 0 && t.submittedTime >= s.world.now
    ensures Reachable(s')
    ensures s' == s.(ch := s.ch.(running := s.ch.running + [Sent(s, t)]),
                     pender := IDLE_PENDER.(returned := multiset{Queued(Sent(s, t))}),
                     world := s.world.(sandbox := s.world.sandbox[s.world.nextId := SbPending],
                                       nextId := s.world.nextId + 1))
  {
    var u := Sent(s, t);
    Reach(s, Pend(Start(0, false)));
    var a := Apply(s, Pend(Start(0, false)));
    assert a == s.(pender := IDLE_PENDER.(sending := multiset{t}));
    Reach(a, Pend(Send(t, true)));
    var b := Apply(a, Pend(Send(t, true)));
    assert b.pender == IDLE_PENDER.(returned := multiset{Created(u)});
    Reach(b, Pend(RouteCreated(u, true)));
    s' := Apply(b, Pend(RouteCreated(u, true)));
    assert s'.pender == IDLE_PENDER.(returned := multiset{Queued(u)});
  }

  /** The goroutine's message. */
  lemma Reported(s: State, t: Task) returns (s': State)
    requires Reachable(s) && s.pender == IDLE_PENDER.(returned := multiset{Queued(t)}) && Room(s.ch.log)
    ensures Reachable(s')
    ensures s' == s.(ch := s.ch.(log := s.ch.log + [t.(status := RunningInQueue)]), pender := IDLE_PENDER)
  {
    Reach(s, Pend(RouteStatus(Queued(t), true)));
    s' := Apply(s, Pend(RouteStatus(Queued(t), true)));
    assert s'.pender == IDLE_PENDER;
  }

  // ---------------------------------------------------------------- the running handler

  lemma Watching(s: State, t: Task) returns (s': State)
    requires Reachable(s) && s.runner.batch == [] && s.ch.running == [t]
    ensures Reachable(s') && s' == s.(ch := s.ch.(running := []), runner := s.runner.(batch := [t]))
  {
    Reach(s, Watch(TakeRunning));
    s' := Apply(s, Watch(TakeRunning));
    assert s'.runner.batch == [t] && s'.ch.running == [];
  }

  /** The sandbox did not have the task when it was listed. */
  lemma Missing(s: State, t: Task) returns (s': State)
    requires Reachable(s) && s.runner.batch == [t] && s.runner.owed.None? && Room(s.ch.log)
    requires t.sandboxId !in s.runner.snapshot && t.runningRetries == 0
    ensures Reachable(s')
    ensures s' == s.(ch := s.ch.(log := s.ch.log + [Retried(t).(status := RunningNotInQueue)]),
                     runner := s.runner.(batch := []))
  {
    Reach(s, Watch(Check(0, true)));
    s' := Apply(s, Watch(Check(0, true)));
  }

  // ---------------------------------------------------------------- the log handler

  predicate Waits(logger: Logger) {
    logger == Logger([], Listening)
  }

  /** A status message is taken and applied. */
  lemma Applied(s: State, m: Task) returns (s': State)
    requires Reachable(s) && Waits(s.logger)
    requires s.ch.log != [] && s.ch.log[0] == m && !Terminal(m.status) && !m.status.SandboxApiTimeout?
    ensures Reachable(s') && s' == s.(db := SetRow(s.db, m), ch := s.ch.(log := s.ch.log[1..]))
  {
    Reach(s, Log(TakeLog));
    var a := Apply(s, Log(TakeLog));
    assert a.logger.batch == [m];
    Reach(a, Log(ApplyStatus));
    s' := Apply(a, Log(ApplyStatus));
  }

  /** A scanner's report is taken and its duplicates are read. */
  lemma Prepared(s: State, m: Task, ids: seq<int>) returns (s': State)
    requires Reachable(s) && Waits(s.logger)
    requires s.ch.log != [] && s.ch.log[0] == m && m.status == ReportedThroughClamd
    requires Enumerates(ids, MatchingDups(s.db, m.hashes))
    ensures Reachable(s') && Enabled(s', Log(Commit))
    ensures s' == s.(logger := Logger([], Reporting(m, MALICIOUS_SCORE, ids)), ch := s.ch.(log := s.ch.log[1..]))
    ensures Apply(s', Log(Commit)) ==
            s.(db := FinishReport(s.db, m, MALICIOUS_SCORE, ids), ch := s.ch.(log := s.ch.log[1..]))
    ensures Reachable(Apply(s', Log(Commit)))
  {
    Reach(s, Log(TakeLog));
    var a := Apply(s, Log(TakeLog));
    assert a.logger.batch == [m];
    Reach(a, Log(ReadReport(MALICIOUS_SCORE, ids)));
    s' := Apply(a, Log(ReadReport(MALICIOUS_SCORE, ids)));
    Reach(s', Log(Commit));
  }

  /** An abort is taken and the first duplicate is read. */
  lemma PreparedAbort(s: State, m: Task, next: Option<int>) returns (s': State)
    requires Reachable(s) && Waits(s.logger)
    requires s.ch.log != [] && s.ch.log[0] == m && m.status == Aborted
    requires IsSmallest(next, MatchingDups(s.db, m.hashes))
    ensures Reachable(s') && Enabled(s', Log(Commit))
    ensures s' == s.(logger := Logger([], Aborting(m, next)), ch := s.ch.(log := s.ch.log[1..]))
    ensures Apply(s', Log(Commit)) == s.(db := FinishAbort(s.db, m, next), ch := s.ch.(log := s.ch.log[1..]))
    ensures Reachable(Apply(s', Log(Commit)))
  {
    Reach(s, Log(TakeLog));
    var a := Apply(s, Log(TakeLog));
    assert a.logger.batch == [m];
    Reach(a, Log(ReadAbort(next)));
    s' := Apply(a, Log(ReadAbort(next)));
    Reach(s', Log(Commit));
  }
}
