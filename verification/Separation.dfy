/**
 Complete runs, from the empty pipeline and without any failed read, that show each exact condition of the other
 modules being met: what the code does not promise does happen.
 */
module Separation {
  import opened Records
  import opened Database
  import opened Transactions
  import opened Lookups
  import opened Machine
  import opened Conservation
  import opened HashClasses
  import opened Atomic
  import opened Runs
  import opened Text
  import opened Fates
  import opened Safety
  import opened NoStranding
  import opened OrderlyRuns
  import opened Coherence
  import opened Listing
  import opened Scenes

  const H := Hashes("m", "s", "t")
  const OTHER := Hashes("n", "u", "v")

  // ---------------------------------------------------------------- the tables the runs start from

  function LiveIn(status: Status): LiveRow {
    NewLiveRow(Some(H)).(status := status)
  }

  /** One submission. */
  function OneTask(status: Status): Db {
    Db(map[1 := Submission(H, 0)], map[1 := LiveIn(status)], map[], [])
  }

  /** The same file twice. */
  function Twice(status: Status): Db {
    Db(map[1 := Submission(H, 0), 2 := Submission(H, 0)], map[1 := LiveIn(status)], map[2 := H], [])
  }

  /** Two files. */
  function TwoFiles(status: Status): Db {
    Db(map[1 := Submission(H, 0), 2 := Submission(OTHER, 0)],
       map[1 := LiveIn(status), 2 := NewLiveRow(Some(OTHER))], map[], [])
  }

  function Copy(status: Status): Task {
    Task(1, status, 0, 0, 0, 0, H, false, 0, 0)
  }

  lemma Submitted() returns (s: State)
    ensures Reachable(s) && s == Init({}).(db := OneTask(PendingNotInQueue))
  {
    Begin({});
    var a := Submits(1, H, 0, None);
    assert AtomicEnabled(Init({}), a);
    ReachAtomic(Init({}), a);
    s := AtomicApply(Init({}), a);
    assert s.db == OneTask(PendingNotInQueue);
  }

  /** The same file again. */
  lemma SubmittedTwice() returns (s: State)
    ensures Reachable(s) && s == Init({}).(db := Twice(PendingNotInQueue))
  {
    s := Submitted();
    var a := Submits(2, H, 0, Some(1));
    assert IsNextId(s.db, 2) by { assert 1 in s.db.fods.Keys; }
    assert AtomicEnabled(s, a);
    assert HasLeader(s.db, H) by { assert 1 in s.db.live; }
    assert EntryFor(s.db, {}, 2, H, 0, Some(1)) == SubmitDuplicate(2, H, 0);
    ReachAtomic(s, a);
    s := AtomicApply(s, a);
    assert s.db == Twice(PendingNotInQueue);
  }

  // ---------------------------------------------------------------- stranded tasks

  /** The running handler lists the sandbox, which has nothing to do yet. */
  lemma Listed(s: State) returns (s': State)
    requires Reachable(s) && s.runner == IDLE_RUNNER && s.world.sandbox == map[]
    ensures Reachable(s') && s' == s
  {
    Reach(s, Watch(List));
    s' := Apply(s, Watch(List));
  }

  /** The one task is pushed to the pending queue, sent, and pushed to the running queue; its row is not yet written. */
  lemma SentLate() returns (s: State, t: Task)
    ensures Reachable(s) && t == Copy(PendingInQueue).(sandboxId := 1)
    ensures s == Init({}).(db := OneTask(PendingNotInQueue), ch := Channels([], [t], []),
                           sweeper := Sweeper([], Marking(1, PendingInQueue)),
                           pender := IDLE_PENDER.(returned := multiset{Queued(t)}),
                           world := World(map[1 := SbPending], 2, 0, {}), past := History({1}, 0, 0))
  {
    s := Submitted();
    assert |s.db.live| == |{1}| by { assert s.db.live.Keys == {1}; }
    s := Pushed(s, 1);
    assert s.ch.pending == [Copy(PendingInQueue)];
    s := Listed(s);
    s := Taken(s, Copy(PendingInQueue));
    t := Scenes.Sent(s, Copy(PendingInQueue));
    s := Running(s, Copy(PendingInQueue));
    assert s.ch.running == [t];
  }

  /** The row is live and unflagged "in queue", and there is no copy of the task and no message about it. */
  ghost predicate Forgotten(s: State, id: int) {
    && id in s.db.live && !s.db.live[id].logQueueFailed && RowStatus(s.db.live[id].status)
    && !NotInQueue(s.db.live[id].status) && Idle(s.sweeper)
    && s.ch.pending == [] && s.ch.running == [] && s.pender == IDLE_PENDER && s.runner.batch == []
    && forall m | m in Pending(s) :: m.id != id
  }

  lemma ForgottenIsStranded(s: State, id: int)
    requires Forgotten(s, id)
    ensures id !in WorkIds(s) && !Selected(s.db, id) && !NothingStranded(s, true)
  {
    SettleForeign(RowOutcome(s.db.live[id]), id, Pending(s));
    assert !Safe(s, id, true);
  }

  /**
   The running handler, with a listing it took before the send, finds the task missing and says so before the
   goroutine reports it "running in queue". No copy, no message and no flag is left, and the sweep does not select
   the row.
   */
  lemma StrandedRun() returns (s: State)
    ensures Reachable(s) && Forgotten(s, 1) && Pending(s) == [] && !NothingStranded(s, true)
  {
    var t;
    s, t := SentLate();
    s := Marked(s, 1, PendingInQueue);
    s := Watching(s, t);
    s := Missing(s, t);
    s := Scenes.Reported(s, t);
    s := Applied(s, Retried(t).(status := RunningNotInQueue));
    s := Applied(s, t.(status := RunningInQueue));
    assert s.ch.log == [];
    ForgottenIsStranded(s, 1);
  }

  /** The sweep's row update comes after the goroutine and the running handler are done with the copy it pushed. */
  lemma LateUpdateRun() returns (s: State)
    ensures Reachable(s) && Forgotten(s, 1) && Pending(s) == [] && !NothingStranded(s, true)
  {
    var t;
    s, t := SentLate();
    s := Scenes.Reported(s, t);
    s := Watching(s, t);
    s := Missing(s, t);
    s := Applied(s, t.(status := RunningInQueue));
    s := Applied(s, Retried(t).(status := RunningNotInQueue));
    assert s.ch.log == [];
    s := Marked(s, 1, PendingInQueue);
    ForgottenIsStranded(s, 1);
  }

  // ---------------------------------------------------------------- a full log queue

  function Scan(): Task {
    Task(2, ReportedThroughClamd, 0, 0, 0, 0, OTHER, false, 0, 0)
  }

  function Scans(n: nat): seq<Task> {
    seq(n, _ => Scan())
  }

  /** While the log handler is slow, every pass of the sweep sends one more message about an infected file. */
  lemma {:induction false} Filled(s: State, n: nat) returns (s': State)
    requires Reachable(s) && Idle(s.sweeper) && OnlySelected(s.db, 2)
    requires s.db.live[2] == NewLiveRow(Some(OTHER)) && s.db.fods[2] == Submission(OTHER, 0)
    requires |s.ch.log| + n <= CAPACITY
    ensures Reachable(s') && s' == s.(ch := s.ch.(log := s.ch.log + Scans(n)))
    decreases n
  {
    if n == 0 {
      s' := s;
      assert s.ch.log + Scans(0) == s.ch.log;
    } else {
      s' := Filled(s, n - 1);
      assert Scans(n) == Scans(n - 1) + [Scan()];
      assert s.ch.log + Scans(n) == s.ch.log + Scans(n - 1) + [Scan()];
      s' := Scanned(s', 2);
    }
  }

  /** The task is sent, its row and its message written as they should be, and the running handler has its copy. */
  lemma SentOrderly() returns (s: State, t: Task)
    ensures Reachable(s) && t == Copy(PendingInQueue).(sandboxId := 1)
    ensures s == Init({}).(db := OneTask(PendingInQueue), ch := Channels([], [], [t.(status := RunningInQueue)]),
                           runner := IDLE_RUNNER.(batch := [t]),
                           world := World(map[1 := SbPending], 2, 0, {}), past := History({1}, 0, 0))
  {
    s, t := SentLate();
    s := Marked(s, 1, PendingInQueue);
    s := Scenes.Reported(s, t);
    s := Watching(s, t);
  }

  /** A second file is submitted. */
  lemma OtherSubmitted(s: State, row: LiveRow) returns (s': State)
    requires Reachable(s) && s.db == Db(map[1 := Submission(H, 0)], map[1 := row], map[], s.db.finished)
    requires row.hashes == Some(H) && s.world.signatures == {}
    ensures Reachable(s')
    ensures s' == s.(db := Db(map[1 := Submission(H, 0), 2 := Submission(OTHER, 0)],
                              map[1 := row, 2 := NewLiveRow(Some(OTHER))], map[], s.db.finished))
  {
    var a := Submits(2, OTHER, 0, None);
    assert IsNextId(s.db, 2) by { assert 1 in s.db.fods.Keys; }
    assert AtomicEnabled(s, a);
    ReachAtomic(s, a);
    s' := AtomicApply(s, a);
  }

  /** The task is on its way, its "running in queue" message waits first, and then the log queue is filled up. */
  lemma FullLog() returns (s: State, t: Task)
    ensures Reachable(s) && t == Copy(PendingInQueue).(sandboxId := 1)
    ensures s.db == TwoFiles(PendingInQueue) && s.runner == IDLE_RUNNER.(batch := [t]) && s.pender == IDLE_PENDER
    ensures s.ch == Channels([], [], [t.(status := RunningInQueue)] + Scans(CAPACITY - 1))
    ensures Idle(s.sweeper) && Waits(s.logger) && s.world.now == 0
  {
    s, t := SentOrderly();
    s := OtherSubmitted(s, LiveIn(PendingInQueue));
    s := Filled(s, CAPACITY - 1);
  }

  /**
   The running handler finds the task missing while the log queue is full: it flags the row. The older message,
   applied afterwards, takes the flag away.
   */
  lemma FullLogRun() returns (full: State, s: State)
    ensures Reachable(full) && !Room(full.ch.log) && Enabled(full, Watch(Check(0, false)))
    ensures Selected(Apply(full, Watch(Check(0, false))).db, 1)
    ensures Reachable(s) && Forgotten(s, 1) && !NothingStranded(s, true)
  {
    var t;
    full, t := FullLog();
    Reach(full, Watch(Check(0, false)));
    s := Apply(full, Watch(Check(0, false)));
    assert s.db == SetRow(full.db, Retried(t).(logQueueFailed := true));
    s := Applied(s, t.(status := RunningInQueue));
    assert s.ch.log == Scans(CAPACITY - 1);
    ForgottenIsStranded(s, 1);
  }

  // ---------------------------------------------------------------- duplicates without a live row

  /** A submission counts the live row of its file; the row is reported before the duplicate is inserted. */
  lemma OrphanRun() returns (s: State, insert: Step)
    ensures Reachable(s) && Led(s.db) && Enabled(s, insert) && Orphans(s, insert)
    ensures !Led(Apply(s, insert).db)
  {
    var counted := Counted(2, H, 0, true);
    s := ReportedMeanwhile();
    insert := Ask(Insert(counted));
    var db := Apply(s, insert).db;
    assert 2 in db.dups && db.live == map[];
  }

  /** The live row is counted for a second submission, and then reported. */
  lemma ReportedMeanwhile() returns (s: State)
    ensures Reachable(s) && Counted(2, H, 0, true) in s.desk
    ensures s.db.fods.Keys == {1} && s.db.live == map[] && s.db.dups == map[]
  {
    s := Submitted();
    s := Counting(s);
    s := Scanned(s, 1);
    var m := Copy(ReportedThroughClamd);
    assert s.ch.log == [m];
    assert MatchingDups(s.db, H) == {} == Ids([]);
    s := Prepared(s, m, []);
    s := Apply(s, Log(Commit));
  }

  /** A request that has an id and found neither an allowed nor a blocked file. */
  lemma Looked(s: State) returns (s': State)
    requires Reachable(s) && IsNextId(s.db, 2) && !IsCleanHash(s.db, H) && !IsMalwareHash(s.db, s.world.signatures, H)
    ensures Reachable(s') && s' == Asked(s, Unanswered(2, H, 0))
  {
    LookRuns(s, 2, H, 0);
    var looked := [Ask(AskStep.Number(2, H, 0)), Ask(LookClean(Numbered(2, H, 0)))]
      + [Ask(LookMalware(NotClean(2, H, 0)))];
    ReachRun(s, looked);
    s' := Run(s, looked);
  }

  lemma Counting(s: State) returns (s': State)
    requires Reachable(s) && s == Init({}).(db := OneTask(PendingNotInQueue))
    ensures Reachable(s') && s' == Asked(s, Counted(2, H, 0, true))
  {
    assert IsNextId(s.db, 2) by { assert 1 in s.db.fods.Keys; }
    var u := Unanswered(2, H, 0);
    s' := Looked(s);
    assert HasLeader(s.db, H) by { assert 1 in s.db.live; }
    LearnOne(s, u, CountLive(u));
    Reach(s', Ask(CountLive(u)));
    s' := Apply(s', Ask(CountLive(u)));
  }

  // ---------------------------------------------------------------- a list with a report in between

  /** A live task and its duplicate, and a report of both about to be committed. */
  lemma AboutToReport() returns (s: State)
    ensures Reachable(s) && Enabled(s, Log(Commit)) && s.db == Twice(PendingNotInQueue)
    ensures Apply(s, Log(Commit)).db == FinishReport(s.db, Copy(ReportedThroughClamd), MALICIOUS_SCORE, [2])
  {
    s := SubmittedTwice();
    s := Scanned(s, 1);
    assert s.ch.log == [Copy(ReportedThroughClamd)];
    assert MatchingDups(s.db, H) == {2} == Ids([2]);
    s := Prepared(s, Copy(ReportedThroughClamd), [2]);
  }

  /** The report comes after the query for live tasks: the task is listed twice. */
  lemma ListedTwice(r: Results, list: seq<Shown>) returns (s: State)
    ensures Reachable(s) && Enabled(s, Log(Commit))
    ensures var db' := Apply(s, Log(Commit)).db;
            AreResults(r, s.db, s.db, db', db') && IsList(list, r) ==> multiset(IdsOf(list))[1] > 1
  {
    s := AboutToReport();
    var db' := Apply(s, Log(Commit)).db;
    if AreResults(r, s.db, s.db, db', db') && IsList(list, r) {
      RunOne(s, Log(Commit));
      assert Finished(1, 0, false) in db'.finished;
      ListingTheorem(s, [], [Log(Commit)], [], r, list, 1);
    }
  }

  /** The report comes before the query for duplicates: the duplicate is not listed at all. */
  lemma NotListed(r: Results, list: seq<Shown>) returns (s: State)
    ensures Reachable(s) && Enabled(s, Log(Commit)) && 2 in s.db.fods
    ensures AreResults(r, s.db, s.db, s.db, Apply(s, Log(Commit)).db) && IsList(list, r) ==> 2 !in IdsOf(list)
  {
    s := AboutToReport();
    if AreResults(r, s.db, s.db, s.db, Apply(s, Log(Commit)).db) && IsList(list, r) {
      RunOne(s, Log(Commit));
      ListingTheorem(s, [], [], [Log(Commit)], r, list, 2);
    }
  }

  // ---------------------------------------------------------------- verdicts

  /** A listed file nobody submitted before: critical, with a score the bands call a high risk. */
  lemma ListedRow() returns (s: State)
    ensures Reachable(s) && 1 in s.db.fods && s.db.fods[1].rating == Critical && s.db.fods[1].score == 7.0
    ensures RatingOf(s.db.fods[1].score) == HighRisk
  {
    Begin({H});
    var a := Submits(1, H, 0, None);
    assert Lookups.Listed({H}, H);
    assert AtomicEnabled(Init({H}), a);
    ReachAtomic(Init({H}), a);
    s := AtomicApply(Init({H}), a);
  }

  lemma TwoRows(fods: map<int, Fod>, live: map<int, LiveRow>, dups: map<int, Hashes>, finished: seq<Finished>)
    requires fods.Keys == {1, 2} && fods[1].hashes == fods[2].hashes
    requires forall i | i in fods :: fods[i].verdict.NoVerdict? <==> fods[i].rating.NoRating?
    ensures Coherent(Db(fods, live, dups, finished), {}) <==> fods[1].verdict == fods[2].verdict
  {
    assert 1 in fods.Keys && 2 in fods.Keys && forall i | i in fods :: i in fods.Keys;
  }

  lemma TakenTwice() returns (s: State)
    ensures Reachable(s) && Waits(s.logger) && s.ch.log == [] && s.db == Twice(PendingNotInQueue)
    ensures s.pender == IDLE_PENDER.(batch := [Copy(PendingInQueue)]) && s.world.now == 0
  {
    s := SubmittedTwice();
    assert |s.db.live| == |{1}| by { assert s.db.live.Keys == {1}; }
    s := Pushed(s, 1);
    assert s.ch.pending == [Copy(PendingInQueue)];
    s := Taken(s, Copy(PendingInQueue));
  }

  /** The task waited too long in the pending queue. */
  lemma ExpiredTwice() returns (s: State)
    ensures Reachable(s) && Waits(s.logger) && s.ch.log == [Copy(Aborted)] && s.db == Twice(PendingNotInQueue)
  {
    s := TakenTwice();
    Reach(s, Outside(Tick(1)));
    s := Apply(s, Outside(Tick(1)));
    s := Expired(s, Copy(PendingInQueue));
  }

  /** An expired task is aborted while a duplicate waits: the file is recorded as allowed and as not yet decided. */
  lemma AbortedClass() returns (s: State)
    ensures Reachable(s) && Enabled(s, Log(Commit))
    ensures Coherent(s.db, {}) && !Coherent(Apply(s, Log(Commit)).db, {})
  {
    s := ExpiredTwice();
    assert MatchingDups(s.db, H) == {2};
    TwoRows(s.db.fods, s.db.live, s.db.dups, s.db.finished);
    s := PreparedAbort(s, Copy(Aborted), Some(2));
    var db := Apply(s, Log(Commit)).db;
    TwoRows(db.fods, db.live, db.dups, db.finished);
  }

  /** Both rows of the file as reported by the scanner, then overridden, with a second report still to come. */
  function Overridden(): Fod {
    Decide(Submission(H, 0), MALICIOUS_SCORE).(verdict := Allow, overridden := true)
  }

  lemma ScannedTwice() returns (s: State)
    ensures Reachable(s) && Waits(s.logger) && s.db == Twice(PendingNotInQueue)
    ensures s.ch.log == [Copy(ReportedThroughClamd), Copy(ReportedThroughClamd)]
  {
    s := SubmittedTwice();
    s := Scanned(s, 1);
    s := Scanned(s, 1);
  }

  lemma ReportedTwice() returns (s: State)
    ensures Reachable(s) && Waits(s.logger) && s.ch.log == [Copy(ReportedThroughClamd)]
    ensures s.db == FinishReport(Twice(PendingNotInQueue), Copy(ReportedThroughClamd), MALICIOUS_SCORE, [2])
  {
    s := ScannedTwice();
    var m := Copy(ReportedThroughClamd);
    assert MatchingDups(s.db, H) == {2} == Ids([2]);
    s := Prepared(s, m, [2]);
    s := Apply(s, Log(Commit));
  }

  lemma OverriddenTwice() returns (s: State)
    ensures Reachable(s) && Waits(s.logger) && s.ch.log == [Copy(ReportedThroughClamd)]
    ensures s.db.fods == map[1 := Overridden(), 2 := Overridden()] && s.db.dups == map[]
  {
    s := ReportedTwice();
    ReachAtomic(s, Overrides(1, Allow));
    s := AtomicApply(s, Overrides(1, Allow));
  }

  /**
   The sweep sends a report twice before the log handler takes the first, and the file is overridden in between: the
   second report decides only the task, not its former duplicate.
   */
  lemma ReportedAgain() returns (s: State)
    ensures Reachable(s) && Enabled(s, Log(Commit))
    ensures Coherent(s.db, {}) && !Coherent(Apply(s, Log(Commit)).db, {})
  {
    s := OverriddenTwice();
    assert MatchingDups(s.db, H) == {} == Ids([]);
    TwoRows(s.db.fods, s.db.live, s.db.dups, s.db.finished);
    s := Prepared(s, Copy(ReportedThroughClamd), []);
    var db := Apply(s, Log(Commit)).db;
    TwoRows(db.fods, db.live, db.dups, db.finished);
  }

  /** The file as the scanner reported it. */
  lemma ReportedOnce() returns (s: State)
    ensures Reachable(s) && s.db.fods == map[1 := Decide(Submission(H, 0), MALICIOUS_SCORE)]
  {
    s := Submitted();
    s := Scanned(s, 1);
    var m := Copy(ReportedThroughClamd);
    assert s.ch.log == [m];
    assert MatchingDups(s.db, H) == {} == Ids([]);
    s := Prepared(s, m, []);
    s := Apply(s, Log(Commit));
  }

  lemma OneRow(db: Db, question: Hashes, verdict: Verdict)
    requires db.fods.Keys == {1} && Matches(db.fods[1].hashes, question)
    ensures HasVerdict(db, question, verdict) <==> db.fods[1].verdict == verdict
  {
    assert 1 in db.fods.Keys && forall k | k in db.fods :: k in db.fods.Keys;
  }

  /** The firewall asks while a file is overridden from allowed to blocked, and hears that nothing is known. */
  lemma OverriddenBetween() returns (s: State, later: State)
    ensures Reachable(s) && Enabled(s, Ask(ReadOverride(1, Block))) && Reachable(later)
    ensures later == AtomicApply(s, Overrides(1, Block))
    ensures FileVerdict(s.db, AnyColumn("m")) == Allow && FileVerdict(later.db, AnyColumn("m")) == Block
    ensures FileFromFirewall(s.db, later.db, {}, "m") == FW_EMPTY
  {
    s := AllowedOnce();
    ReachAtomic(s, Overrides(1, Block));
    later := AtomicApply(s, Overrides(1, Block));
    AskedBetween(s.db, later.db);
  }

  /** The file, blocked by the report, is overridden once. */
  lemma AllowedOnce() returns (s: State)
    ensures Reachable(s) && s.db.fods.Keys == {1} && s.db.fods[1].hashes == H && s.db.fods[1].verdict == Allow
    ensures !s.db.fods[1].rating.NoRating?
  {
    s := ReportedOnce();
    ReachAtomic(s, Overrides(1, Allow));
    s := AtomicApply(s, Overrides(1, Allow));
  }

  lemma AskedBetween(db: Db, db': Db)
    requires db.fods.Keys == {1} == db'.fods.Keys && db.fods[1].hashes == H == db'.fods[1].hashes
    requires db.fods[1].verdict == Allow && db'.fods[1].verdict == Block
    ensures FileVerdict(db, AnyColumn("m")) == Allow && FileVerdict(db', AnyColumn("m")) == Block
    ensures FileFromFirewall(db, db', {}, "m") == FW_EMPTY
  {
    assert TrimLeft("m") == "m" && TrimRight("m") == "m";
    var question := AnyColumn("m");
    OneRow(db, question, Allow);
    OneRow(db, question, Block);
    OneRow(db', question, Allow);
    OneRow(db', question, Block);
  }
}
