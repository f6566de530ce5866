/**
 The invariant of the whole pipeline: no submission is lost or held twice, ratings are exact, and every
 task in a channel, a batch or a goroutine belongs to a row that is live or finished.
 It holds under every interleaving of the fine-grained steps, with full channels, lost pushes and crashes.
 */
module Conservation {
  import opened Records
  import opened Database
  import opened Transactions
  import opened Machine

  // ---------------------------------------------------------------- the tables

  /** Ids that are live or finished; an id that is known never becomes a duplicate again. */
  ghost function Known(db: Db): set<int> {
    db.live.Keys + FinishedIds(db.finished)
  }

  /** Submissions that were not answered from the verdict cache. */
  ghost function Analysed(db: Db): set<int> {
    set id | id in db.fods && !db.fods[id].cached
  }

  /** Conservation: the analysed submissions are the disjoint union of the three task tables. */
  ghost predicate Partition(db: Db) {
    && db.live.Keys !! db.dups.Keys
    && db.live.Keys !! FinishedIds(db.finished)
    && db.dups.Keys !! FinishedIds(db.finished)
    && db.live.Keys + db.dups.Keys + FinishedIds(db.finished) == Analysed(db)
  }

  predicate Undecided(db: Db, id: int) {
    id in db.live || id in db.dups
  }

  /** The rating is the score's, except on the row stored for a listed file that nobody submitted before. */
  predicate Rated(f: Fod) {
    f.rating.NoRating? || f.rating == RatingOf(f.score) || (f.cached && f.rating == Critical && f.score == 7.0)
  }

  /** A rating is empty exactly while the task is live or a duplicate, and a decided row has a verdict. */
  ghost predicate Ratings(db: Db) {
    && (forall id | id in db.fods :: Rated(db.fods[id]))
    && (forall id | id in db.fods :: db.fods[id].rating.NoRating? <==> Undecided(db, id))
    && (forall id | id in db.fods :: !db.fods[id].rating.NoRating? ==> !db.fods[id].verdict.NoVerdict?)
  }

  /** Task rows carry the hashes of their submission (a promoted row carries none). */
  ghost predicate Recorded(db: Db) {
    && (forall id | id in db.fods :: id > 0)
    && (forall id | id in db.live && db.live[id].hashes.Some? ::
          id in db.fods && db.live[id].hashes.value == db.fods[id].hashes)
    && (forall id | id in db.dups :: id in db.fods && db.dups[id] == db.fods[id].hashes)
  }

  ghost predicate TablesOk(db: Db) {
    Partition(db) && Ratings(db) && Recorded(db)
  }

  /** Live rows carry one of four statuses and bounded counters; only admitted rows leave the first status. */
  predicate RowOk(row: LiveRow, admitted: bool) {
    && RowStatus(row.status)
    && row.queueRetries <= QUEUE_MAX_RETRIES && row.runningRetries <= RUNNING_MAX_RETRIES
    && (row.status != PendingNotInQueue || row.logQueueFailed ==> admitted)
  }

  ghost predicate RowsOk(db: Db, admitted: set<int>) {
    forall id | id in db.live :: RowOk(db.live[id], id in admitted)
  }

  // ---------------------------------------------------------------- the tasks in motion

  /** What the tables say about task copies: known ids, duplicates, recorded hashes, and who was admitted. */
  datatype Ledger = Ledger(known: set<int>, dups: set<int>, recorded: map<int, Hashes>, admitted: set<int>)

  ghost function LedgerOf(db: Db, admitted: set<int>): Ledger {
    Ledger(Known(db), db.dups.Keys,
           map id | id in db.live && db.live[id].hashes.Some? :: db.live[id].hashes.value, admitted)
  }

  /** A copy of a known row, with the hashes the row recorded. */
  predicate CopyOk(l: Ledger, t: Task) {
    && t.id in l.known
    && t.queueRetries <= QUEUE_MAX_RETRIES && t.runningRetries <= RUNNING_MAX_RETRIES
    && (t.id in l.recorded ==> t.hashes == l.recorded[t.id])
  }

  predicate WorkerOk(l: Ledger, t: Task) {
    CopyOk(l, t) && RowStatus(t.status) && t.id in l.admitted
  }

  predicate SenderOk(l: Ledger, t: Task) {
    WorkerOk(l, t) && t.queueRetries < QUEUE_MAX_RETRIES
  }

  predicate SweptOk(l: Ledger, t: Task) {
    && CopyOk(l, t) && RowStatus(t.status)
    && (t.status != PendingNotInQueue || t.logQueueFailed ==> t.id in l.admitted)
  }

  predicate MessageOk(l: Ledger, t: Task) {
    CopyOk(l, t) && (Terminal(t.status) || (RowStatus(t.status) && t.id in l.admitted))
  }

  predicate PhaseOk(l: Ledger, phase: SweepPhase) {
    match phase
    case Sweeping => true
    case Admitting(t) => SweptOk(l, t)
    case Rejecting => true
    case Clearing(id) => id in l.known
    case Marking(id, status) => id in l.known && id in l.admitted && RowStatus(status)
  }

  /** The duplicates read before a commit are still duplicates: only this handler removes them. */
  predicate CommitOk(l: Ledger, phase: LogPhase) {
    match phase
    case Listening => true
    case Reporting(t, _, ids) => CopyOk(l, t) && Ids(ids) <= l.dups
    case Aborting(t, next) => CopyOk(l, t) && (next.Some? ==> next.value in l.dups)
  }

  predicate FlightOk(l: Ledger, f: Flight) {
    WorkerOk(l, f.task) && (f.SendFailed? ==> SenderOk(l, f.task))
  }

  ghost predicate ChannelsOk(l: Ledger, ch: Channels) {
    && (forall t | t in ch.pending :: WorkerOk(l, t))
    && (forall t | t in ch.running :: WorkerOk(l, t))
    && (forall t | t in ch.log :: MessageOk(l, t))
  }

  ghost predicate SweeperOk(l: Ledger, sweeper: Sweeper) {
    && (forall t | t in sweeper.batch :: SweptOk(l, t)) && PhaseOk(l, sweeper.phase)
    && (sweeper.phase.Rejecting? ==> sweeper.batch != [] && !sweeper.batch[0].logQueueFailed)
  }

  ghost predicate PenderOk(l: Ledger, pender: Pender) {
    && (forall t | t in pender.batch :: WorkerOk(l, t))
    && (forall t | t in pender.sending :: SenderOk(l, t))
    && (forall f | f in pender.returned :: FlightOk(l, f))
  }

  ghost predicate RunnerOk(l: Ledger, runner: Runner) {
    (forall t | t in runner.batch :: WorkerOk(l, t)) && (runner.owed.Some? ==> WorkerOk(l, runner.owed.value))
  }

  ghost predicate LoggerOk(l: Ledger, logger: Logger) {
    (forall t | t in logger.batch :: MessageOk(l, t)) && CommitOk(l, logger.phase)
  }

  /** Every task held anywhere agrees with the ledger. */
  ghost predicate MotionOk(l: Ledger, s: State) {
    && ChannelsOk(l, s.ch) && SweeperOk(l, s.sweeper) && PenderOk(l, s.pender)
    && RunnerOk(l, s.runner) && LoggerOk(l, s.logger)
  }

  /** What a request is about to write fits the tables. */
  predicate AskingOk(a: Asking) {
    match a
    case Answered(id, fod) =>
      id > 0 && fod.cached && !fod.rating.NoRating? && !fod.verdict.NoVerdict? && Rated(fod)
    case Overriding(_, verdict) => !verdict.NoVerdict?
    case _ => a.id > 0
  }

  ghost predicate DeskOk(desk: multiset<Asking>) {
    forall a | a in desk :: AskingOk(a)
  }

  ghost predicate Inv(s: State) {
    && TablesOk(s.db)
    && DeskOk(s.desk)
    && RowsOk(s.db, s.past.admitted)
    && s.past.admitted <= Known(s.db)
    && MotionOk(LedgerOf(s.db, s.past.admitted), s)
  }

  // ---------------------------------------------------------------- how the tables may change

  /** Known ids stay known, a removed row never returns, and a row keeps its recorded hashes. */
  predicate Grows(l: Ledger, l': Ledger) {
    && l.known <= l'.known && l.admitted <= l'.admitted
    && (forall id | id in l'.recorded && id in l.known :: id in l.recorded && l'.recorded[id] == l.recorded[id])
  }

  lemma CarryMotion(l: Ledger, l': Ledger, s: State)
    requires MotionOk(l, s) && Grows(l, l') && CommitOk(l', s.logger.phase)
    ensures MotionOk(l', s)
  {
    assert forall t | CopyOk(l, t) :: CopyOk(l', t);
  }

  lemma SubmitKeeps(db: Db, id: int, fod: Fod, db': Db)
    requires TablesOk(db) && id > 0 && id !in db.fods
    requires
      || (fod.cached && !fod.rating.NoRating? && !fod.verdict.NoVerdict? && Rated(fod)
          && db' == db.(fods := db.fods[id := fod]))
      || (!fod.cached && fod.rating.NoRating?
          && db' == db.(fods := db.fods[id := fod], live := db.live[id := NewLiveRow(Some(fod.hashes))]))
      || (!fod.cached && fod.rating.NoRating?
          && db' == db.(fods := db.fods[id := fod], dups := db.dups[id := fod.hashes]))
    ensures TablesOk(db') && id !in Known(db) && id !in db.dups
  {
    assert id !in Analysed(db);
    assert Analysed(db') == if fod.cached then Analysed(db) else Analysed(db) + {id};
  }

  lemma OverrideKeeps(db: Db, hashes: Hashes, verdict: Verdict)
    requires TablesOk(db) && !verdict.NoVerdict?
    ensures TablesOk(Override(db, hashes, verdict))
  {
    assert Analysed(Override(db, hashes, verdict)) == Analysed(db);
  }

  /** Row updates keep the keys of every table and the ledger. */
  lemma UpdateKeeps(db: Db, db': Db, admitted: set<int>)
    requires TablesOk(db)
    requires db'.fods == db.fods && db'.dups == db.dups && db'.finished == db.finished
    requires db'.live.Keys == db.live.Keys
    requires forall id | id in db.live :: db'.live[id].hashes == db.live[id].hashes
    ensures TablesOk(db') && LedgerOf(db', admitted) == LedgerOf(db, admitted)
  {
    assert Analysed(db') == Analysed(db);
    var r, r' := LedgerOf(db, admitted).recorded, LedgerOf(db', admitted).recorded;
    forall id ensures id in r.Keys <==> id in r'.Keys {
      assert id in db.live.Keys <==> id in db'.live.Keys;
    }
    assert r.Keys == r'.Keys;
    forall id | id in r.Keys ensures r[id] == r'[id] {}
  }

  lemma DecideAllKeeps(db: Db, ids: set<int>, score: real)
    ensures Analysed(db.(fods := DecideAll(db.fods, ids, score))) == Analysed(db)
  {
    var db' := db.(fods := DecideAll(db.fods, ids, score));
    assert forall id :: id in Analysed(db') <==> id in Analysed(db);
  }

  lemma FinishedRowsIds(ids: seq<int>, sandboxId: int)
    ensures FinishedIds(FinishedRows(ids, sandboxId)) == Ids(ids)
  {
    var rows := FinishedRows(ids, sandboxId);
    forall id | id in Ids(ids) ensures id in FinishedIds(rows) {
      var i :| 0 <= i < |ids| && ids[i] == id;
      assert rows[i] in rows;
    }
  }

  lemma ReportedIds(db: Db, t: Task, ids: seq<int>)
    ensures FinishedIds(db.finished + [Finished(t.id, t.sandboxId, false)] + FinishedRows(ids, t.sandboxId))
            == FinishedIds(db.finished) + {t.id} + Ids(ids)
  {
    var one := [Finished(t.id, t.sandboxId, false)];
    FinishedIdsAppend(db.finished, one);
    FinishedIdsAppend(db.finished + one, FinishedRows(ids, t.sandboxId));
    assert FinishedIds(one) == {t.id} by { assert one[0] in one; }
    FinishedRowsIds(ids, t.sandboxId);
  }

  lemma ReportPartition(db: Db, t: Task, score: real, ids: seq<int>)
    requires Partition(db) && t.id in Known(db) && Ids(ids) <= db.dups.Keys
    ensures var db' := FinishReport(db, t, score, ids);
            Partition(db') && Known(db') == Known(db) + Ids(ids)
  {
    ReportedIds(db, t, ids);
    DecideAllKeeps(db, {t.id} + Ids(ids), score);
    assert Analysed(FinishReport(db, t, score, ids)) == Analysed(db);
  }

  /** A report keeps the partition even if the task was already finished by an earlier message. */
  lemma ReportKeeps(db: Db, t: Task, score: real, ids: seq<int>)
    requires TablesOk(db) && t.id in Known(db) && Ids(ids) <= db.dups.Keys
    ensures var db' := FinishReport(db, t, score, ids);
            TablesOk(db') && Known(db') == Known(db) + Ids(ids)
  {
    ReportPartition(db, t, score, ids);
    DecidedRatings(db, FinishReport(db, t, score, ids), {t.id} + Ids(ids), score);
    assert Recorded(FinishReport(db, t, score, ids));
  }

  /** The decided submissions are those that are neither live nor duplicates afterwards. */
  lemma DecidedRatings(db: Db, db': Db, ids: set<int>, score: real)
    requires Ratings(db) && db'.fods == DecideAll(db.fods, ids, score)
    requires forall id | id in db.fods :: Undecided(db', id) <==> Undecided(db, id) && id !in ids
    ensures Ratings(db')
  {
  }

  lemma AbortPartition(db: Db, t: Task, next: Option<int>)
    requires Partition(db) && t.id in Known(db) && (next.Some? ==> next.value in db.dups)
    ensures var db' := FinishAbort(db, t, next);
            Partition(db') && Known(db') == Known(db) + if next.Some? then {next.value} else {}
  {
    var one := [Finished(t.id, t.sandboxId, true)];
    FinishedIdsAppend(db.finished, one);
    assert FinishedIds(one) == {t.id} by { assert one[0] in one; }
    DecideAllKeeps(db, {t.id}, 0.0);
    assert Analysed(FinishAbort(db, t, next)) == Analysed(db);
  }

  lemma AbortKeeps(db: Db, t: Task, next: Option<int>)
    requires TablesOk(db) && t.id in Known(db) && (next.Some? ==> next.value in db.dups)
    ensures var db' := FinishAbort(db, t, next);
            TablesOk(db') && Known(db') == Known(db) + if next.Some? then {next.value} else {}
  {
    AbortPartition(db, t, next);
    DecidedRatings(db, FinishAbort(db, t, next), {t.id}, 0.0);
    assert Recorded(FinishAbort(db, t, next));
  }

  // ---------------------------------------------------------------- status messages and row writes

  lemma SetRowKeeps(s: State, t: Task)
    requires Inv(s) && WorkerOk(LedgerOf(s.db, s.past.admitted), t)
    ensures Inv(s.(db := SetRow(s.db, t)))
  {
    UpdateKeeps(s.db, SetRow(s.db, t), s.past.admitted);
  }

  /** A status message, or the row update made when the log queue refuses it, keeps the invariant. */
  lemma PostKeeps(s: State, t: Task, status: Status, pushed: bool)
    requires Inv(s) && WorkerOk(LedgerOf(s.db, s.past.admitted), t) && (Terminal(status) || RowStatus(status))
    ensures Inv(Post(s, t, status, pushed))
  {
    if pushed {
      assert MessageOk(LedgerOf(s.db, s.past.admitted), t.(status := status));
    } else {
      SetRowKeeps(s, t.(logQueueFailed := true));
    }
  }

  // ---------------------------------------------------------------- the sweep

  lemma SweepToLogMotion(l: Ledger, s: State, status: Status, pushed: bool)
    requires MotionOk(l, s) && s.sweeper.batch != []
    requires MessageOk(l, s.sweeper.batch[0].(status := status))
    ensures MotionOk(l, SweepToLog(s, status, pushed))
  {
    assert s.sweeper.batch[0] in s.sweeper.batch;
  }

  lemma SweepHeadMotion(l: Ledger, s: State, step: SweepStep)
    requires MotionOk(l, s) && SweepEnabled(s, step)
    requires step.Flagged? || step.Malicious? || step.Count? || step.Reject? || step.Resume?
    ensures MotionOk(l, SweepApply(s, step))
  {
    var t := s.sweeper.batch[0];
    assert t in s.sweeper.batch && SweptOk(l, t);
    match step
    case Flagged(pushed) => SweepToLogMotion(l, s, FlaggedStatus(t.status), pushed);
    case Malicious(through, pushed) => SweepToLogMotion(l, s, through, pushed);
    case Count(read) =>
    case Reject(pushed) => SweepToLogMotion(l, s, Aborted, pushed);
    case Resume(pushed) =>
      assert WorkerOk(l, t.(runningStartedAt := s.world.now, status := RunningInQueue));
  }

  lemma FetchKeeps(s: State, batch: seq<Task>)
    requires Inv(s) && SweepEnabled(s, Fetch(batch))
    ensures Inv(SweepApply(s, Fetch(batch)))
  {
    var l := LedgerOf(s.db, s.past.admitted);
    assert forall t | t in batch :: SweptOk(l, t);
  }

  lemma AdmitKeeps(s: State, pushed: bool)
    requires Inv(s) && SweepEnabled(s, Admit(pushed))
    ensures Inv(SweepApply(s, Admit(pushed)))
  {
    if pushed {
      var t := s.sweeper.phase.task;
      var s' := SweepApply(s, Admit(true));
      var l' := LedgerOf(s'.db, s'.past.admitted);
      CarryMotion(LedgerOf(s.db, s.past.admitted), l', s);
      assert WorkerOk(l', t.(status := PendingInQueue));
    }
  }

  lemma SweepUpdateKeeps(s: State)
    requires Inv(s) && SweepEnabled(s, Update)
    ensures Inv(SweepApply(s, Update))
  {
    UpdateKeeps(s.db, SweepApply(s, Update).db, s.past.admitted);
  }

  lemma SweepHeadKeeps(s: State, step: SweepStep)
    requires Inv(s) && SweepEnabled(s, step)
    requires step.Flagged? || step.Malicious? || step.Count? || step.Reject? || step.Resume?
    ensures Inv(SweepApply(s, step))
  {
    SweepHeadMotion(LedgerOf(s.db, s.past.admitted), s, step);
    var s' := SweepApply(s, step);
    assert s'.db == s.db && s'.past.admitted == s.past.admitted;
  }

  lemma SweepKeeps(s: State, step: SweepStep)
    requires Inv(s) && SweepEnabled(s, step)
    ensures Inv(SweepApply(s, step))
  {
    match step
    case Fetch(batch) => FetchKeeps(s, batch);
    case Admit(pushed) => AdmitKeeps(s, pushed);
    case Update => SweepUpdateKeeps(s);
    case Flagged(_) | Malicious(_, _) | Count(_) | Reject(_) | Resume(_) => SweepHeadKeeps(s, step);
  }

  // ---------------------------------------------------------------- the pending handler

  lemma StartKeeps(s: State, timeout: int, pushed: bool)
    requires Inv(s) && PendingEnabled(s, Start(timeout, pushed))
    ensures Inv(PendingApply(s, Start(timeout, pushed)))
  {
    var t := s.pender.batch[0];
    assert t in s.pender.batch;
    if PendingExpired(t, timeout, s.world.now) {
      PostKeeps(s.(pender := s.pender.(batch := s.pender.batch[1..])), t, Aborted, pushed);
    }
  }

  lemma SendMotion(l: Ledger, s: State, task: Task, created: bool)
    requires MotionOk(l, s) && PendingEnabled(s, Send(task, created))
    ensures MotionOk(l, PendingApply(s, Send(task, created)))
  {
    assert SenderOk(l, task);
  }

  lemma RouteKeeps(s: State, task: Task, requeued: bool, pushed: bool)
    requires Inv(s) && PendingEnabled(s, RouteFailure(task, requeued, pushed))
    ensures Inv(PendingApply(s, RouteFailure(task, requeued, pushed)))
  {
    var s' := Land(s, SendFailed(task));
    LandKeeps(s, SendFailed(task));
    RouteCounts(LedgerOf(s.db, s.past.admitted), task, requeued);
    match RouteOf(task, requeued)
    case GiveUp(t) => PostKeeps(s', t, Aborted, pushed);
    case Requeue(t) => RequeueKeeps(s', t);
    case SendBack(t) => SendBackKeeps(s', t, pushed);
  }

  lemma LandKeeps(s: State, f: Flight)
    requires Inv(s) && f in s.pender.returned
    ensures Inv(Land(s, f)) && FlightOk(LedgerOf(s.db, s.past.admitted), f)
  {
    assert forall g | g in Land(s, f).pender.returned :: g in s.pender.returned;
  }

  /** A failed send leaves a task that is still a worker's, with its counters in bounds. */
  lemma RouteCounts(l: Ledger, task: Task, requeued: bool)
    requires SenderOk(l, task)
    ensures WorkerOk(l, RouteOf(task, requeued).task)
  {
  }

  lemma RequeueKeeps(s: State, t: Task)
    requires Inv(s) && WorkerOk(LedgerOf(s.db, s.past.admitted), t)
    ensures Inv(s.(ch := s.ch.(pending := s.ch.pending + [t])))
  {
  }

  lemma SendBackKeeps(s: State, t: Task, pushed: bool)
    requires Inv(s) && WorkerOk(LedgerOf(s.db, s.past.admitted), t)
    ensures pushed ==> Inv(PushLog(s, t, PendingNotInQueue))
    ensures Inv(s.(db := SetRow(s.db, t.(status := PendingNotInQueue, logQueueFailed := true))))
  {
    assert MessageOk(LedgerOf(s.db, s.past.admitted), t.(status := PendingNotInQueue));
    SetRowKeeps(s, t.(status := PendingNotInQueue, logQueueFailed := true));
  }

  lemma StatusKeeps(s: State, f: Flight, pushed: bool)
    requires Inv(s) && PendingEnabled(s, RouteStatus(f, pushed))
    ensures Inv(PendingApply(s, RouteStatus(f, pushed)))
  {
    assert FlightOk(LedgerOf(s.db, s.past.admitted), f);
    PostKeeps(Land(s, f), f.task, if f.Queued? then RunningInQueue else RunningNotInQueue, pushed);
  }

  lemma TakeMotion(l: Ledger, s: State, step: PendingStep)
    requires MotionOk(l, s) && PendingEnabled(s, step)
    requires step.Poll? || step.TakePending? || step.CloseBatch?
    ensures MotionOk(l, PendingApply(s, step))
  {
    if step.TakePending? {
      assert s.ch.pending[0] in s.ch.pending;
    }
  }

  /** A goroutine whose task the sandbox accepted. */
  lemma RouteCreatedMotion(l: Ledger, s: State, task: Task, queued: bool)
    requires MotionOk(l, s) && PendingEnabled(s, RouteCreated(task, queued))
    ensures MotionOk(l, PendingApply(s, RouteCreated(task, queued)))
  {
    assert FlightOk(l, Created(task));
    var next := if queued then Queued(task) else Refused(task);
    var returned := s.pender.returned - multiset{Created(task)} + multiset{next};
    assert PendingApply(s, RouteCreated(task, queued)).pender == s.pender.(returned := returned);
    assert forall f | f in returned :: f in s.pender.returned || f == next;
  }

  /** Polling, taking a task, and a goroutine whose task the sandbox accepted. */
  lemma HandOverMotion(l: Ledger, s: State, step: PendingStep)
    requires MotionOk(l, s) && PendingEnabled(s, step)
    requires step.Poll? || step.TakePending? || step.CloseBatch? || step.RouteCreated?
    ensures MotionOk(l, PendingApply(s, step))
  {
    if step.RouteCreated? {
      RouteCreatedMotion(l, s, step.task, step.queued);
    } else {
      TakeMotion(l, s, step);
    }
  }

  lemma PendingKeeps(s: State, step: PendingStep)
    requires Inv(s) && PendingEnabled(s, step)
    ensures Inv(PendingApply(s, step))
  {
    match step
    case Poll(_) | CloseBatch | TakePending | RouteCreated(_, _) =>
      HandOverMotion(LedgerOf(s.db, s.past.admitted), s, step);
    case Start(timeout, pushed) => StartKeeps(s, timeout, pushed);
    case Send(task, created) => SendMotion(LedgerOf(s.db, s.past.admitted), s, task, created);
    case RouteFailure(task, requeued, pushed) => RouteKeeps(s, task, requeued, pushed);
    case RouteStatus(f, pushed) => StatusKeeps(s, f, pushed);
  }

  // ---------------------------------------------------------------- the running handler

  lemma CheckKeeps(s: State, timeout: int, pushed: bool)
    requires Inv(s) && RunningEnabled(s, Check(timeout, pushed))
    ensures Inv(RunningApply(s, Check(timeout, pushed)))
  {
    var t := s.runner.batch[0];
    var l := LedgerOf(s.db, s.past.admitted);
    assert t in s.runner.batch && WorkerOk(l, t);
    var s' := s.(runner := s.runner.(batch := s.runner.batch[1..]));
    assert Inv(s');
    match CheckTask(t, s.runner.snapshot, timeout, s.world.now)
    case Finish(status) => PostKeeps(s', t, status, pushed);
    case Exhausted =>
      assert WorkerOk(l, Retried(t));
      PostKeeps(s'.(runner := s'.runner.(owed := Some(Retried(t)))), Retried(t), Aborted, pushed);
    case Lost =>
      assert WorkerOk(l, Retried(t));
      PostKeeps(s', Retried(t), RunningNotInQueue, pushed);
    case KeepWaiting => if !Room(s.ch.running) { PostKeeps(s', t, RunningNotInQueue, pushed); }
  }

  lemma RunningKeeps(s: State, step: RunningStep)
    requires Inv(s) && RunningEnabled(s, step)
    ensures Inv(RunningApply(s, step))
  {
    match step
    case List =>
    case TakeRunning => assert s.ch.running[0] in s.ch.running;
    case Check(timeout, pushed) => CheckKeeps(s, timeout, pushed);
    case Owe(pushed) =>
      PostKeeps(s.(runner := s.runner.(owed := None)), s.runner.owed.value, RunningNotInQueue, pushed);
  }

  // ---------------------------------------------------------------- the log handler

  lemma CommitKeeps(s: State)
    requires Inv(s) && LogEnabled(s, Commit)
    ensures Inv(LogApply(s, Commit))
  {
    var s' := LogApply(s, Commit);
    match s.logger.phase {
      case Reporting(t, score, ids) => ReportKeeps(s.db, t, score, ids);
      case Aborting(t, next) => AbortKeeps(s.db, t, next);
    }
    var l := LedgerOf(s.db, s.past.admitted);
    assert MotionOk(l, s.(logger := s.logger.(phase := Listening)));
    CarryMotion(l, LedgerOf(s'.db, s.past.admitted), s.(logger := s.logger.(phase := Listening)));
  }

  lemma LogKeeps(s: State, step: LogStep)
    requires Inv(s) && LogEnabled(s, step)
    ensures Inv(LogApply(s, step))
  {
    match step
    case TakeLog => assert s.ch.log[0] in s.ch.log;
    case ReadReport(_, _) => assert s.logger.batch[0] in s.logger.batch;
    case ReadAbort(_) => assert s.logger.batch[0] in s.logger.batch;
    case Commit => CommitKeeps(s);
    case ApplyStatus =>
      var t := s.logger.batch[0];
      assert t in s.logger.batch && MessageOk(LedgerOf(s.db, s.past.admitted), t);
      SetRowKeeps(s.(logger := s.logger.(batch := s.logger.batch[1..])), t);
  }

  // ---------------------------------------------------------------- requests, crash and runs

  lemma EnterKeeps(db: Db, a: Asking)
    requires TablesOk(db) && AskingOk(a) && Ready(a) && Accepts(db, EntryOf(a))
    ensures TablesOk(Enter(db, EntryOf(a)))
    ensures !a.Overriding? ==> a.id !in Known(db) && a.id !in db.dups
  {
    var entry := EntryOf(a);
    match a
    case Answered(id, fod) => SubmitKeeps(db, id, fod, Enter(db, entry));
    case Counted(id, h, at, _) => SubmitKeeps(db, id, Submission(h, at), Enter(db, entry));
    case Overriding(h, v) => OverrideKeeps(db, h, v);
  }

  lemma CloseKeeps(s: State, a: Asking)
    requires Inv(s) && a in s.desk && Ready(a)
    ensures Inv(Close(s, a))
  {
    assert forall b | b in s.desk - multiset{a} :: b in s.desk;
    if Accepts(s.db, EntryOf(a)) {
      EnterKeeps(s.db, a);
      var db' := Enter(s.db, EntryOf(a));
      CarryMotion(LedgerOf(s.db, s.past.admitted), LedgerOf(db', s.past.admitted), s);
    }
  }

  /** A request that goes on after one of its reads. */
  lemma LearnKeeps(s: State, step: AskStep)
    requires Inv(s) && AskEnabled(s, step)
    requires step.LookClean? || step.LookMalware? || step.PickRow? || step.CountLive?
    ensures Inv(AskApply(s, step))
  {
    var a := step.asking;
    assert AskingOk(a);
    var next := Learned(s, a, step);
    assert AskingOk(next);
    assert forall b | b in s.desk - multiset{a} + multiset{next} :: b in s.desk || b == next;
  }

  lemma AskKeeps(s: State, step: AskStep)
    requires Inv(s) && AskEnabled(s, step)
    ensures Inv(AskApply(s, step))
  {
    match step
    case Number(id, h, at) =>
      assert forall b | b in AskApply(s, step).desk :: b in s.desk || b == Numbered(id, h, at);
    case LookClean(_) | LookMalware(_) | PickRow(_, _) | CountLive(_) => LearnKeeps(s, step);
    case Insert(a) => CloseKeeps(s, a);
    case ReadOverride(id, v) =>
      assert forall b | b in AskApply(s, step).desk :: b in s.desk || b == Overriding(s.db.fods[id].hashes, v);
    case WriteOverride(a) => CloseKeeps(s, a);
  }

  lemma CrashKeeps(s: State, rebooted: bool)
    requires Inv(s)
    ensures Inv(WorldApply(s, Crash(rebooted)))
  {
    UpdateKeeps(s.db, Reset(s.db, rebooted), s.past.admitted);
  }

  /** Every step of every component, and a crash at any moment, keeps the invariant. */
  lemma StepKeeps(s: State, step: Step)
    requires Inv(s) && Enabled(s, step)
    ensures Inv(Apply(s, step))
  {
    match step
    case Ask(r) => AskKeeps(s, r);
    case Sweep(w) => SweepKeeps(s, w);
    case Pend(p) => PendingKeeps(s, p);
    case Watch(w) => RunningKeeps(s, w);
    case Log(g) => LogKeeps(s, g);
    case Outside(o) => if o.Crash? { CrashKeeps(s, o.rebooted); }
  }

  lemma {:induction false} RunKeeps(s: State, steps: seq<Step>)
    requires Inv(s) && CanRun(s, steps)
    ensures Inv(Run(s, steps))
    decreases |steps|
  {
    if steps != [] {
      StepKeeps(s, steps[0]);
      RunKeeps(Apply(s, steps[0]), steps[1..]);
    }
  }

  lemma ReachableInv(s: State)
    requires Reachable(s)
    ensures Inv(s)
  {
    var signatures, steps :| CanRun(Init(signatures), steps) && Run(Init(signatures), steps) == s;
    RunKeeps(Init(signatures), steps);
  }
}
