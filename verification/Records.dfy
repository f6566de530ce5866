/** The rows of the four queue tables and the task record that travels through the channels. */
module Records {

  datatype Option<+T> = None | Some(value: T)

  /** Status strings of a task, of a live row and of a log message. */
  datatype Status =
    | PendingNotInQueue
    | PendingInQueue
    | RunningNotInQueue
    | RunningInQueue
    | Reported
    | ReportedThroughQuickScope
    | ReportedThroughClamd
    | Aborted
    | SandboxApiTimeout

  /** The four statuses a live row may carry. */
  predicate RowStatus(status: Status) {
    status.PendingNotInQueue? || status.PendingInQueue? || status.RunningNotInQueue? || status.RunningInQueue?
  }

  /** The two statuses the sweep selects. */
  predicate NotInQueue(status: Status) {
    status.PendingNotInQueue? || status.RunningNotInQueue?
  }

  predicate ReportStatus(status: Status) {
    status.Reported? || status.ReportedThroughQuickScope? || status.ReportedThroughClamd?
  }

  /** A message with such a status removes its live row. */
  predicate Terminal(status: Status) {
    ReportStatus(status) || status.Aborted?
  }

  datatype Hashes = Hashes(md5: string, sha: string, sha256: string)

  /** What a row without recorded hashes scans into. */
  const NO_HASHES := Hashes("", "", "")

  /** The lookup condition of every query by hash: any one column agrees. */
  predicate Matches(a: Hashes, b: Hashes) {
    a.md5 == b.md5 || a.sha == b.sha || a.sha256 == b.sha256
  }

  datatype Task = Task(
    id: int,
    status: Status,
    sandboxId: int,
    queueRetries: nat,
    runningRetries: nat,
    sandboxRetries: nat,
    hashes: Hashes,
    logQueueFailed: bool,
    submittedTime: int,
    runningStartedAt: int)

  datatype Rating = NoRating | Clean | LowRisk | MediumRisk | HighRisk | Critical | Unknown

  datatype Verdict = NoVerdict | Allow | Block

  /** A row of file_on_demands. `cached` stands for the status "previously scanned". */
  datatype Fod = Fod(
    hashes: Hashes,
    submittedTime: int,
    cached: bool,
    rating: Rating,
    verdict: Verdict,
    score: real,
    overridden: bool)

  /** A row of task_live_analysis_tables. A promoted row has no hashes. */
  datatype LiveRow = LiveRow(
    status: Status,
    sandboxId: int,
    queueRetries: nat,
    runningRetries: nat,
    sandboxRetries: nat,
    logQueueFailed: bool,
    hashes: Option<Hashes>)

  datatype Finished = Finished(id: int, sandboxId: int, aborted: bool)

  /** The four tables. Tables looked up by task id are maps; finished rows may repeat an id. */
  datatype Db = Db(
    fods: map<int, Fod>,
    live: map<int, LiveRow>,
    dups: map<int, Hashes>,
    finished: seq<Finished>)

  ghost function FinishedIds(rows: seq<Finished>): set<int> {
    set f | f in rows :: f.id
  }

  lemma FinishedIdsAppend(a: seq<Finished>, b: seq<Finished>)
    ensures FinishedIds(a + b) == FinishedIds(a) + FinishedIds(b)
  {
    forall id | id in FinishedIds(a) + FinishedIds(b)
      ensures id in FinishedIds(a + b)
    {
      var f :| f in a + b && f.id == id;
    }
  }

  /** The rating bands of a sandbox score. */
  function RatingOf(score: real): Rating {
    if score == 0.0 then Clean
    else if 0.0 < score <= 3.0 then LowRisk
    else if 3.0 < score <= 5.0 then MediumRisk
    else if 5.0 < score <= 7.0 then HighRisk
    else if 7.0 < score then Critical
    else Unknown
  }

  function VerdictOf(score: real): Verdict {
    if score == 0.0 then Allow else Block
  }

  function Severity(rating: Rating): int {
    match rating
    case Unknown => -1
    case NoRating => -1
    case Clean => 0
    case LowRisk => 1
    case MediumRisk => 2
    case HighRisk => 3
    case Critical => 4
  }

  /**
   Every score gets a rating, a higher score never a milder one, and exactly the clean files are allowed. A
   scanner's hit is a medium risk; the score 7 stored with a listed file would be rated below its "critical".
   */
  lemma RatingsAreMonotone(a: real, b: real)
    requires a <= b
    ensures Severity(RatingOf(a)) <= Severity(RatingOf(b)) && !RatingOf(a).NoRating?
    ensures VerdictOf(a) == Allow <==> RatingOf(a) == Clean
    ensures RatingOf(a) == Unknown <==> a < 0.0
    ensures RatingOf(a) == LowRisk <==> 0.0 < a <= 3.0
    ensures RatingOf(a) == MediumRisk <==> 3.0 < a <= 5.0
    ensures RatingOf(a) == HighRisk <==> 5.0 < a <= 7.0
    ensures RatingOf(a) == Critical <==> a > 7.0
    ensures RatingOf(3.5) == MediumRisk && VerdictOf(3.5) == Block && Severity(RatingOf(7.0)) < Severity(Critical)
  {
  }

  function Decide(fod: Fod, score: real): Fod {
    fod.(score := score, rating := RatingOf(score), verdict := VerdictOf(score))
  }

  function NewLiveRow(hashes: Option<Hashes>): LiveRow {
    LiveRow(PendingNotInQueue, 0, 0, 0, 0, false, hashes)
  }

  /** The write-back of a task's counters, status and failure flag. */
  function WriteBack(row: LiveRow, task: Task): LiveRow {
    row.(status := task.status, sandboxId := task.sandboxId, queueRetries := task.queueRetries,
         logQueueFailed := task.logQueueFailed, sandboxRetries := task.sandboxRetries,
         runningRetries := task.runningRetries)
  }

  /** The task a live row scans into when the sweep joins it with its submission. */
  function TaskOf(id: int, row: LiveRow, fod: Fod): Task {
    Task(id, row.status, row.sandboxId, row.queueRetries, row.runningRetries, row.sandboxRetries,
         if row.hashes.Some? then row.hashes.value else NO_HASHES,
         row.logQueueFailed, fod.submittedTime, 0)
  }
}
