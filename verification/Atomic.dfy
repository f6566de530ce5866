/**
 Runs in which a submission, an override and a log message are each handled in one piece. Such a piece is a run of
 the machine; only the interleavings are fewer.
 */
module Atomic {
  import opened Records
  import opened Database
  import opened Transactions
  import opened Lookups
  import opened Machine
  import opened Conservation
  import opened Runs
  import opened HashClasses

  // ---------------------------------------------------------------- requests and messages in one piece

  datatype AtomicStep =
    | Submits(id: int, hashes: Hashes, at: int, pick: Option<int>)
    | Overrides(id: int, verdict: Verdict)
    | Reports(score: real, ids: seq<int>)
    | Aborts(next: Option<int>)
    | Plain(step: Step)

  /** What a submission without interruption writes. */
  function EntryFor(db: Db, signatures: set<Hashes>, id: int, h: Hashes, at: int, pick: Option<int>): Entry
    requires pick.Some? ==> pick.value in db.fods
  {
    if IsCleanHash(db, h) then SubmitCached(id, CachedFod(db, h, at, pick, true))
    else if IsMalwareHash(db, signatures, h) then SubmitCached(id, CachedFod(db, h, at, pick, false))
    else if HasLeader(db, h) then SubmitDuplicate(id, h, at)
    else SubmitLive(id, h, at)
  }

  ghost predicate AtomicEnabled(s: State, a: AtomicStep) {
    match a
    case Submits(id, h, _, pick) => IsNextId(s.db, id) && Picked(s.db, h, pick)
    case Overrides(id, verdict) => AskEnabled(s, ReadOverride(id, verdict))
    case Reports(score, ids) => LogEnabled(s, ReadReport(score, ids))
    case Aborts(next) => LogEnabled(s, ReadAbort(next))
    case Plain(step) =>
      Enabled(s, step) && !TouchesClasses(step) && (step.Log? ==> !step.log.ReadReport? && !step.log.ReadAbort?)
  }

  ghost function AtomicApply(s: State, a: AtomicStep): State
    requires AtomicEnabled(s, a)
  {
    match a
    case Submits(id, h, at, pick) => s.(db := Enter(s.db, EntryFor(s.db, s.world.signatures, id, h, at, pick)))
    case Overrides(id, verdict) => s.(db := Override(s.db, s.db.fods[id].hashes, verdict))
    case Reports(score, ids) =>
      s.(logger := Logger(s.logger.batch[1..], Listening), db := FinishReport(s.db, s.logger.batch[0], score, ids))
    case Aborts(next) =>
      s.(logger := Logger(s.logger.batch[1..], Listening), db := FinishAbort(s.db, s.logger.batch[0], next))
    case Plain(step) => Apply(s, step)
  }

  /** The machine steps of an atomic one. */
  ghost function AtomicSteps(s: State, a: AtomicStep): seq<Step>
    requires AtomicEnabled(s, a)
  {
    match a
    case Submits(id, h, at, pick) =>
      var start := [Ask(Number(id, h, at)), Ask(LookClean(Numbered(id, h, at)))];
      if IsCleanHash(s.db, h) then start + PickAndInsert(s.db, id, h, at, pick, true)
      else
        var looked := start + [Ask(LookMalware(NotClean(id, h, at)))];
        if IsMalwareHash(s.db, s.world.signatures, h) then looked + PickAndInsert(s.db, id, h, at, pick, false)
        else looked + [Ask(CountLive(Unanswered(id, h, at))), Ask(Insert(Counted(id, h, at, HasLeader(s.db, h))))]
    case Overrides(id, verdict) =>
      [Ask(ReadOverride(id, verdict)), Ask(WriteOverride(Overriding(s.db.fods[id].hashes, verdict)))]
    case Reports(score, ids) => [Log(ReadReport(score, ids)), Log(Commit)]
    case Aborts(next) => [Log(ReadAbort(next)), Log(Commit)]
    case Plain(step) => [step]
  }

  function PickAndInsert(db: Db, id: int, h: Hashes, at: int, pick: Option<int>, clean: bool): seq<Step>
    requires pick.Some? ==> pick.value in db.fods
  {
    [Ask(PickRow(Answering(id, h, at, clean), pick)), Ask(Insert(Answered(id, CachedFod(db, h, at, pick, clean))))]
  }

  /** With one request more on the desk. */
  ghost function Asked(s: State, a: Asking): State {
    s.(desk := s.desk + multiset{a})
  }

  lemma LearnOne(s: State, a: Asking, step: AskStep)
    requires step.LookClean? || step.LookMalware? || step.PickRow? || step.CountLive?
    requires step.asking == a && AskEnabled(Asked(s, a), step)
    ensures AskApply(Asked(s, a), step) == Asked(s, Learned(s, a, step))
  {
    assert s.desk + multiset{a} - multiset{a} == s.desk;
  }

  lemma CloseOne(s: State, a: Asking)
    requires Ready(a) && Accepts(s.db, EntryOf(a))
    ensures Close(Asked(s, a), a) == s.(db := Enter(s.db, EntryOf(a)))
  {
    assert s.desk + multiset{a} - multiset{a} == s.desk;
  }

  lemma PickRuns(s: State, id: int, h: Hashes, at: int, pick: Option<int>, clean: bool)
    requires id !in s.db.fods && Picked(s.db, h, pick)
    ensures var s0 := Asked(s, Answering(id, h, at, clean));
            var steps := PickAndInsert(s.db, id, h, at, pick, clean);
            CanRun(s0, steps)
            && Run(s0, steps) == s.(db := Enter(s.db, SubmitCached(id, CachedFod(s.db, h, at, pick, clean))))
  {
    var a := Answering(id, h, at, clean);
    var b := Answered(id, CachedFod(s.db, h, at, pick, clean));
    LearnOne(s, a, PickRow(a, pick));
    CloseOne(s, b);
    assert b in Asked(s, b).desk;
    RunTwo(Asked(s, a), Ask(PickRow(a, pick)), Ask(Insert(b)));
  }

  lemma CountRuns(s: State, id: int, h: Hashes, at: int)
    requires id !in s.db.fods
    ensures var s0 := Asked(s, Unanswered(id, h, at));
            var steps := [Ask(CountLive(Unanswered(id, h, at))), Ask(Insert(Counted(id, h, at, HasLeader(s.db, h))))];
            CanRun(s0, steps)
            && Run(s0, steps) == s.(db := Enter(s.db, if HasLeader(s.db, h) then SubmitDuplicate(id, h, at)
                                                      else SubmitLive(id, h, at)))
  {
    var a := Unanswered(id, h, at);
    var b := Counted(id, h, at, HasLeader(s.db, h));
    LearnOne(s, a, CountLive(a));
    CloseOne(s, b);
    assert b in Asked(s, b).desk;
    RunTwo(Asked(s, a), Ask(CountLive(a)), Ask(Insert(b)));
  }

  lemma NextIdIsFree(db: Db, id: int)
    requires IsNextId(db, id)
    ensures id !in db.fods
  {
    assert id in db.fods ==> id in db.fods.Keys;
  }

  lemma LookRuns(s: State, id: int, h: Hashes, at: int)
    requires IsNextId(s.db, id)
    ensures var start := [Ask(Number(id, h, at)), Ask(LookClean(Numbered(id, h, at)))];
            && CanRun(s, start)
            && Run(s, start) ==
               Asked(s, if IsCleanHash(s.db, h) then Answering(id, h, at, true) else NotClean(id, h, at))
            && (!IsCleanHash(s.db, h) ==>
                  var looked := start + [Ask(LookMalware(NotClean(id, h, at)))];
                  && CanRun(s, looked)
                  && Run(s, looked) == Asked(s, if IsMalwareHash(s.db, s.world.signatures, h)
                                                then Answering(id, h, at, false) else Unanswered(id, h, at)))
  {
    var n, c := Numbered(id, h, at), NotClean(id, h, at);
    LearnOne(s, n, LookClean(n));
    RunTwo(s, Ask(Number(id, h, at)), Ask(LookClean(n)));
    if !IsCleanHash(s.db, h) {
      LearnOne(s, c, LookMalware(c));
      RunSnoc(s, [Ask(Number(id, h, at)), Ask(LookClean(n))], Ask(LookMalware(c)));
    }
  }

  lemma SubmissionRuns(s: State, a: AtomicStep)
    requires a.Submits? && AtomicEnabled(s, a)
    ensures CanRun(s, AtomicSteps(s, a)) && Run(s, AtomicSteps(s, a)) == AtomicApply(s, a)
  {
    var Submits(id, h, at, pick) := a;
    NextIdIsFree(s.db, id);
    LookRuns(s, id, h, at);
    var start := [Ask(Number(id, h, at)), Ask(LookClean(Numbered(id, h, at)))];
    if IsCleanHash(s.db, h) {
      PickRuns(s, id, h, at, pick, true);
      RunAppend(s, start, PickAndInsert(s.db, id, h, at, pick, true));
    } else {
      var looked := start + [Ask(LookMalware(NotClean(id, h, at)))];
      if IsMalwareHash(s.db, s.world.signatures, h) {
        PickRuns(s, id, h, at, pick, false);
        RunAppend(s, looked, PickAndInsert(s.db, id, h, at, pick, false));
      } else {
        CountRuns(s, id, h, at);
        RunAppend(s, looked,
                  [Ask(CountLive(Unanswered(id, h, at))), Ask(Insert(Counted(id, h, at, HasLeader(s.db, h))))]);
      }
    }
  }

  /** An atomic step is a run of the machine, so atomic runs are runs: only the interleavings are fewer. */
  lemma AtomicIsRun(s: State, a: AtomicStep)
    requires AtomicEnabled(s, a)
    ensures CanRun(s, AtomicSteps(s, a)) && Run(s, AtomicSteps(s, a)) == AtomicApply(s, a)
  {
    match a
    case Submits(_, _, _, _) => SubmissionRuns(s, a);
    case Overrides(id, verdict) =>
      var o := Overriding(s.db.fods[id].hashes, verdict);
      CloseOne(s, o);
      RunTwo(s, Ask(ReadOverride(id, verdict)), Ask(WriteOverride(o)));
    case Reports(score, ids) => RunTwo(s, Log(ReadReport(score, ids)), Log(Commit));
    case Aborts(next) => RunTwo(s, Log(ReadAbort(next)), Log(Commit));
    case Plain(step) => RunOne(s, step);
  }

  ghost predicate CanRunAtomic(s: State, steps: seq<AtomicStep>)
    decreases |steps|
  {
    steps != [] ==> AtomicEnabled(s, steps[0]) && CanRunAtomic(AtomicApply(s, steps[0]), steps[1..])
  }

  ghost function RunAtomic(s: State, steps: seq<AtomicStep>): State
    requires CanRunAtomic(s, steps)
    decreases |steps|
  {
    if steps == [] then s else RunAtomic(AtomicApply(s, steps[0]), steps[1..])
  }

  // ---------------------------------------------------------------- duplicates and leaders in atomic runs

  ghost predicate NoAborted(db: Db) {
    forall f | f in db.finished :: !f.aborted
  }

  ghost predicate AllRecorded(db: Db) {
    forall id | id in db.live :: db.live[id].hashes.Some?
  }

  ghost predicate ClassInv(s: State) {
    && Inv(s) && LeaderInv(s) && s.logger.phase.Listening?
    && (NoAborted(s.db) ==> AllRecorded(s.db) && Led(s.db))
  }

  lemma AtomicKeeps(s: State, a: AtomicStep)
    requires Inv(s) && LeaderInv(s) && AtomicEnabled(s, a)
    ensures Inv(AtomicApply(s, a)) && LeaderInv(AtomicApply(s, a))
  {
    AtomicIsRun(s, a);
    RunKeeps(s, AtomicSteps(s, a));
    RunLeads(s, AtomicSteps(s, a));
  }

  /** The task a commit is about carries the hashes its live row recorded. */
  lemma HeadHashes(s: State)
    requires Inv(s) && s.logger.batch != []
    ensures var t := s.logger.batch[0];
            && t.id in Known(s.db)
            && (t.id in s.db.live && s.db.live[t.id].hashes.Some? ==> s.db.live[t.id].hashes == Some(t.hashes))
  {
    var t := s.logger.batch[0];
    var l := LedgerOf(s.db, s.past.admitted);
    assert t in s.logger.batch && MessageOk(l, t);
    if t.id in s.db.live && s.db.live[t.id].hashes.Some? {
      assert t.id in l.recorded;
    }
  }

  lemma ReportLed(db: Db, t: Task, score: real, ids: seq<int>)
    requires Led(db) && Enumerates(ids, MatchingDups(db, t.hashes))
    requires t.id in db.live ==> db.live[t.id].hashes == Some(t.hashes)
    ensures Led(FinishReport(db, t, score, ids))
  {
    var db' := FinishReport(db, t, score, ids);
    forall d | d in db'.dups ensures HasLeader(db', db'.dups[d]) {
      assert d in db.dups && d !in MatchingDups(db, t.hashes);
      var l :| l in db.live && db.live[l].hashes.Some? && Matches(db.live[l].hashes.value, db.dups[d]);
      assert l != t.id;
      assert l in db'.live;
    }
  }

  lemma ReportClasses(s: State, score: real, ids: seq<int>)
    requires ClassInv(s) && LogEnabled(s, ReadReport(score, ids))
    ensures ClassInv(AtomicApply(s, Reports(score, ids)))
  {
    var t := s.logger.batch[0];
    AtomicKeeps(s, Reports(score, ids));
    HeadHashes(s);
    var db' := FinishReport(s.db, t, score, ids);
    if NoAborted(db') {
      assert NoAborted(s.db) by {
        assert forall f | f in s.db.finished :: f in db'.finished;
      }
      ReportLed(s.db, t, score, ids);
    }
  }

  lemma AbortShows(db: Db, t: Task, next: Option<int>)
    ensures !NoAborted(FinishAbort(db, t, next))
  {
    var f := Finished(t.id, t.sandboxId, true);
    assert f in FinishAbort(db, t, next).finished && f.aborted;
  }

  lemma SubmitLed(db: Db, entry: Entry)
    requires AllRecorded(db) && Led(db) && Accepts(db, entry)
    requires entry.SubmitLive? ==> entry.id !in db.live
    requires entry.SubmitDuplicate? ==> HasLeader(db, entry.hashes) && entry.id !in db.dups
    ensures AllRecorded(Enter(db, entry)) && Led(Enter(db, entry))
  {
    EnterLedExactly(db, entry);
  }

  lemma SubmitClasses(s: State, a: AtomicStep)
    requires ClassInv(s) && (a.Submits? || a.Overrides?) && AtomicEnabled(s, a)
    ensures ClassInv(AtomicApply(s, a))
  {
    AtomicKeeps(s, a);
    var s' := AtomicApply(s, a);
    assert s'.db.finished == s.db.finished;
    if NoAborted(s.db) {
      if a.Submits? {
        NextIdIsFree(s.db, a.id);
        assert a.id !in s.db.live && a.id !in s.db.dups by { assert a.id !in Analysed(s.db); }
        SubmitLed(s.db, EntryFor(s.db, s.world.signatures, a.id, a.hashes, a.at, a.pick));
      } else {
        SameLed(s.db, s'.db);
      }
    }
  }

  lemma PlainClasses(s: State, step: Step)
    requires ClassInv(s) && AtomicEnabled(s, Plain(step))
    ensures ClassInv(AtomicApply(s, Plain(step)))
  {
    AtomicKeeps(s, Plain(step));
    OtherSteps(s, step);
    PlainListens(s, step);
    if NoAborted(s.db) {
      SameLed(s.db, Apply(s, step).db);
    }
  }

  lemma PlainListens(s: State, step: Step)
    requires s.logger.phase.Listening? && AtomicEnabled(s, Plain(step))
    ensures Apply(s, step).logger.phase.Listening?
  {
    match step
    case Sweep(w) => SweepClasses(s, w);
    case Pend(p) => PendingClasses(s, p);
    case Watch(w) => RunningClasses(s, w);
    case Log(g) =>
    case Outside(o) =>
  }

  lemma AtomicClasses(s: State, a: AtomicStep)
    requires ClassInv(s) && AtomicEnabled(s, a)
    ensures ClassInv(AtomicApply(s, a))
  {
    match a
    case Submits(_, _, _, _) => SubmitClasses(s, a);
    case Overrides(_, _) => SubmitClasses(s, a);
    case Reports(score, ids) => ReportClasses(s, score, ids);
    case Aborts(next) =>
      AtomicKeeps(s, a);
      AbortShows(s.db, s.logger.batch[0], next);
    case Plain(step) => PlainClasses(s, step);
  }

  lemma {:induction false} RunClasses(s: State, steps: seq<AtomicStep>)
    requires ClassInv(s) && CanRunAtomic(s, steps)
    ensures ClassInv(RunAtomic(s, steps))
    decreases |steps|
  {
    if steps != [] {
      AtomicClasses(s, steps[0]);
      RunClasses(AtomicApply(s, steps[0]), steps[1..]);
    }
  }

  /** In atomic runs, as long as no task was aborted, every duplicate has a live row it waits for. */
  lemma AtomicLedTheorem(signatures: set<Hashes>, steps: seq<AtomicStep>)
    requires CanRunAtomic(Init(signatures), steps)
    ensures var db := RunAtomic(Init(signatures), steps).db;
            NoAborted(db) ==> forall d | d in db.dups :: HasLeader(db, db.dups[d])
  {
    RunClasses(Init(signatures), steps);
  }
}
