/**
 The verdict cache agrees with the record. In an atomic run without aborts in which no task is finished twice,
 all rows of one file carry the same verdict or none. The firewall's lookups are separate transactions; its answer
 is given for any two states of such a run. Outside these conditions the exact limits are given.
 */
module Coherence {
  import opened Records
  import opened Database
  import opened Transactions
  import opened Lookups
  import opened Machine
  import opened Conservation
  import opened HashClasses
  import opened Atomic
  import opened Text

  /** Hash triples agree in all columns or in none. */
  ghost predicate Separated(fods: map<int, Fod>) {
    forall i, j | i in fods && j in fods && Matches(fods[i].hashes, fods[j].hashes) :: fods[i].hashes == fods[j].hashes
  }

  ghost predicate FinishedOnce(rows: seq<Finished>) {
    forall i, j | 0 <= i < j < |rows| :: rows[i].id != rows[j].id
  }

  /** What the tables show of a run: no abort, nothing finished twice, and proper digests. */
  ghost predicate Regular(db: Db) {
    NoAborted(db) && FinishedOnce(db.finished) && Separated(db.fods)
  }

  /** Rows of one file agree, a verdict comes with a rating, and a file in the signature table is always decided. */
  ghost predicate Coherent(db: Db, signatures: set<Hashes>) {
    && (forall i, j | i in db.fods && j in db.fods && db.fods[i].hashes == db.fods[j].hashes ::
          db.fods[i].verdict == db.fods[j].verdict)
    && (forall i | i in db.fods :: db.fods[i].verdict.NoVerdict? <==> db.fods[i].rating.NoRating?)
    && (forall i | i in db.fods && Listed(signatures, db.fods[i].hashes) :: !db.fods[i].verdict.NoVerdict?)
  }

  // ---------------------------------------------------------------- submissions and overrides

  /** A cached answer copies the verdict of its class, or blocks a listed file nobody submitted before. */
  lemma CachedAgrees(db: Db, signatures: set<Hashes>, h: Hashes, at: int, pick: Option<int>)
    requires Coherent(db, signatures) && Picked(db, h, pick)
    requires IsCleanHash(db, h) || IsMalwareHash(db, signatures, h)
    requires forall i | i in db.fods && Matches(db.fods[i].hashes, h) :: db.fods[i].hashes == h
    ensures var fod := CachedFod(db, h, at, pick, IsCleanHash(db, h));
            && !fod.verdict.NoVerdict? && !fod.rating.NoRating? && fod.hashes == h
            && forall i | i in db.fods && db.fods[i].hashes == h :: db.fods[i].verdict == fod.verdict
  {
    if IsCleanHash(db, h) {
      var c :| c in db.fods && Matches(db.fods[c].hashes, h) && db.fods[c].verdict == Allow;
    } else if HasVerdict(db, h, Block) {
      var b :| b in db.fods && Matches(db.fods[b].hashes, h) && db.fods[b].verdict == Block;
    }
  }

  lemma InsertCoherent(db: Db, signatures: set<Hashes>, id: int, fod: Fod, db': Db)
    requires Coherent(db, signatures) && id !in db.fods && db'.fods == db.fods[id := fod]
    requires fod.verdict.NoVerdict? <==> fod.rating.NoRating?
    requires Listed(signatures, fod.hashes) ==> !fod.verdict.NoVerdict?
    requires forall i | i in db.fods && db.fods[i].hashes == fod.hashes :: db.fods[i].verdict == fod.verdict
    ensures Coherent(db', signatures)
  {
  }

  lemma OverrideCoherent(db: Db, signatures: set<Hashes>, id: int, verdict: Verdict)
    requires Coherent(db, signatures) && Separated(db.fods)
    requires id in db.fods && !db.fods[id].rating.NoRating? && !verdict.NoVerdict?
    ensures Coherent(Override(db, db.fods[id].hashes, verdict), signatures)
  {
    assert forall i | i in db.fods :: Matches(db.fods[i].hashes, db.fods[id].hashes) <==>
        db.fods[i].hashes == db.fods[id].hashes;
  }

  /** The rows that match a new row are rows of the same file. */
  lemma MatchesNewRow(db: Db, id: int, fod: Fod, i: int)
    requires id !in db.fods && Separated(db.fods[id := fod])
    requires i in db.fods && Matches(db.fods[i].hashes, fod.hashes)
    ensures db.fods[i].hashes == fod.hashes
  {
    var fods' := db.fods[id := fod];
    assert fods'[i] == db.fods[i] && fods'[id] == fod;
  }

  lemma SubmissionCoherent(db: Db, signatures: set<Hashes>, id: int, h: Hashes, at: int, pick: Option<int>)
    requires Coherent(db, signatures) && id !in db.fods && Picked(db, h, pick)
    requires Separated(Enter(db, EntryFor(db, signatures, id, h, at, pick)).fods)
    ensures Coherent(Enter(db, EntryFor(db, signatures, id, h, at, pick)), signatures)
  {
    var entry := EntryFor(db, signatures, id, h, at, pick);
    var fod := if entry.SubmitCached? then entry.fod else Submission(h, at);
    assert Enter(db, entry).fods == db.fods[id := fod];
    forall i | i in db.fods && Matches(db.fods[i].hashes, h) ensures db.fods[i].hashes == h {
      MatchesNewRow(db, id, fod, i);
    }
    if entry.SubmitCached? {
      CachedAgrees(db, signatures, h, at, pick);
    } else {
      forall i | i in db.fods && db.fods[i].hashes == h ensures db.fods[i].verdict.NoVerdict? {
        assert Matches(db.fods[i].hashes, h);
      }
    }
    InsertCoherent(db, signatures, id, fod, Enter(db, entry));
  }

  // ---------------------------------------------------------------- reports

  /** While the task is live, its class is the task itself and the matching duplicates, all undecided. */
  lemma ClassOfLive(db: Db, signatures: set<Hashes>, t: Task, i: int)
    requires TablesOk(db) && OneLeader(db) && AllRecorded(db) && Separated(db.fods) && Coherent(db, signatures)
    requires t.id in db.live && db.live[t.id].hashes == Some(t.hashes)
    requires i in db.fods
    ensures db.fods[i].hashes == t.hashes <==> i == t.id || i in MatchingDups(db, t.hashes)
    ensures t.id in db.fods && db.fods[t.id].verdict.NoVerdict? && !Listed(signatures, t.hashes)
  {
    assert t.id in Analysed(db);
    if i in db.fods && db.fods[i].hashes == t.hashes && i != t.id {
      assert db.fods[i].verdict.NoVerdict?;
      assert Undecided(db, i);
      if i in db.live {
        assert Matches(db.live[i].hashes.value, db.live[t.id].hashes.value);
      }
    }
  }

  /** Deciding a whole class that is not listed. */
  lemma DecideCoherent(db: Db, signatures: set<Hashes>, h: Hashes, ids: set<int>, score: real, db': Db)
    requires Coherent(db, signatures) && !Listed(signatures, h)
    requires forall i | i in db.fods :: db.fods[i].hashes == h <==> i in ids
    requires db'.fods == DecideAll(db.fods, ids, score)
    ensures Coherent(db', signatures)
  {
  }

  lemma ReportCoherent(db: Db, signatures: set<Hashes>, t: Task, score: real, ids: seq<int>)
    requires TablesOk(db) && OneLeader(db) && AllRecorded(db) && Separated(db.fods) && Coherent(db, signatures)
    requires t.id in db.live && db.live[t.id].hashes == Some(t.hashes)
    requires Enumerates(ids, MatchingDups(db, t.hashes))
    ensures Coherent(FinishReport(db, t, score, ids), signatures)
  {
    forall i | i in db.fods
      ensures db.fods[i].hashes == t.hashes <==> i in {t.id} + Ids(ids)
      ensures !Listed(signatures, t.hashes)
    {
      ClassOfLive(db, signatures, t, i);
    }
    assert t.id in Analysed(db);
    DecideCoherent(db, signatures, t.hashes, {t.id} + Ids(ids), score, FinishReport(db, t, score, ids));
  }

  /** A task whose commit does not repeat its id in the finished table was live. */
  lemma FirstCommitIsLive(db: Db, t: Task, score: real, ids: seq<int>)
    requires t.id in Known(db) && FinishedOnce(FinishReport(db, t, score, ids).finished)
    ensures t.id in db.live && FinishedOnce(db.finished)
  {
    var rows := FinishReport(db, t, score, ids).finished;
    assert forall i | 0 <= i < |db.finished| :: rows[i] == db.finished[i];
    assert rows[|db.finished|] == Finished(t.id, t.sandboxId, false);
  }

  // ---------------------------------------------------------------- every regular atomic run

  /** Finished rows are only appended and hashes never change. */
  ghost predicate Extends(db: Db, db': Db) {
    && db.finished <= db'.finished
    && forall i | i in db.fods :: i in db'.fods && db'.fods[i].hashes == db.fods[i].hashes
  }

  lemma RegularAntitone(db: Db, db': Db)
    requires Extends(db, db') && Regular(db')
    ensures Regular(db)
  {
    assert forall i | 0 <= i < |db.finished| :: db'.finished[i] == db.finished[i];
    assert forall f | f in db.finished :: f in db'.finished;
  }

  lemma StepExtends(s: State, a: AtomicStep)
    requires AtomicEnabled(s, a)
    ensures Extends(s.db, AtomicApply(s, a).db)
  {
    match a
    case Submits(id, _, _, _) => NextIdIsFree(s.db, id);
    case Plain(step) => OtherSteps(s, step);
    case _ =>
  }

  lemma SameSignatures(s: State, step: Step)
    requires Enabled(s, step)
    ensures Apply(s, step).world.signatures == s.world.signatures
  {
    if step.Pend? && step.pend.RouteFailure? {
      var route := RouteOf(step.pend.task, step.pend.requeued);
      assert route.GiveUp? || route.Requeue? || route.SendBack?;
    }
  }

  /** What is kept along the run: the classes' invariant, coherence, and the signature table. */
  ghost predicate CoherentInv(s: State, signatures: set<Hashes>) {
    ClassInv(s) && Coherent(s.db, signatures) && s.world.signatures == signatures
  }

  lemma ReportStepCoherent(s: State, signatures: set<Hashes>, score: real, ids: seq<int>)
    requires CoherentInv(s, signatures) && Regular(s.db) && LogEnabled(s, ReadReport(score, ids))
    requires Regular(AtomicApply(s, Reports(score, ids)).db)
    ensures Coherent(AtomicApply(s, Reports(score, ids)).db, signatures)
  {
    HeadHashes(s);
    var t := s.logger.batch[0];
    FirstCommitIsLive(s.db, t, score, ids);
    ReportCoherent(s.db, signatures, t, score, ids);
  }

  lemma StepCoherent(s: State, signatures: set<Hashes>, a: AtomicStep)
    requires CoherentInv(s, signatures) && AtomicEnabled(s, a)
    requires Regular(s.db) && Regular(AtomicApply(s, a).db)
    ensures Coherent(AtomicApply(s, a).db, signatures)
  {
    match a
    case Submits(id, h, at, pick) =>
      NextIdIsFree(s.db, id);
      SubmissionCoherent(s.db, signatures, id, h, at, pick);
    case Overrides(id, verdict) => OverrideCoherent(s.db, signatures, id, verdict);
    case Reports(score, ids) => ReportStepCoherent(s, signatures, score, ids);
    case Aborts(next) => AbortShows(s.db, s.logger.batch[0], next);
    case Plain(step) => OtherSteps(s, step);
  }

  lemma AtomicSignatures(s: State, a: AtomicStep)
    requires AtomicEnabled(s, a)
    ensures AtomicApply(s, a).world.signatures == s.world.signatures
  {
    if a.Plain? {
      SameSignatures(s, a.step);
    }
  }

  lemma {:induction false} RunExtends(s: State, steps: seq<AtomicStep>)
    requires CanRunAtomic(s, steps)
    ensures Extends(s.db, RunAtomic(s, steps).db)
    decreases |steps|
  {
    if steps != [] {
      StepExtends(s, steps[0]);
      RunExtends(AtomicApply(s, steps[0]), steps[1..]);
    }
  }

  lemma {:induction false} RunCoherent(s: State, signatures: set<Hashes>, steps: seq<AtomicStep>)
    requires CoherentInv(s, signatures) && CanRunAtomic(s, steps) && Regular(RunAtomic(s, steps).db)
    ensures CoherentInv(RunAtomic(s, steps), signatures)
    decreases |steps|
  {
    if steps != [] {
      var s' := AtomicApply(s, steps[0]);
      RunExtends(s', steps[1..]);
      RegularAntitone(s'.db, RunAtomic(s, steps).db);
      StepExtends(s, steps[0]);
      RegularAntitone(s.db, s'.db);
      AtomicClasses(s, steps[0]);
      AtomicSignatures(s, steps[0]);
      StepCoherent(s, signatures, steps[0]);
      RunCoherent(s', signatures, steps[1..]);
    }
  }

  /** All rows of one file agree, whether reported, copied from the cache or overridden. */
  lemma CoherenceTheorem(signatures: set<Hashes>, steps: seq<AtomicStep>)
    requires CanRunAtomic(Init(signatures), steps) && Regular(RunAtomic(Init(signatures), steps).db)
    ensures CoherentInv(RunAtomic(Init(signatures), steps), signatures)
  {
    RunCoherent(Init(signatures), signatures, steps);
  }

  // ---------------------------------------------------------------- the firewall's question

  const FW_EMPTY := 0
  const FW_CLEAN := 1
  const FW_BLOCK := 2

  /** The firewall sends one digest of unknown kind, which is compared with every column. */
  function AnyColumn(digest: string): Hashes {
    Hashes(digest, digest, digest)
  }

  /**
   The signature table never changes; blocked rows are looked up in one state of the tables and allowed rows in
   another, later one.
   */
  function FileFromFirewall(earlier: Db, later: Db, signatures: set<Hashes>, hashed: string): int {
    var digest := TrimSpace(hashed);
    if |digest| > 0 then
      var isMalware := IsMalwareHash(earlier, signatures, AnyColumn(digest));
      var isClean := IsCleanHash(later, AnyColumn(digest));
      if isClean then FW_CLEAN else if isMalware then FW_BLOCK else FW_EMPTY
    else FW_EMPTY
  }

  /** All rows the question meets belong to one file. */
  ghost predicate OneFile(db: Db, question: Hashes) {
    forall i, j | i in db.fods && j in db.fods
      && Matches(db.fods[i].hashes, question) && Matches(db.fods[j].hashes, question) ::
      db.fods[i].hashes == db.fods[j].hashes
  }

  /** The verdict recorded for the file the question is about. */
  function FileVerdict(db: Db, question: Hashes): Verdict {
    if HasVerdict(db, question, Allow) then Allow
    else if HasVerdict(db, question, Block) then Block else NoVerdict
  }

  /** What the firewall should hear: the file's verdict, and for a file without one what the signature table says. */
  function RightAnswer(db: Db, signatures: set<Hashes>, question: Hashes): int {
    match FileVerdict(db, question)
    case Allow => FW_CLEAN
    case Block => FW_BLOCK
    case NoVerdict => if Listed(signatures, question) then FW_BLOCK else FW_EMPTY
  }

  lemma VerdictFound(db: Db, signatures: set<Hashes>, question: Hashes, id: int, v: Verdict)
    requires Coherent(db, signatures) && OneFile(db, question)
    requires id in db.fods && Matches(db.fods[id].hashes, question)
    ensures HasVerdict(db, question, v) <==> db.fods[id].verdict == v
  {
    if HasVerdict(db, question, v) {
      var k :| k in db.fods && Matches(db.fods[k].hashes, question) && db.fods[k].verdict == v;
      assert db.fods[id].hashes == db.fods[k].hashes;
    }
  }

  /** The verdict of the file is the verdict of each of its rows. */
  lemma FileVerdictIsRows(db: Db, signatures: set<Hashes>, question: Hashes, id: int)
    requires Coherent(db, signatures) && OneFile(db, question)
    requires id in db.fods && Matches(db.fods[id].hashes, question)
    ensures FileVerdict(db, question) == db.fods[id].verdict
  {
    VerdictFound(db, signatures, question, id, Allow);
    VerdictFound(db, signatures, question, id, Block);
  }

  /**
   The answer from two states is the right one for the first or for the second, if and only if an unlisted file
   was not overridden from allowed to blocked in between; then it is empty. From a single state it is right.
   */
  lemma FirewallExactly(earlier: Db, later: Db, signatures: set<Hashes>, hashed: string)
    requires Coherent(later, signatures) && OneFile(later, AnyColumn(TrimSpace(hashed))) && !Blank(hashed)
    requires Coherent(earlier, signatures) && OneFile(earlier, AnyColumn(TrimSpace(hashed)))
    ensures var question := AnyColumn(TrimSpace(hashed));
            var answer := FileFromFirewall(earlier, later, signatures, hashed);
            var overridden := FileVerdict(earlier, question) == Allow && FileVerdict(later, question) == Block
                              && !Listed(signatures, question);
            && (answer == RightAnswer(earlier, signatures, question)
                || answer == RightAnswer(later, signatures, question)
                <==> !overridden)
            && (overridden ==> answer == FW_EMPTY)
            && (FileVerdict(earlier, question) == FileVerdict(later, question) ==>
                  answer == RightAnswer(later, signatures, question))
  {
    TrimSpaceBlank(hashed);
    var question := AnyColumn(TrimSpace(hashed));
    BothVerdicts(earlier, signatures, question);
    BothVerdicts(later, signatures, question);
  }

  lemma BothVerdicts(db: Db, signatures: set<Hashes>, question: Hashes)
    requires Coherent(db, signatures) && OneFile(db, question)
    ensures !(HasVerdict(db, question, Allow) && HasVerdict(db, question, Block))
  {
    if HasVerdict(db, question, Allow) {
      var k :| k in db.fods && Matches(db.fods[k].hashes, question) && db.fods[k].verdict == Allow;
      VerdictFound(db, signatures, question, k, Block);
    }
  }

  lemma OneFileBefore(db: Db, db': Db, question: Hashes)
    requires Extends(db, db') && OneFile(db', question)
    ensures OneFile(db, question)
  {
    forall i, j | i in db.fods && j in db.fods
      && Matches(db.fods[i].hashes, question) && Matches(db.fods[j].hashes, question)
      ensures db.fods[i].hashes == db.fods[j].hashes
    {
      assert i in db'.fods && j in db'.fods;
    }
  }

  /**
   The same for any two states of a regular atomic run: the firewall hears the file's verdict of the one or the
   other lookup's moment, except when an unlisted file is overridden from allowed to blocked between them.
   */
  lemma FirewallTheorem(signatures: set<Hashes>, steps: seq<AtomicStep>, more: seq<AtomicStep>, hashed: string)
    requires CanRunAtomic(Init(signatures), steps) && CanRunAtomic(RunAtomic(Init(signatures), steps), more)
    requires Regular(RunAtomic(RunAtomic(Init(signatures), steps), more).db)
    requires OneFile(RunAtomic(RunAtomic(Init(signatures), steps), more).db, AnyColumn(TrimSpace(hashed)))
    requires !Blank(hashed)
    ensures var earlier := RunAtomic(Init(signatures), steps).db;
            var later := RunAtomic(RunAtomic(Init(signatures), steps), more).db;
            var question := AnyColumn(TrimSpace(hashed));
            var answer := FileFromFirewall(earlier, later, signatures, hashed);
            answer == RightAnswer(earlier, signatures, question) || answer == RightAnswer(later, signatures, question)
            <==> !(FileVerdict(earlier, question) == Allow && FileVerdict(later, question) == Block
                   && !Listed(signatures, question))
  {
    var s := RunAtomic(Init(signatures), steps);
    RunExtends(s, more);
    RegularAntitone(s.db, RunAtomic(s, more).db);
    CoherenceTheorem(signatures, steps);
    RunCoherent(s, signatures, more);
    OneFileBefore(s.db, RunAtomic(s, more).db, AnyColumn(TrimSpace(hashed)));
    FirewallExactly(s.db, RunAtomic(s, more).db, signatures, hashed);
  }

  /**
   The answer in full: 1 for a digest that some column of an allowed row has, else 2 if one of a listed file or of a
   blocked row has it, else 0; white space around the question does not matter.
   */
  lemma FirewallAnswers(earlier: Db, later: Db, signatures: set<Hashes>, hashed: string)
    ensures var d := TrimSpace(hashed);
            var allowed := exists k :: k in later.fods && Has(later.fods[k].hashes, d)
                                       && later.fods[k].verdict == Allow;
            var blocked := (exists g :: g in signatures && Has(g, d))
                           || exists k :: k in earlier.fods && Has(earlier.fods[k].hashes, d)
                                          && earlier.fods[k].verdict == Block;
            FileFromFirewall(earlier, later, signatures, hashed)
            == if Blank(hashed) then 0 else if allowed then 1 else if blocked then 2 else 0
  {
    TrimSpaceBlank(hashed);
    var d := TrimSpace(hashed);
    assert forall h: Hashes :: Matches(h, AnyColumn(d)) <==> Has(h, d);
  }

  predicate Has(h: Hashes, digest: string) {
    digest in {h.md5, h.sha, h.sha256}
  }

  /** A file nobody submitted is answered from the signature table alone, and a blank question never. */
  lemma FirewallUnknown(earlier: Db, later: Db, signatures: set<Hashes>, hashed: string)
    requires Extends(earlier, later)
    requires forall i | i in later.fods :: !Matches(later.fods[i].hashes, AnyColumn(TrimSpace(hashed)))
    ensures FileFromFirewall(earlier, later, signatures, hashed) ==
            if !Blank(hashed) && Listed(signatures, AnyColumn(TrimSpace(hashed))) then FW_BLOCK else FW_EMPTY
  {
    TrimSpaceBlank(hashed);
    forall i | i in earlier.fods ensures !Matches(earlier.fods[i].hashes, AnyColumn(TrimSpace(hashed))) {
      assert i in later.fods;
    }
  }

  // ---------------------------------------------------------------- where coherence ends

  /** An abort keeps the class coherent exactly when no duplicate is waiting for the task. */
  lemma AbortCoherentExactly(db: Db, signatures: set<Hashes>, t: Task, next: Option<int>)
    requires TablesOk(db) && OneLeader(db) && AllRecorded(db) && Separated(db.fods) && Coherent(db, signatures)
    requires t.id in db.live && db.live[t.id].hashes == Some(t.hashes)
    requires IsSmallest(next, MatchingDups(db, t.hashes))
    ensures Coherent(FinishAbort(db, t, next), signatures) <==> MatchingDups(db, t.hashes) == {}
  {
    var db' := FinishAbort(db, t, next);
    ClassOfLive(db, signatures, t, t.id);
    if next.Some? {
      var d := next.value;
      assert d in MatchingDups(db, t.hashes) && d in db.fods && d != t.id;
      ClassOfLive(db, signatures, t, d);
      assert db'.fods[d].hashes == db'.fods[t.id].hashes && db'.fods[d].verdict != db'.fods[t.id].verdict;
    } else {
      forall i | i in db.fods ensures db.fods[i].hashes == t.hashes <==> i in {t.id} {
        ClassOfLive(db, signatures, t, i);
      }
      DecideCoherent(db, signatures, t.hashes, {t.id}, 0.0, db');
    }
  }

  /** The class of i outside the decided rows, if it has any, already has the verdict. */
  ghost predicate AgreesOutside(db: Db, i: int, decided: set<int>, verdict: Verdict)
    requires i in db.fods
  {
    forall j | j in db.fods && j !in decided && db.fods[j].hashes == db.fods[i].hashes :: db.fods[j].verdict == verdict
  }

  /** Deciding some rows keeps coherence exactly when the rest of each of their classes has that verdict. */
  lemma DecideExactly(db: Db, signatures: set<Hashes>, decided: set<int>, score: real)
    requires Coherent(db, signatures) && forall i | i in decided :: i in db.fods
    ensures Coherent(db.(fods := DecideAll(db.fods, decided, score)), signatures)
       <==> forall i | i in decided :: AgreesOutside(db, i, decided, VerdictOf(score))
  {
    var db' := db.(fods := DecideAll(db.fods, decided, score));
    if Coherent(db', signatures) {
      forall i | i in decided ensures AgreesOutside(db, i, decided, VerdictOf(score)) {
        forall j | j in db.fods && j !in decided && db.fods[j].hashes == db.fods[i].hashes
          ensures db.fods[j].verdict == VerdictOf(score)
        {
          assert db'.fods[j] == db.fods[j] && db'.fods[i].hashes == db.fods[i].hashes;
          assert db'.fods[j].verdict == db'.fods[i].verdict;
        }
      }
    }
    if forall i | i in decided :: AgreesOutside(db, i, decided, VerdictOf(score)) {
      forall i, j | i in db'.fods && j in db'.fods && db'.fods[i].hashes == db'.fods[j].hashes
        ensures db'.fods[i].verdict == db'.fods[j].verdict
      {
        if i in decided && j !in decided {
          assert AgreesOutside(db, i, decided, VerdictOf(score));
        } else if j in decided && i !in decided {
          assert AgreesOutside(db, j, decided, VerdictOf(score));
        }
      }
    }
  }

  /** A finished task has a verdict, and the duplicates that match it have none. */
  lemma AlreadyFinished(db: Db, signatures: set<Hashes>, t: Task, ids: seq<int>)
    requires TablesOk(db) && Coherent(db, signatures) && t.id in FinishedIds(db.finished)
    requires Enumerates(ids, MatchingDups(db, t.hashes))
    ensures t.id in db.fods && !db.fods[t.id].verdict.NoVerdict?
    ensures forall d | d in ids :: d in db.dups && d in db.fods && db.fods[d].verdict.NoVerdict?
  {
    assert t.id in Analysed(db) && !Undecided(db, t.id);
    forall d | d in ids ensures d in db.dups && d in db.fods && db.fods[d].verdict.NoVerdict? {
      assert d in MatchingDups(db, t.hashes) && d in Analysed(db);
      assert Undecided(db, d);
    }
  }

  lemma FinishedExactly(db: Db, signatures: set<Hashes>, t: Task, score: real, ids: seq<int>)
    requires Coherent(db, signatures) && t.id in db.fods && !db.fods[t.id].verdict.NoVerdict?
    requires forall d | d in ids :: d in db.fods && db.fods[d].verdict.NoVerdict?
    ensures Coherent(FinishReport(db, t, score, ids), signatures) <==>
            && (forall j | j in db.fods && j != t.id && db.fods[j].hashes == db.fods[t.id].hashes ::
                  db.fods[j].verdict == VerdictOf(score))
            && (forall d, j | d in ids && d in db.fods && j in db.fods && db.fods[j].hashes == db.fods[d].hashes ::
                  j in ids)
  {
    var decided := {t.id} + Ids(ids);
    DecideExactly(db, signatures, decided, score);
    var db' := FinishReport(db, t, score, ids);
    assert Coherent(db', signatures) <==> Coherent(db.(fods := DecideAll(db.fods, decided, score)), signatures);
    assert AgreesOutside(db, t.id, decided, VerdictOf(score)) <==>
        forall j | j in db.fods && j != t.id && db.fods[j].hashes == db.fods[t.id].hashes ::
          db.fods[j].verdict == VerdictOf(score);
    forall d | d in ids
      ensures AgreesOutside(db, d, decided, VerdictOf(score)) <==>
              forall j | j in db.fods && db.fods[j].hashes == db.fods[d].hashes :: j in ids
    {
      DuplicateAlone(db, signatures, t.id, d, ids, score);
    }
  }

  /**
   A report of a task that is already finished, with whatever duplicates its own hashes match: it keeps coherence
   exactly when the other rows of the task's file have the new verdict and the duplicates it decides are all rows
   of their files.
   */
  lemma RepeatedReportCoherentExactly(db: Db, signatures: set<Hashes>, t: Task, score: real, ids: seq<int>)
    requires TablesOk(db) && Coherent(db, signatures) && t.id in FinishedIds(db.finished)
    requires Enumerates(ids, MatchingDups(db, t.hashes))
    ensures Coherent(FinishReport(db, t, score, ids), signatures) <==>
            && (forall j | j in db.fods && j != t.id && db.fods[j].hashes == db.fods[t.id].hashes ::
                  db.fods[j].verdict == VerdictOf(score))
            && (forall d, j | d in ids && d in db.fods && j in db.fods && db.fods[j].hashes == db.fods[d].hashes ::
                  j in ids)
  {
    AlreadyFinished(db, signatures, t, ids);
    FinishedExactly(db, signatures, t, score, ids);
  }

  lemma DuplicateAlone(db: Db, signatures: set<Hashes>, t: int, d: int, ids: seq<int>, score: real)
    requires Coherent(db, signatures) && t in db.fods && d in ids && d in db.fods
    requires db.fods[d].verdict.NoVerdict? && !db.fods[t].verdict.NoVerdict?
    ensures AgreesOutside(db, d, {t} + Ids(ids), VerdictOf(score)) <==>
            forall j | j in db.fods && db.fods[j].hashes == db.fods[d].hashes :: j in ids
  {
    assert forall j | j in db.fods && db.fods[j].hashes == db.fods[d].hashes :: db.fods[j].verdict.NoVerdict?;
  }
}
