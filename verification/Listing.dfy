/**
 The list of all submissions that the user sees: four query results, appended and sorted by descending id. Each
 query is a transaction of its own, so the four results come from four states of one run.
 */
module Listing {
  import opened Records
  import opened Database
  import opened Transactions
  import opened Lookups
  import opened Machine
  import opened Conservation
  import opened HashClasses
  import opened Atomic
  import opened Coherence
  import opened Runs

  datatype Label = PreviouslyScanned | InAnalysis(status: Status) | Done | Waiting

  datatype Shown = Shown(id: int, rating: Rating, verdict: Verdict, score: real, overridden: bool, shownAs: Label)

  function Show(db: Db, id: int, shownAs: Label): Shown
    requires id in db.fods
  {
    var f := db.fods[id];
    Shown(id, f.rating, f.verdict, f.score, f.overridden, shownAs)
  }

  function IdsOf(rows: seq<Shown>): (ids: seq<int>)
    ensures |ids| == |rows|
    ensures forall i | 0 <= i < |rows| :: ids[i] == rows[i].id
  {
    seq(|rows|, i requires 0 <= i < |rows| => rows[i].id)
  }

  function FinishedSeq(rows: seq<Finished>): (ids: seq<int>)
    ensures |ids| == |rows|
    ensures forall i | 0 <= i < |rows| :: ids[i] == rows[i].id
  {
    seq(|rows|, i requires 0 <= i < |rows| => rows[i].id)
  }

  // ---------------------------------------------------------------- the four queries

  /** What a query returns: one row for each id of the bag, in any order, with the columns of its submission. */
  ghost predicate IsResult(db: Db, rows: seq<Shown>, bag: multiset<int>, cached: bool) {
    && multiset(IdsOf(rows)) == bag
    && forall r | r in rows ::
         r.id in db.fods && r == Show(db, r.id, r.shownAs) && (r.shownAs.PreviouslyScanned? <==> cached)
  }

  ghost function CachedIds(db: Db): set<int> {
    set id | id in db.fods && db.fods[id].cached
  }

  /** The four results, each from the tables of its own moment. */
  datatype Results = Results(cached: seq<Shown>, live: seq<Shown>, finished: seq<Shown>, dups: seq<Shown>)

  ghost predicate AreResults(r: Results, db1: Db, db2: Db, db3: Db, db4: Db) {
    && IsResult(db1, r.cached, multiset(CachedIds(db1)), true)
    && IsResult(db2, r.live, multiset(db2.live.Keys), false)
    && IsResult(db3, r.finished, multiset(FinishedSeq(db3.finished)), false)
    && IsResult(db4, r.dups, multiset(db4.dups.Keys), false)
    && (forall x | x in r.live :: x.id in db2.live && x.shownAs == InAnalysis(db2.live[x.id].status))
    && (forall x | x in r.finished :: x.shownAs == Done)
    && (forall x | x in r.dups :: x.shownAs == Waiting)
  }

  /** The list is sorted and holds the ids of the four results. */
  ghost predicate IsList(list: seq<Shown>, r: Results) {
    && Descending(list)
    && multiset(IdsOf(list)) == multiset(IdsOf(r.cached)) + multiset(IdsOf(r.live)) + multiset(IdsOf(r.finished))
                                + multiset(IdsOf(r.dups))
  }

  // ---------------------------------------------------------------- append and sort

  predicate Descending(rows: seq<Shown>) {
    forall i, j | 0 <= i < j < |rows| :: rows[i].id >= rows[j].id
  }

  lemma SplitBags(a: seq<Shown>, x: Shown, b: seq<Shown>)
    ensures multiset(a + [x] + b) == multiset(a + b) + multiset{x}
    ensures multiset(IdsOf(a + [x] + b)) == multiset(IdsOf(a + b)) + multiset{x.id}
  {
    assert IdsOf(a + [x] + b) == IdsOf(a) + [x.id] + IdsOf(b);
    assert IdsOf(a + b) == IdsOf(a) + IdsOf(b);
  }

  method Insert(rows: seq<Shown>, x: Shown) returns (r: seq<Shown>)
    requires Descending(rows)
    ensures Descending(r)
    ensures multiset(r) == multiset(rows) + multiset{x}
    ensures multiset(IdsOf(r)) == multiset(IdsOf(rows)) + multiset{x.id}
  {
    var k := 0;
    while k < |rows| && rows[k].id >= x.id
      invariant 0 <= k <= |rows| && forall i | 0 <= i < k :: rows[i].id >= x.id
    {
      k := k + 1;
    }
    r := rows[..k] + [x] + rows[k..];
    SplitBags(rows[..k], x, rows[k..]);
    assert rows[..k] + rows[k..] == rows;
  }

  method SortByIdDescending(rows: seq<Shown>) returns (r: seq<Shown>)
    ensures Descending(r)
    ensures multiset(r) == multiset(rows) && multiset(IdsOf(r)) == multiset(IdsOf(rows))
  {
    r := [];
    for i := 0 to |rows|
      invariant Descending(r)
      invariant multiset(r) == multiset(rows[..i]) && multiset(IdsOf(r)) == multiset(IdsOf(rows[..i]))
    {
      SplitBags(rows[..i], rows[i], []);
      assert rows[..i + 1] == rows[..i] + [rows[i]] + [] && rows[..i] + [] == rows[..i];
      r := Insert(r, rows[i]);
    }
    assert rows[..|rows|] == rows;
  }

  method FetchAllFods(cached: seq<Shown>, live: seq<Shown>, finished: seq<Shown>, dups: seq<Shown>)
    returns (fods: seq<Shown>)
    ensures Descending(fods)
    ensures multiset(fods) == multiset(cached) + multiset(live) + multiset(finished) + multiset(dups)
    ensures multiset(IdsOf(fods))
         == multiset(IdsOf(cached)) + multiset(IdsOf(live)) + multiset(IdsOf(finished)) + multiset(IdsOf(dups))
  {
    fods := cached;
    fods := fods + live;
    assert IdsOf(fods) == IdsOf(cached) + IdsOf(live);
    ghost var two := fods;
    fods := fods + finished;
    assert IdsOf(fods) == IdsOf(two) + IdsOf(finished);
    ghost var three := fods;
    fods := fods + dups;
    assert IdsOf(fods) == IdsOf(three) + IdsOf(dups);
    fods := SortByIdDescending(fods);
  }

  // ---------------------------------------------------------------- complete, and without repetition exactly when

  ghost predicate Once(bag: multiset<int>) {
    forall x :: bag[x] <= 1
  }

  predicate Distinct(s: seq<int>) {
    forall i, j | 0 <= i < j < |s| :: s[i] != s[j]
  }

  lemma {:induction false} OnceIsDistinct(s: seq<int>)
    requires Once(multiset(s))
    ensures Distinct(s)
  {
    if s != [] {
      var rest := s[1..];
      var bag := multiset(s);
      var first := s[0];
      assert bag[first] <= 1;
      assert bag == multiset{first} + multiset(rest) by { assert s == [first] + rest; }
      assert multiset(rest)[first] == 0;
      assert forall x :: multiset(rest)[x] <= bag[x];
      OnceIsDistinct(rest);
      assert forall i, j | 0 <= i < j < |s| :: s[j] == rest[j - 1] && (i > 0 ==> s[i] == rest[i - 1]);
    }
  }

  lemma {:induction false} DistinctIsOnce(s: seq<int>)
    requires Distinct(s)
    ensures Once(multiset(s))
  {
    if s != [] {
      var rest := s[1..];
      assert s == [s[0]] + rest;
      assert multiset(s) == multiset{s[0]} + multiset(rest);
      DistinctIsOnce(rest);
      assert s[0] !in rest;
    }
  }

  /** A sequence repeats nothing exactly when its bag holds everything at most once. */
  lemma NoRepeat(s: seq<int>)
    ensures Distinct(s) <==> Once(multiset(s))
  {
    if Distinct(s) { DistinctIsOnce(s); }
    if Once(multiset(s)) { OnceIsDistinct(s); }
  }

  lemma FinishedBag(rows: seq<Finished>, id: int)
    ensures id in multiset(FinishedSeq(rows)) <==> id in FinishedIds(rows)
  {
    if id in FinishedIds(rows) {
      var f :| f in rows && f.id == id;
      var i :| 0 <= i < |rows| && rows[i] == f;
      assert FinishedSeq(rows)[i] == id;
    }
    if id in FinishedSeq(rows) {
      var i :| 0 <= i < |rows| && FinishedSeq(rows)[i] == id;
      assert rows[i] in rows;
    }
  }

  lemma StrictlyDescending(list: seq<Shown>)
    requires Descending(list)
    ensures (forall i, j | 0 <= i < j < |list| :: list[i].id > list[j].id) <==> Once(multiset(IdsOf(list)))
  {
    NoRepeat(IdsOf(list));
    assert forall i | 0 <= i < |list| :: IdsOf(list)[i] == list[i].id;
  }

  lemma FinishedOnceBag(rows: seq<Finished>)
    ensures FinishedOnce(rows) <==> Once(multiset(FinishedSeq(rows)))
  {
    NoRepeat(FinishedSeq(rows));
    assert forall i | 0 <= i < |rows| :: FinishedSeq(rows)[i] == rows[i].id;
  }

  // ---------------------------------------------------------------- what a run does to the tables

  /** Submissions stay and keep their kind, finished rows are only added, and what is known stays known. */
  ghost predicate Follows(db: Db, db': Db) {
    && (forall id | id in db.fods :: id in db'.fods && db'.fods[id].cached == db.fods[id].cached)
    && db.finished <= db'.finished
    && Known(db) <= Known(db')
  }

  lemma FinishedGrow(a: seq<Finished>, b: seq<Finished>)
    requires a <= b
    ensures FinishedIds(a) <= FinishedIds(b)
  {
    assert b == a + b[|a|..];
    FinishedIdsAppend(a, b[|a|..]);
  }

  lemma CommitFollows(s: State)
    requires Inv(s) && LogEnabled(s, Commit)
    ensures Follows(s.db, LogApply(s, Commit).db)
  {
    match s.logger.phase
    case Reporting(t, score, ids) => ReportPartition(s.db, t, score, ids);
    case Aborting(t, next) => AbortPartition(s.db, t, next);
  }

  lemma AskFollows(s: State, step: AskStep)
    requires Inv(s) && AskEnabled(s, step)
    ensures Follows(s.db, AskApply(s, step).db)
    ensures s.db.live.Keys <= AskApply(s, step).db.live.Keys && s.db.dups.Keys <= AskApply(s, step).db.dups.Keys
    ensures AskApply(s, step).db.finished == s.db.finished
  {
    if step.Insert? || step.WriteOverride? {
      if Accepts(s.db, EntryOf(step.asking)) {
        EnterFollows(s.db, EntryOf(step.asking));
      }
    } else {
      assert AskApply(s, step).db == s.db;
    }
  }

  lemma EnterFollows(db: Db, entry: Entry)
    requires TablesOk(db) && Accepts(db, entry)
    ensures Follows(db, Enter(db, entry))
    ensures db.live.Keys <= Enter(db, entry).live.Keys && db.dups.Keys <= Enter(db, entry).dups.Keys
    ensures Enter(db, entry).finished == db.finished
  {
  }

  lemma StepFollows(s: State, step: Step)
    requires Inv(s) && Enabled(s, step)
    ensures Follows(s.db, Apply(s, step).db)
  {
    if step.Ask? {
      AskFollows(s, step.ask);
    } else if step == Log(Commit) {
      CommitFollows(s);
    } else {
      OtherSteps(s, step);
    }
  }

  lemma {:induction false} RunFollows(s: State, steps: seq<Step>)
    requires Inv(s) && CanRun(s, steps)
    ensures Follows(s.db, Run(s, steps).db) && Inv(Run(s, steps))
    decreases |steps|
  {
    if steps != [] {
      StepKeeps(s, steps[0]);
      StepFollows(s, steps[0]);
      RunFollows(Apply(s, steps[0]), steps[1..]);
      FollowsOn(s.db, Apply(s, steps[0]).db, Run(s, steps).db);
    }
  }

  lemma FollowsOn(a: Db, b: Db, c: Db)
    requires Follows(a, b) && Follows(b, c)
    ensures Follows(a, c)
  {
  }

  // ---------------------------------------------------------------- what is missed and what is repeated, exactly

  /** How often an id is in the four results. */
  ghost function Times(id: int, db1: Db, db2: Db, db3: Db, db4: Db): nat {
    multiset(CachedIds(db1))[id] + multiset(db2.live.Keys)[id] + multiset(FinishedSeq(db3.finished))[id]
    + multiset(db4.dups.Keys)[id]
  }

  /** An id that was submitted before the first query. */
  lemma TimesExactly(id: int, db1: Db, db2: Db, db3: Db, db4: Db)
    requires TablesOk(db1) && TablesOk(db2) && TablesOk(db3) && TablesOk(db4)
    requires Follows(db1, db2) && Follows(db2, db3) && Follows(db3, db4)
    ensures Times(id, db1, db2, db3, db4) > 0 ==> id in db4.fods
    ensures id in db1.fods ==>
              (Times(id, db1, db2, db3, db4) == 0 <==>
               id in db2.dups && id !in FinishedIds(db3.finished) && id !in db4.dups)
    ensures Times(id, db1, db2, db3, db4) > 1 <==>
              (id in db2.live && id in FinishedIds(db3.finished)) || multiset(FinishedSeq(db3.finished))[id] > 1
  {
    FinishedBag(db3.finished, id);
    FinishedGrow(db2.finished, db3.finished);
    FinishedGrow(db3.finished, db4.finished);
    Analysis(db1, id);
    Analysis(db2, id);
    Analysis(db3, id);
    Analysis(db4, id);
  }

  lemma Analysis(db: Db, id: int)
    requires Partition(db)
    ensures id in db.fods && !db.fods[id].cached <==> id in db.live || id in db.dups || id in FinishedIds(db.finished)
    ensures id in CachedIds(db) <==> id in db.fods && db.fods[id].cached
    ensures id in db.dups ==> id !in Known(db)
  {
    assert id in Analysed(db) <==> id in db.fods && !db.fods[id].cached;
  }

  lemma ListedExactly(db1: Db, db2: Db, db3: Db, db4: Db, r: Results, list: seq<Shown>, id: int)
    requires TablesOk(db1) && TablesOk(db2) && TablesOk(db3) && TablesOk(db4)
    requires Follows(db1, db2) && Follows(db2, db3) && Follows(db3, db4)
    requires AreResults(r, db1, db2, db3, db4) && IsList(list, r)
    ensures id in IdsOf(list) ==> id in db4.fods
    ensures id in db1.fods ==>
              (id !in IdsOf(list) <==> id in db2.dups && id !in FinishedIds(db3.finished) && id !in db4.dups)
    ensures multiset(IdsOf(list))[id] > 1 <==>
              (id in db2.live && id in FinishedIds(db3.finished)) || multiset(FinishedSeq(db3.finished))[id] > 1
  {
    TimesExactly(id, db1, db2, db3, db4);
    assert multiset(IdsOf(list))[id] == Times(id, db1, db2, db3, db4);
    assert id in IdsOf(list) <==> id in multiset(IdsOf(list));
  }

  lemma FourStates(s: State, a: seq<Step>, b: seq<Step>, c: seq<Step>)
    requires Reachable(s) && CanRun(s, a) && CanRun(Run(s, a), b) && CanRun(Run(Run(s, a), b), c)
    ensures var s2 := Run(s, a);
            var s3 := Run(s2, b);
            var s4 := Run(s3, c);
            && Inv(s) && Inv(s2) && Inv(s3) && Inv(s4)
            && Follows(s.db, s2.db) && Follows(s2.db, s3.db) && Follows(s3.db, s4.db)
  {
    ReachableInv(s);
    RunFollows(s, a);
    RunFollows(Run(s, a), b);
    RunFollows(Run(Run(s, a), b), c);
  }

  /**
   The four queries run with anything else in between. Only submissions are listed. Of those made before the first
   query exactly the ones are missed that were duplicates at the second query, had not been finished by the third
   and were no longer duplicates at the fourth: promoted meanwhile, or reported between the last two. Listed more
   than once are exactly the tasks live at the second query and finished by the third, and those finished twice.
   */
  lemma ListingTheorem(s: State, a: seq<Step>, b: seq<Step>, c: seq<Step>, r: Results, list: seq<Shown>, id: int)
    requires Reachable(s) && CanRun(s, a) && CanRun(Run(s, a), b) && CanRun(Run(Run(s, a), b), c)
    requires AreResults(r, s.db, Run(s, a).db, Run(Run(s, a), b).db, Run(Run(Run(s, a), b), c).db) && IsList(list, r)
    ensures var s2 := Run(s, a);
            var s3 := Run(s2, b);
            var s4 := Run(s3, c);
            && (id in IdsOf(list) ==> id in s4.db.fods)
            && (id in s.db.fods ==>
                  (id !in IdsOf(list) <==>
                   id in s2.db.dups && id !in FinishedIds(s3.db.finished) && id !in s4.db.dups))
            && (multiset(IdsOf(list))[id] > 1 <==>
                (id in s2.db.live && id in FinishedIds(s3.db.finished))
                || multiset(FinishedSeq(s3.db.finished))[id] > 1)
  {
    FourStates(s, a, b, c);
    ListedExactly(s.db, Run(s, a).db, Run(Run(s, a), b).db, Run(Run(Run(s, a), b), c).db, r, list, id);
  }

  // ---------------------------------------------------------------- without a commit in between

  /** Nothing leaves a table. */
  ghost predicate Stays(db: Db, db': Db) {
    db.live.Keys <= db'.live.Keys && db.dups.Keys <= db'.dups.Keys && db'.finished == db.finished
  }

  lemma {:induction false} RunStays(s: State, steps: seq<Step>)
    requires Inv(s) && CanRun(s, steps) && Log(Commit) !in steps
    ensures Stays(s.db, Run(s, steps).db)
    decreases |steps|
  {
    if steps != [] {
      assert steps[0] in steps;
      StepKeeps(s, steps[0]);
      if steps[0].Ask? {
        AskFollows(s, steps[0].ask);
      } else {
        OtherSteps(s, steps[0]);
      }
      RunStays(Apply(s, steps[0]), steps[1..]);
    }
  }

  /**
   While the log handler commits nothing, every submission made before is listed, and the list repeats nothing if
   and only if no task was finished twice; then it is strictly descending.
   */
  lemma QuietListing(s: State, a: seq<Step>, b: seq<Step>, c: seq<Step>, r: Results, list: seq<Shown>)
    requires Reachable(s) && CanRun(s, a) && CanRun(Run(s, a), b) && CanRun(Run(Run(s, a), b), c)
    requires Log(Commit) !in a && Log(Commit) !in b && Log(Commit) !in c
    requires AreResults(r, s.db, Run(s, a).db, Run(Run(s, a), b).db, Run(Run(Run(s, a), b), c).db) && IsList(list, r)
    ensures forall id | id in s.db.fods :: id in IdsOf(list)
    ensures FinishedOnce(s.db.finished) <==> forall i, j | 0 <= i < j < |list| :: list[i].id > list[j].id
  {
    FourStates(s, a, b, c);
    var s2, s3, s4 := Run(s, a), Run(Run(s, a), b), Run(Run(Run(s, a), b), c);
    RunStays(s, a);
    RunStays(s2, b);
    RunStays(s3, c);
    QuietExactly(s.db, s2.db, s3.db, s4.db, r, list);
  }

  lemma QuietExactly(db1: Db, db2: Db, db3: Db, db4: Db, r: Results, list: seq<Shown>)
    requires TablesOk(db1) && TablesOk(db2) && TablesOk(db3) && TablesOk(db4)
    requires Follows(db1, db2) && Follows(db2, db3) && Follows(db3, db4)
    requires Stays(db1, db2) && Stays(db2, db3) && Stays(db3, db4)
    requires AreResults(r, db1, db2, db3, db4) && IsList(list, r)
    ensures forall id | id in db1.fods :: id in IdsOf(list)
    ensures FinishedOnce(db1.finished) <==> forall i, j | 0 <= i < j < |list| :: list[i].id > list[j].id
  {
    var bag, done := multiset(IdsOf(list)), multiset(FinishedSeq(db1.finished));
    forall id
      ensures id in db1.fods ==> id in IdsOf(list)
      ensures bag[id] > 1 <==> done[id] > 1
    {
      ListedExactly(db1, db2, db3, db4, r, list, id);
      Analysis(db2, id);
    }
    assert Once(bag) <==> Once(done);
    StrictlyDescending(list);
    FinishedOnceBag(db1.finished);
  }

  lemma IdListed(rows: seq<Shown>, r: Shown)
    requires r in rows
    ensures r.id in IdsOf(rows)
  {
    var i :| 0 <= i < |rows| && rows[i] == r;
    assert IdsOf(rows)[i] == r.id;
  }

  /** The columns shown are those of the submission. */
  predicate Columns(db: Db, x: Shown) {
    && x.id in db.fods && x.rating == db.fods[x.id].rating && x.verdict == db.fods[x.id].verdict
    && x.score == db.fods[x.id].score && x.overridden == db.fods[x.id].overridden
  }

  lemma CachedLabel(db: Db, rows: seq<Shown>, x: Shown)
    requires TablesOk(db) && IsResult(db, rows, multiset(CachedIds(db)), true) && x in rows
    ensures x.shownAs.PreviouslyScanned? && db.fods[x.id].cached && !x.rating.NoRating? && Columns(db, x)
  {
    IdListed(rows, x);
    assert x.id in multiset(CachedIds(db));
    Analysis(db, x.id);
  }

  lemma FinishedLabel(db: Db, rows: seq<Shown>, x: Shown)
    requires TablesOk(db) && IsResult(db, rows, multiset(FinishedSeq(db.finished)), false) && x in rows
    ensures x.id in FinishedIds(db.finished) && !x.rating.NoRating? && Columns(db, x)
  {
    IdListed(rows, x);
    assert x.id in multiset(FinishedSeq(db.finished));
    FinishedBag(db.finished, x.id);
    Analysis(db, x.id);
  }

  lemma WaitingLabel(db: Db, rows: seq<Shown>, x: Shown)
    requires TablesOk(db) && IsResult(db, rows, multiset(db.dups.Keys), false) && x in rows
    ensures x.id in db.dups && x.rating.NoRating? && Columns(db, x)
  {
    IdListed(rows, x);
    assert x.id in multiset(db.dups.Keys);
  }

  lemma LiveLabel(db: Db, rows: seq<Shown>, x: Shown)
    requires TablesOk(db) && IsResult(db, rows, multiset(db.live.Keys), false) && x in rows && x.id in db.live
    ensures x.rating.NoRating? && Columns(db, x)
  {
  }

  /** A row's label says in which table its task was when its query ran; undecided labels go with an empty rating. */
  lemma LabelsAreExact(s1: State, s2: State, s3: State, s4: State, r: Results, x: Shown)
    requires Reachable(s1) && Reachable(s2) && Reachable(s3) && Reachable(s4)
    requires AreResults(r, s1.db, s2.db, s3.db, s4.db) && x in r.cached + r.live + r.finished + r.dups
    ensures match x.shownAs
            case PreviouslyScanned => Columns(s1.db, x) && s1.db.fods[x.id].cached
            case InAnalysis(status) => Columns(s2.db, x) && x.id in s2.db.live && s2.db.live[x.id].status == status
            case Done => Columns(s3.db, x) && x.id in FinishedIds(s3.db.finished)
            case Waiting => Columns(s4.db, x) && x.id in s4.db.dups
    ensures x.shownAs.Waiting? || x.shownAs.InAnalysis? <==> x.rating.NoRating?
  {
    if x in r.cached {
      ReachableInv(s1);
      CachedLabel(s1.db, r.cached, x);
    } else if x in r.live {
      ReachableInv(s2);
      LiveLabel(s2.db, r.live, x);
    } else if x in r.finished {
      ReachableInv(s3);
      FinishedLabel(s3.db, r.finished, x);
    } else {
      ReachableInv(s4);
      WaitingLabel(s4.db, r.dups, x);
    }
  }
}
