/**
 Submissions grouped by their hashes. A submission is answered from a decided row of the same file, follows a
 live row of the same file, or becomes a live row itself. What is said of runs holds of every fine-grained one.
 */
module HashClasses {
  import opened Records
  import opened Database
  import opened Transactions
  import opened Lookups
  import opened Machine
  import opened Conservation
  import opened Runs

  // ---------------------------------------------------------------- one live row per file, in every run

  /** No two live rows recorded a common hash. */
  ghost predicate OneLeader(db: Db) {
    forall i, j | i in db.live && j in db.live && i != j && db.live[i].hashes.Some? && db.live[j].hashes.Some? ::
      !Matches(db.live[i].hashes.value, db.live[j].hashes.value)
  }

  /** All ids below are in use. */
  ghost predicate Filled(db: Db, id: int) {
    forall k | 1 <= k < id :: k in db.fods
  }

  ghost predicate Dense(db: Db) {
    forall id | id in db.fods :: id >= 1 && Filled(db, id)
  }

  /**
   A request that found no live row may still rely on it as long as its id is free: any submission in between
   would have taken that id.
   */
  ghost predicate DeskLeads(db: Db, desk: multiset<Asking>) {
    forall a | a in desk && !a.Overriding? ::
      && Filled(db, a.id)
      && (a.Counted? && !a.leader && a.id !in db.fods ==> !HasLeader(db, a.hashes))
  }

  ghost predicate LeaderInv(s: State) {
    Dense(s.db) && DeskLeads(s.db, s.desk) && OneLeader(s.db)
  }

  /** No submission is added and no live row gets hashes. */
  ghost predicate NoNewLeader(db: Db, db': Db) {
    && db'.fods.Keys == db.fods.Keys
    && forall id | id in db'.live && db'.live[id].hashes.Some? ::
         id in db.live && db'.live[id].hashes == db.live[id].hashes
  }

  lemma NoNewLeaderKeeps(s: State, s': State)
    requires LeaderInv(s) && NoNewLeader(s.db, s'.db) && s'.desk <= s.desk
    ensures LeaderInv(s')
  {
    forall a | a in s'.desk && !a.Overriding?
      ensures Filled(s'.db, a.id)
      ensures a.Counted? && !a.leader && a.id !in s'.db.fods ==> !HasLeader(s'.db, a.hashes)
    {
      assert a in s.desk;
      if a.Counted? && HasLeader(s'.db, a.hashes) {
        var l :| l in s'.db.live && s'.db.live[l].hashes.Some? && Matches(s'.db.live[l].hashes.value, a.hashes);
        assert l in s.db.live && s.db.live[l].hashes == s'.db.live[l].hashes;
      }
    }
    forall id | id in s'.db.fods ensures id >= 1 && Filled(s'.db, id) {
      assert id in s.db.fods && Filled(s.db, id);
    }
  }

  lemma NumberLeads(s: State, id: int, h: Hashes, at: int)
    requires LeaderInv(s) && AskEnabled(s, Number(id, h, at))
    ensures LeaderInv(AskApply(s, Number(id, h, at)))
  {
    assert Filled(s.db, id) by {
      if s.db.fods.Keys != {} {
        assert Filled(s.db, id - 1);
      }
    }
    var desk := AskApply(s, Number(id, h, at)).desk;
    assert forall a | a in desk :: a in s.desk || a == Numbered(id, h, at);
  }

  lemma DeskSwapLeads(db: Db, desk: multiset<Asking>, a: Asking, next: Asking)
    requires DeskLeads(db, desk) && a in desk && !a.Overriding? && !next.Overriding? && next.id == a.id
    requires next.Counted? ==> next.leader == HasLeader(db, next.hashes)
    ensures DeskLeads(db, desk - multiset{a} + multiset{next})
  {
    assert Filled(db, a.id);
    assert forall b | b in desk - multiset{a} + multiset{next} :: b in desk || b == next;
  }

  lemma LearnLeads(s: State, step: AskStep)
    requires LeaderInv(s) && AskEnabled(s, step)
    requires step.LookClean? || step.LookMalware? || step.PickRow? || step.CountLive?
    ensures LeaderInv(AskApply(s, step))
  {
    DeskSwapLeads(s.db, s.desk, step.asking, Learned(s, step.asking, step));
  }

  /** Two requests whose ids are both free hold the same id. */
  lemma FreeIdsAgree(db: Db, i: int, j: int)
    requires Filled(db, i) && Filled(db, j) && i > 0 && j > 0 && i !in db.fods && j !in db.fods
    ensures i == j
  {
  }

  lemma CloseLeads(s: State, a: Asking)
    requires Inv(s) && LeaderInv(s) && a in s.desk && Ready(a)
    ensures LeaderInv(Close(s, a))
  {
    var s' := Close(s, a);
    assert forall b | b in s'.desk :: b in s.desk;
    if a.Overriding? || !Accepts(s.db, EntryOf(a)) {
      NoNewLeaderKeeps(s, s');
    } else {
      assert AskingOk(a) && Filled(s.db, a.id);
      assert s'.db.fods.Keys == s.db.fods.Keys + {a.id};
      forall b | b in s'.desk && !b.Overriding?
        ensures Filled(s'.db, b.id)
        ensures b.Counted? && !b.leader ==> b.id in s'.db.fods || !HasLeader(s'.db, b.hashes)
      {
        assert b in s.desk && AskingOk(b) && Filled(s.db, b.id);
        if b.id !in s.db.fods {
          FreeIdsAgree(s.db, a.id, b.id);
        }
      }
      forall id | id in s'.db.fods ensures id >= 1 && Filled(s'.db, id) {
        assert id == a.id || Filled(s.db, id);
      }
      InsertOneLeader(s, a);
    }
  }

  lemma InsertOneLeader(s: State, a: Asking)
    requires LeaderInv(s) && a in s.desk && (a.Answered? || a.Counted?) && a.id !in s.db.fods
    ensures OneLeader(Enter(s.db, EntryOf(a)))
  {
    if a.Counted? && !a.leader {
      assert !HasLeader(s.db, a.hashes);
      forall i | i in s.db.live && s.db.live[i].hashes.Some?
        ensures !Matches(s.db.live[i].hashes.value, a.hashes)
      {
      }
    }
  }

  lemma AskLeads(s: State, step: AskStep)
    requires Inv(s) && LeaderInv(s) && AskEnabled(s, step)
    ensures LeaderInv(AskApply(s, step))
  {
    match step
    case Number(id, h, at) => NumberLeads(s, id, h, at);
    case LookClean(_) | LookMalware(_) | PickRow(_, _) | CountLive(_) => LearnLeads(s, step);
    case Insert(a) => CloseLeads(s, a);
    case ReadOverride(id, v) =>
      assert forall b | b in AskApply(s, step).desk :: b in s.desk || b == Overriding(s.db.fods[id].hashes, v);
    case WriteOverride(a) => CloseLeads(s, a);
  }

  // ---------------------------------------------------------------- steps that leave the classes alone

  ghost predicate SameClasses(db: Db, db': Db) {
    && db'.fods == db.fods && db'.dups == db.dups && db'.finished == db.finished
    && db'.live.Keys == db.live.Keys
    && forall id | id in db.live :: db'.live[id].hashes == db.live[id].hashes
  }

  predicate TouchesClasses(step: Step) {
    step.Ask? || step == Log(Commit)
  }

  lemma PendingClasses(s: State, step: PendingStep)
    requires PendingEnabled(s, step)
    ensures var s' := PendingApply(s, step);
            SameClasses(s.db, s'.db) && s'.desk == s.desk && s'.logger == s.logger
  {
    if step.RouteFailure? {
      var route := RouteOf(step.task, step.requeued);
      assert route.GiveUp? || route.Requeue? || route.SendBack?;
    }
  }

  lemma RunningClasses(s: State, step: RunningStep)
    requires RunningEnabled(s, step)
    ensures var s' := RunningApply(s, step);
            SameClasses(s.db, s'.db) && s'.desk == s.desk && s'.logger == s.logger
  {
    if step.Check? {
      var verdict := CheckTask(s.runner.batch[0], s.runner.snapshot, step.timeout, s.world.now);
      assert verdict.Finish? || verdict.Exhausted? || verdict.Lost? || verdict.KeepWaiting?;
    }
  }

  lemma SweepClasses(s: State, step: SweepStep)
    requires SweepEnabled(s, step)
    ensures var s' := SweepApply(s, step);
            SameClasses(s.db, s'.db) && s'.desk == s.desk && s'.logger == s.logger
  {
    assert SweepApply(s, step).db == s.db || step.Update?;
  }

  lemma LogClasses(s: State, step: LogStep)
    requires LogEnabled(s, step) && !step.Commit?
    ensures SameClasses(s.db, LogApply(s, step).db) && LogApply(s, step).desk == s.desk
  {
  }

  lemma OtherSteps(s: State, step: Step)
    requires Enabled(s, step) && !TouchesClasses(step)
    ensures SameClasses(s.db, Apply(s, step).db) && Apply(s, step).desk <= s.desk
  {
    match step
    case Sweep(w) => SweepClasses(s, w);
    case Pend(p) => PendingClasses(s, p);
    case Watch(w) => RunningClasses(s, w);
    case Log(g) => LogClasses(s, g);
    case Outside(o) =>
  }

  lemma CommitLeads(s: State)
    requires LeaderInv(s) && LogEnabled(s, Commit)
    ensures LeaderInv(LogApply(s, Commit))
  {
    var s' := LogApply(s, Commit);
    assert s'.db.fods.Keys == s.db.fods.Keys;
    NoNewLeaderKeeps(s, s');
  }

  lemma StepLeads(s: State, step: Step)
    requires Inv(s) && LeaderInv(s) && Enabled(s, step)
    ensures LeaderInv(Apply(s, step))
  {
    if step.Ask? {
      AskLeads(s, step.ask);
    } else if step == Log(Commit) {
      CommitLeads(s);
    } else {
      OtherSteps(s, step);
      NoNewLeaderKeeps(s, Apply(s, step));
    }
  }

  lemma {:induction false} RunLeads(s: State, steps: seq<Step>)
    requires Inv(s) && LeaderInv(s) && CanRun(s, steps)
    ensures LeaderInv(Run(s, steps))
    decreases |steps|
  {
    if steps != [] {
      StepKeeps(s, steps[0]);
      StepLeads(s, steps[0]);
      RunLeads(Apply(s, steps[0]), steps[1..]);
    }
  }

  lemma ReachableLeads(s: State)
    requires Reachable(s)
    ensures LeaderInv(s)
  {
    var signatures, steps :| CanRun(Init(signatures), steps) && Run(Init(signatures), steps) == s;
    RunLeads(Init(signatures), steps);
  }

  /**
   However submissions overlap, with each other and with everything else, no two live rows share a recorded hash,
   and the ids in use are exactly those up to the largest.
   */
  lemma OneLeaderTheorem(s: State, i: int, j: int)
    requires Reachable(s)
    ensures i in s.db.live && j in s.db.live && i != j
            && s.db.live[i].hashes.Some? && s.db.live[j].hashes.Some? ==>
              !Matches(s.db.live[i].hashes.value, s.db.live[j].hashes.value)
    ensures 1 <= i <= j && j in s.db.fods ==> i in s.db.fods
  {
    ReachableLeads(s);
    if j in s.db.fods && i < j {
      assert Filled(s.db, j);
    }
  }

  /** While the id given to a submission is still free, no other submission has been added since. */
  lemma NobodyBetween(s: State, steps: seq<Step>, id: int)
    requires Reachable(s) && CanRun(s, steps) && IsNextId(s.db, id) && id !in Run(s, steps).db.fods
    ensures Run(s, steps).db.fods.Keys <= s.db.fods.Keys
  {
    ReachableInv(s);
    ReachableLeads(s);
    RunLeads(s, steps);
    FreeMeansNone(s.db, Run(s, steps).db, id);
  }

  lemma FreeMeansNone(db: Db, db': Db, id: int)
    requires Dense(db) && Dense(db') && IsNextId(db, id) && id !in db'.fods
    ensures db'.fods.Keys <= db.fods.Keys
  {
    forall k | k in db'.fods ensures k in db.fods {
      assert k >= 1 && Filled(db', k);
      if db.fods.Keys != {} {
        assert id - 1 in db.fods && Filled(db, id - 1);
      }
    }
  }

  // ---------------------------------------------------------------- duplicates that lose their live row, exactly

  /** Every duplicate waits for a live row. */
  ghost predicate Led(db: Db) {
    forall d | d in db.dups :: HasLeader(db, db.dups[d])
  }

  /** A live row other than t recorded a common hash. */
  ghost predicate OtherLeader(db: Db, h: Hashes, t: int) {
    exists l :: l in db.live && l != t && db.live[l].hashes.Some? && Matches(db.live[l].hashes.value, h)
  }

  /**
   A request inserts a duplicate of a live row that has gone since it was counted; a report misses a duplicate
   that was inserted since the duplicates were read; an abort leaves a second duplicate behind.
   */
  ghost predicate Orphans(s: State, step: Step) {
    match step
    case Ask(Insert(a)) => a.Counted? && a.leader && a.id !in s.db.fods && !HasLeader(s.db, a.hashes)
    case Log(Commit) =>
      (match s.logger.phase
       case Listening => false
       case Reporting(t, _, ids) =>
         exists d :: d in s.db.dups && d !in ids && !OtherLeader(s.db, s.db.dups[d], t.id)
       case Aborting(t, next) =>
         exists d :: d in s.db.dups && Some(d) != next && !OtherLeader(s.db, s.db.dups[d], t.id))
    case _ => false
  }

  lemma EnterLedExactly(db: Db, entry: Entry)
    requires Led(db) && Accepts(db, entry)
    requires entry.SubmitLive? ==> entry.id !in db.live
    requires entry.SubmitDuplicate? ==> entry.id !in db.dups
    ensures Led(Enter(db, entry)) <==> !(entry.SubmitDuplicate? && !HasLeader(db, entry.hashes))
  {
    var db' := Enter(db, entry);
    forall d | d in db.dups ensures HasLeader(db', db.dups[d]) {
      var l :| l in db.live && db.live[l].hashes.Some? && Matches(db.live[l].hashes.value, db.dups[d]);
      assert l in db'.live && db'.live[l] == db.live[l];
    }
    if entry.SubmitDuplicate? {
      assert db'.live == db.live && entry.id in db'.dups && db'.dups[entry.id] == entry.hashes;
      assert HasLeader(db', entry.hashes) <==> HasLeader(db, entry.hashes);
    }
  }

  lemma InsertLedExactly(s: State, a: Asking)
    requires Inv(s) && Led(s.db) && AskEnabled(s, Insert(a))
    ensures Led(AskApply(s, Insert(a)).db) <==> !Orphans(s, Ask(Insert(a)))
  {
    if Accepts(s.db, EntryOf(a)) {
      assert AskingOk(a);
      EnterKeeps(s.db, a);
      EnterLedExactly(s.db, EntryOf(a));
    }
  }

  /** What is left to lead after a commit: the live rows but the committed one, and a row without hashes. */
  lemma LeadersAfter(db: Db, db': Db, h: Hashes, t: int, next: Option<int>)
    requires db'.live == if next.Some? then (db.live - {t})[next.value := NewLiveRow(None)] else db.live - {t}
    requires next.Some? ==> next.value !in db.live
    ensures HasLeader(db', h) <==> OtherLeader(db, h, t)
  {
    if OtherLeader(db, h, t) {
      var l :| l in db.live && l != t && db.live[l].hashes.Some? && Matches(db.live[l].hashes.value, h);
      assert l in db'.live && db'.live[l] == db.live[l];
    }
    if HasLeader(db', h) {
      var l :| l in db'.live && db'.live[l].hashes.Some? && Matches(db'.live[l].hashes.value, h);
      assert l in db.live && l != t && db.live[l] == db'.live[l];
    }
  }

  lemma CommitLedExactly(s: State)
    requires Inv(s) && Led(s.db) && LogEnabled(s, Commit)
    ensures Led(LogApply(s, Commit).db) <==> !Orphans(s, Log(Commit))
  {
    var db' := LogApply(s, Commit).db;
    match s.logger.phase
    case Reporting(t, score, ids) =>
      forall d | d in s.db.dups ensures HasLeader(db', s.db.dups[d]) <==> OtherLeader(s.db, s.db.dups[d], t.id) {
        LeadersAfter(s.db, db', s.db.dups[d], t.id, None);
      }
      assert forall d :: d in db'.dups <==> d in s.db.dups && d !in ids;
    case Aborting(t, next) =>
      assert next.Some? ==> next.value in s.db.dups;
      forall d | d in s.db.dups ensures HasLeader(db', s.db.dups[d]) <==> OtherLeader(s.db, s.db.dups[d], t.id) {
        LeadersAfter(s.db, db', s.db.dups[d], t.id, next);
      }
      assert forall d :: d in db'.dups <==> d in s.db.dups && Some(d) != next;
  }

  lemma SameLed(db: Db, db': Db)
    requires Led(db) && db'.dups == db.dups && db'.live.Keys == db.live.Keys
    requires forall id | id in db.live :: db'.live[id].hashes == db.live[id].hashes
    ensures Led(db')
  {
    forall d | d in db'.dups ensures HasLeader(db', db'.dups[d]) {
      var l :| l in db.live && db.live[l].hashes.Some? && Matches(db.live[l].hashes.value, db.dups[d]);
      assert l in db'.live && db'.live[l].hashes == db.live[l].hashes;
    }
  }

  /** A step leaves every duplicate with a live row if and only if it is not one of the three that orphan one. */
  lemma StepLedExactly(s: State, step: Step)
    requires Inv(s) && Led(s.db) && Enabled(s, step)
    ensures Led(Apply(s, step).db) <==> !Orphans(s, step)
  {
    if step.Ask? && step.ask.Insert? {
      InsertLedExactly(s, step.ask.asking);
    } else if step == Log(Commit) {
      CommitLedExactly(s);
    } else {
      PlainLed(s, step);
    }
  }

  lemma LookLed(s: State, step: AskStep)
    requires Inv(s) && Led(s.db) && AskEnabled(s, step) && !step.Insert?
    ensures Led(AskApply(s, step).db)
  {
    SameLed(s.db, AskApply(s, step).db);
  }

  lemma PlainLed(s: State, step: Step)
    requires Inv(s) && Led(s.db) && Enabled(s, step) && !(step.Ask? && step.ask.Insert?) && step != Log(Commit)
    ensures Led(Apply(s, step).db) && !Orphans(s, step)
  {
    if step.Ask? {
      LookLed(s, step.ask);
    } else {
      OtherSteps(s, step);
      SameLed(s.db, Apply(s, step).db);
    }
  }

  ghost predicate AlwaysLed(s: State, steps: seq<Step>)
    requires CanRun(s, steps)
    decreases |steps|
  {
    Led(s.db) && (steps != [] ==> AlwaysLed(Apply(s, steps[0]), steps[1..]))
  }

  ghost predicate NoneOrphans(s: State, steps: seq<Step>)
    requires CanRun(s, steps)
    decreases |steps|
  {
    steps != [] ==> !Orphans(s, steps[0]) && NoneOrphans(Apply(s, steps[0]), steps[1..])
  }

  lemma {:induction false} RunLedExactly(s: State, steps: seq<Step>)
    requires Inv(s) && Led(s.db) && CanRun(s, steps)
    ensures AlwaysLed(s, steps) <==> NoneOrphans(s, steps)
    decreases |steps|
  {
    if steps != [] {
      StepKeeps(s, steps[0]);
      StepLedExactly(s, steps[0]);
      if !Orphans(s, steps[0]) {
        RunLedExactly(Apply(s, steps[0]), steps[1..]);
      }
    }
  }

  /** In every fine-grained run, every duplicate always has a live row to wait for iff no step orphans one. */
  lemma LeadershipTheorem(signatures: set<Hashes>, steps: seq<Step>)
    requires CanRun(Init(signatures), steps)
    ensures AlwaysLed(Init(signatures), steps) <==> NoneOrphans(Init(signatures), steps)
  {
    RunLedExactly(Init(signatures), steps);
  }

  // ---------------------------------------------------------------- what a message does to its class

  /** A report leaves no duplicate that matches, and the task and those duplicates end with one decision. */
  lemma ReportClosesClass(db: Db, t: Task, score: real, ids: seq<int>)
    requires TablesOk(db) && t.id in Known(db) && Enumerates(ids, MatchingDups(db, t.hashes))
    ensures var db' := FinishReport(db, t, score, ids);
            && MatchingDups(db', t.hashes) == {}
            && db'.dups.Keys == db.dups.Keys - MatchingDups(db, t.hashes)
            && t.id in FinishedIds(db'.finished) && MatchingDups(db, t.hashes) <= FinishedIds(db'.finished)
            && forall id | id in MatchingDups(db, t.hashes) + {t.id} ::
                 id in db'.fods && db'.fods[id].score == score && db'.fods[id].rating == RatingOf(score)
                 && db'.fods[id].verdict == VerdictOf(score)
  {
    ReportedIds(db, t, ids);
    forall id | id in MatchingDups(db, t.hashes) + {t.id} ensures id in db.fods {
      assert id in Analysed(db);
    }
  }

  /** An abort moves exactly the smallest matching duplicate to the live table and leaves the others waiting. */
  lemma AbortPromotesSmallest(db: Db, t: Task, next: Option<int>)
    requires TablesOk(db) && t.id in Known(db) && IsSmallest(next, MatchingDups(db, t.hashes))
    ensures var db' := FinishAbort(db, t, next);
            var waiting := MatchingDups(db, t.hashes);
            && (waiting == {} ==> db'.live.Keys == db.live.Keys - {t.id} && db'.dups == db.dups)
            && (waiting != {} ==>
                  var d := next.value;
                  && d in waiting && (forall k | k in waiting :: d <= k)
                  && d !in db.live && d != t.id && db'.live.Keys == db.live.Keys - {t.id} + {d}
                  && MatchingDups(db', t.hashes) == waiting - {d}
                  && db'.live[d].status == PendingNotInQueue && db'.fods[d].rating.NoRating?)
  {
    var db' := FinishAbort(db, t, next);
    if next.Some? {
      var d := next.value;
      assert d in MatchingDups(db, t.hashes) && d in db.dups;
      assert d in Analysed(db);
      assert MatchingDups(db', t.hashes) == MatchingDups(db, t.hashes) - {d};
    }
  }
}
