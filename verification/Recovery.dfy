/** What holds of the tables in every reachable state, and what the start-up repair makes of them. */
module Recovery {
  import opened Records
  import opened Database
  import opened Transactions
  import opened Machine
  import opened Conservation

  /** Every analysed submission is in exactly one of live, duplicate and finished; nothing else is in any of them. */
  lemma ConservationTheorem(s: State, id: int)
    requires Reachable(s)
    ensures id in s.db.live ==> id !in s.db.dups && id !in FinishedIds(s.db.finished)
    ensures id in s.db.dups ==> id !in FinishedIds(s.db.finished)
    ensures (id in s.db.live || id in s.db.dups || id in FinishedIds(s.db.finished))
            <==> id in s.db.fods && !s.db.fods[id].cached
  {
    ReachableInv(s);
    assert id in Analysed(s.db) <==> id in s.db.fods && !s.db.fods[id].cached;
  }

  /** No insert ever meets an existing row: promotion and submission always add a new id to their table. */
  lemma InsertsAreFresh(s: State, step: Step)
    requires Reachable(s) && Enabled(s, step)
    ensures step.Ask? && step.ask.Insert? && Accepts(s.db, EntryOf(step.ask.asking)) ==>
              step.ask.asking.id !in s.db.live && step.ask.asking.id !in s.db.dups
              && step.ask.asking.id !in FinishedIds(s.db.finished)
    ensures step == Log(Commit) && s.logger.phase.Aborting? && s.logger.phase.next.Some? ==>
              s.logger.phase.next.value !in s.db.live && s.logger.phase.next.value !in FinishedIds(s.db.finished)
  {
    ReachableInv(s);
    if step.Ask? && step.ask.Insert? && Accepts(s.db, EntryOf(step.ask.asking)) {
      assert AskingOk(step.ask.asking);
      EnterKeeps(s.db, step.ask.asking);
    }
  }

  /** The "still analysing" answer of an override is given exactly for live and duplicate submissions. */
  lemma StillAnalysingIsExact(s: State, id: int, verdict: Verdict)
    requires Reachable(s) && id in s.db.fods && !verdict.NoVerdict? && verdict != s.db.fods[id].verdict
    ensures s.db.fods[id].rating.NoRating? <==> id in s.db.live || id in s.db.dups
    ensures Enabled(s, Ask(ReadOverride(id, verdict))) <==> id !in s.db.live && id !in s.db.dups
  {
    ReachableInv(s);
  }

  /**
   In every reachable state a decided submission has a verdict, and its rating is its score's unless it is the
   row stored for a listed file, rated critical with a score the bands call a high risk.
   */
  lemma RatingsAreTheScores(s: State, id: int)
    requires Reachable(s) && id in s.db.fods && !s.db.fods[id].rating.NoRating?
    ensures !s.db.fods[id].verdict.NoVerdict?
    ensures s.db.fods[id].rating != RatingOf(s.db.fods[id].score) <==>
              s.db.fods[id].cached && s.db.fods[id].rating == Critical && s.db.fods[id].score == 7.0
  {
    ReachableInv(s);
    assert Rated(s.db.fods[id]);
  }

  /** A copy of a task in a channel, with a handler, with a goroutine or in the hands of the sweep. */
  ghost predicate InMotion(s: State, t: Task) {
    || t in s.ch.pending || t in s.ch.running || t in s.ch.log
    || t in s.sweeper.batch || s.sweeper.phase == Admitting(t)
    || t in s.pender.batch || t in s.pender.sending || (exists f :: f in s.pender.returned && f.task == t)
    || t in s.runner.batch || s.runner.owed == Some(t)
    || t in s.logger.batch || (!s.logger.phase.Listening? && s.logger.phase.task == t)
  }

  /** Retry counters stay bounded on all runs, in the table and in every copy. */
  lemma RetriesBounded(s: State, t: Task)
    requires Reachable(s) && InMotion(s, t)
    ensures t.queueRetries <= 3 && t.runningRetries <= 5
    ensures forall id | id in s.db.live :: s.db.live[id].queueRetries <= 3 && s.db.live[id].runningRetries <= 5
  {
    ReachableInv(s);
    var l := LedgerOf(s.db, s.past.admitted);
    assert CopyOk(l, t) by {
      assert MotionOk(l, s);
      if t in s.pender.sending {
        assert SenderOk(l, t);
      } else if f :| f in s.pender.returned && f.task == t {
        assert FlightOk(l, f);
      }
    }
  }

  /**
   After a crash at any moment, with any channels full and any pushes lost, the start-up repair makes the
   sweep's query return every live row, and it changes no table's keys.
   */
  lemma RecoveryTheorem(s: State, rebooted: bool)
    requires Reachable(s)
    ensures var db := Apply(s, Outside(Crash(rebooted))).db;
            db.live.Keys == s.db.live.Keys && forall id | id in db.live :: Selected(db, id)
    ensures rebooted ==> forall id | id in s.db.live :: Reset(s.db, true).live[id].status == PendingNotInQueue
  {
    ReachableInv(s);
    forall id | id in s.db.live ensures id in s.db.fods && id > 0 {
      assert id in Analysed(s.db);
    }
  }

  /** Without the repair exactly the unflagged "in queue" rows would be missed. */
  lemma MissedWithoutRepair(s: State, id: int)
    requires Reachable(s) && id in s.db.live
    ensures !Selected(s.db, id) <==>
            !s.db.live[id].logQueueFailed
            && (s.db.live[id].status == PendingInQueue || s.db.live[id].status == RunningInQueue)
  {
    ReachableInv(s);
    assert id in Analysed(s.db);
  }

  /** Repairing twice is repairing once; after a reboot the second start sees the flag already cleared. */
  lemma ResetIdempotent(s: State, rebooted: bool, again: bool)
    requires Reachable(s) && (again ==> rebooted)
    ensures Reset(Reset(s.db, rebooted), again) == Reset(s.db, rebooted)
  {
    ReachableInv(s);
    var once := Reset(s.db, rebooted);
    var twice := Reset(once, again);
    forall id | id in s.db.live ensures twice.live[id] == once.live[id] {
      assert id in Analysed(s.db);
    }
    assert twice.live == once.live;
  }
}
