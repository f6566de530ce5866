/**
 The query lists the log handler commits, and what each list does as a whole.
 Every list is built query by query; the closed forms below say the outcome in one step.
 */
module Transactions {
  import opened Records
  import opened Database

  function MoveToFinished(task: Task, aborted: bool): seq<Query> {
    [DeleteLive(task.id), InsertFinished([Finished(task.id, task.sandboxId, aborted)])]
  }

  function FinishedRows(ids: seq<int>, sandboxId: int): (rows: seq<Finished>)
    ensures |rows| == |ids|
    ensures forall i | 0 <= i < |ids| :: rows[i] == Finished(ids[i], sandboxId, false)
  {
    seq(|ids|, i requires 0 <= i < |ids| => Finished(ids[i], sandboxId, false))
  }

  function Decisions(ids: seq<int>, score: real): (queries: seq<Query>)
    ensures |queries| == |ids|
    ensures forall i | 0 <= i < |ids| :: queries[i] == DecideFod(ids[i], score)
  {
    seq(|ids|, i requires 0 <= i < |ids| => DecideFod(ids[i], score))
  }

  function DuplicatesForReported(task: Task, score: real, ids: seq<int>): seq<Query> {
    if ids == [] then []
    else Decisions(ids, score) + [InsertFinished(FinishedRows(ids, task.sandboxId)), DeleteDups(ids)]
  }

  function DuplicatesForAborted(next: Option<int>): seq<Query> {
    if next.None? then []
    else [InsertLive(next.value, NewLiveRow(None)), DeleteDups([next.value])]
  }

  function ReportQueries(task: Task, score: real, ids: seq<int>): seq<Query> {
    [DecideFod(task.id, score)] + MoveToFinished(task, false) + DuplicatesForReported(task, score, ids)
  }

  function AbortQueries(task: Task, next: Option<int>): seq<Query> {
    [DecideFod(task.id, 0.0)] + MoveToFinished(task, true) + DuplicatesForAborted(next)
  }

  /** All submissions in `ids` decided with one score. */
  function DecideAll(fods: map<int, Fod>, ids: set<int>, score: real): map<int, Fod> {
    map id | id in fods :: if id in ids then Decide(fods[id], score) else fods[id]
  }

  function Ids(ids: seq<int>): set<int> {
    set i | i in ids
  }

  /** A report: the task and the listed duplicates leave their tables and are finished with one score. */
  function FinishReport(db: Db, task: Task, score: real, ids: seq<int>): Db {
    Db(DecideAll(db.fods, {task.id} + Ids(ids), score),
       db.live - {task.id},
       db.dups - Ids(ids),
       db.finished + [Finished(task.id, task.sandboxId, false)] + FinishedRows(ids, task.sandboxId))
  }

  /** An abort: the task is finished with score 0 and the chosen duplicate, if any, becomes live without hashes. */
  function FinishAbort(db: Db, task: Task, next: Option<int>): Db {
    Db(DecideAll(db.fods, {task.id}, 0.0),
       if next.Some? then (db.live - {task.id})[next.value := NewLiveRow(None)] else db.live - {task.id},
       if next.Some? then db.dups - {next.value} else db.dups,
       db.finished + [Finished(task.id, task.sandboxId, true)])
  }

  lemma {:induction false} DecisionsDecideAll(db: Db, ids: seq<int>, score: real)
    ensures ExecAll(db, Decisions(ids, score)) == Some(db.(fods := DecideAll(db.fods, Ids(ids), score)))
    decreases |ids|
  {
    var qs := Decisions(ids, score);
    if ids == [] {
      assert DecideAll(db.fods, Ids(ids), score) == db.fods;
    } else {
      var first := Exec(db, qs[0]).value;
      assert qs[1..] == Decisions(ids[1..], score);
      DecisionsDecideAll(first, ids[1..], score);
      assert Ids(ids) == {ids[0]} + Ids(ids[1..]);
      assert DecideAll(first.fods, Ids(ids[1..]), score) == DecideAll(db.fods, Ids(ids), score);
    }
  }

  lemma TripleOutcome(db: Db, task: Task, score: real, aborted: bool)
    ensures ExecAll(db, [DecideFod(task.id, score)] + MoveToFinished(task, aborted)) ==
            Some(Db(DecideAll(db.fods, {task.id}, score), db.live - {task.id}, db.dups,
                    db.finished + [Finished(task.id, task.sandboxId, aborted)]))
  {
    var q := [DecideFod(task.id, score)] + MoveToFinished(task, aborted);
    var a := Exec(db, q[0]).value;
    var b := Exec(a, q[1]).value;
    var c := Exec(b, q[2]).value;
    assert q[1..][1..] == [q[2]];
    assert ExecAll(b, [q[2]]) == Some(c);
    assert c.fods == DecideAll(db.fods, {task.id}, score);
  }

  /** The list built for a report is exactly one simultaneous move of the task and all listed duplicates. */
  lemma ReportOutcome(db: Db, task: Task, score: real, ids: seq<int>)
    ensures ExecAll(db, ReportQueries(task, score, ids)) == Some(FinishReport(db, task, score, ids))
  {
    var front := [DecideFod(task.id, score)] + MoveToFinished(task, false);
    TripleOutcome(db, task, score, false);
    var mid := ExecAll(db, front).value;
    ExecAllAppend(db, front, DuplicatesForReported(task, score, ids));
    var goal := FinishReport(db, task, score, ids);
    if ids == [] {
      assert Ids(ids) == {};
      assert goal == mid;
    } else {
      var moves := [InsertFinished(FinishedRows(ids, task.sandboxId)), DeleteDups(ids)];
      DecisionsDecideAll(mid, ids, score);
      ExecAllAppend(mid, Decisions(ids, score), moves);
      var decided := mid.(fods := DecideAll(mid.fods, Ids(ids), score));
      assert decided.fods == goal.fods;
      var x := Exec(decided, moves[0]).value;
      assert moves[1..] == [moves[1]];
      var y := Exec(x, moves[1]).value;
      assert ExecAll(x, moves[1..]) == Some(y);
      assert y == goal;
    }
  }

  /** The list built for an abort finishes the task and promotes the chosen duplicate. */
  lemma AbortOutcome(db: Db, task: Task, next: Option<int>)
    ensures ExecAll(db, AbortQueries(task, next)) == Some(FinishAbort(db, task, next))
  {
    var front := [DecideFod(task.id, 0.0)] + MoveToFinished(task, true);
    TripleOutcome(db, task, 0.0, true);
    var mid := ExecAll(db, front).value;
    ExecAllAppend(db, front, DuplicatesForAborted(next));
    if next.Some? {
      var moves := DuplicatesForAborted(next);
      var x := Exec(mid, moves[0]).value;
      assert moves[1..] == [moves[1]];
      var y := Exec(x, moves[1]).value;
      assert ExecAll(x, moves[1..]) == Some(y);
      assert (set i | i in [next.value]) == {next.value};
    }
  }

  /** The row-by-row construction of the report's duplicate part. */
  method BuildDuplicatesForReported(task: Task, score: real, ids: seq<int>) returns (queries: seq<Query>)
    ensures queries == DuplicatesForReported(task, score, ids)
  {
    if |ids| == 0 {
      return [];
    }
    queries := [];
    var rows: seq<Finished> := [];
    for i := 0 to |ids|
      invariant |rows| == |queries| == i
      invariant forall k | 0 <= k < i :: rows[k] == Finished(ids[k], task.sandboxId, false)
      invariant forall k | 0 <= k < i :: queries[k] == DecideFod(ids[k], score)
    {
      rows := rows + [Finished(ids[i], task.sandboxId, false)];
      queries := queries + [DecideFod(ids[i], score)];
    }
    assert rows == FinishedRows(ids, task.sandboxId) && queries == Decisions(ids, score);
    queries := queries + [InsertFinished(rows)];
    var idsToRemove: seq<int> := [];
    for i := 0 to |ids|
      invariant idsToRemove == ids[..i]
    {
      idsToRemove := idsToRemove + [ids[i]];
    }
    assert idsToRemove == ids;
    queries := queries + [DeleteDups(idsToRemove)];
  }
}
