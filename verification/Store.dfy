/** The queries of the queue handlers, run against the shared connection. */
module Store {
  import opened Records
  import opened Database
  import opened Transactions
  import opened Machine

  lemma ExecOne(db: Db, q: Query)
    ensures ExecAll(db, [q]) == Exec(db, q)
  {
    var r := Exec(db, q);
    if r.Some? {
      assert ExecAll(r.value, [q][1..]) == r;
    }
  }

  lemma ExecTwo(db: Db, a: Query, b: Query)
    ensures ExecAll(db, [a, b]) == var r := Exec(db, a); if r.None? then None else Exec(r.value, b)
  {
    var r := Exec(db, a);
    if r.Some? {
      assert [a, b][1..] == [b];
      ExecOne(r.value, b);
    }
  }

  method UpdateTaskStatus(conn: Connection, id: int, status: Status)
    modifies conn
    ensures conn.db == SetStatus(old(conn.db), id, status)
    ensures var db := old(conn.db);
            conn.db == if id in db.live then db.(live := db.live[id := db.live[id].(status := status)]) else db
  {
    ExecOne(conn.db, SetLiveStatus(id, status));
    var ok := conn.ExecQuery([SetLiveStatus(id, status)]);
  }

  method UpdateLogQueueFail(conn: Connection, id: int, flag: bool)
    modifies conn
    ensures conn.db == SetFlag(old(conn.db), id, flag)
    ensures var db := old(conn.db);
            conn.db == if id in db.live then db.(live := db.live[id := db.live[id].(logQueueFailed := flag)]) else db
  {
    ExecOne(conn.db, SetLogFailed(id, flag));
    var ok := conn.ExecQuery([SetLogFailed(id, flag)]);
  }

  /** The row takes over what changes on the way; its hashes stay. */
  method UpdateLiveTask(conn: Connection, task: Task)
    modifies conn
    ensures conn.db == SetRow(old(conn.db), task)
    ensures var db := old(conn.db);
            conn.db == if task.id !in db.live then db
                       else db.(live := db.live[task.id :=
                              LiveRow(task.status, task.sandboxId, task.queueRetries, task.runningRetries,
                                      task.sandboxRetries, task.logQueueFailed, db.live[task.id].hashes)])
  {
    ExecOne(conn.db, SetLiveRow(task));
    var ok := conn.ExecQuery([SetLiveRow(task)]);
  }

  // ---------------------------------------------------------------- selections

  /** The next row a query without an order returns. */
  method AnyOf<T>(keys: set<T>) returns (key: T)
    requires keys != {}
    ensures key in keys
  {
    key :| key in keys;
  }

  /** The rows that are not in a queue, or that a failed push flagged, joined with their submissions. */
  method FetchNotInQueueTasks(conn: Connection) returns (tasks: seq<Task>)
    ensures IsSelection(conn.db, tasks)
    ensures forall id :: (exists t :: t in tasks && t.id == id) <==>
              id in conn.db.live && id in conn.db.fods
              && (conn.db.live[id].status in {PendingNotInQueue, RunningNotInQueue} || conn.db.live[id].logQueueFailed)
    ensures forall t | t in tasks ::
              var row := conn.db.live[t.id];
              && t.status == row.status && t.sandboxId == row.sandboxId && t.logQueueFailed == row.logQueueFailed
              && t.queueRetries == row.queueRetries && t.runningRetries == row.runningRetries
              && t.sandboxRetries == row.sandboxRetries && t.submittedTime == conn.db.fods[t.id].submittedTime
              && t.hashes == if row.hashes.Some? then row.hashes.value else Hashes("", "", "")
  {
    var db := conn.db;
    tasks := [];
    var left := db.live.Keys;
    while left != {}
      invariant left <= db.live.Keys
      invariant forall t | t in tasks ::
                  t.id !in left && Selected(db, t.id) && t == TaskOf(t.id, db.live[t.id], db.fods[t.id])
      invariant forall i, j | 0 <= i < j < |tasks| :: tasks[i].id != tasks[j].id
      invariant forall id | id in db.live && id !in left && Selected(db, id) ::
                  TaskOf(id, db.live[id], db.fods[id]) in tasks
      decreases |left|
    {
      var id := AnyOf(left);
      left := left - {id};
      if Selected(db, id) {
        tasks := tasks + [TaskOf(id, db.live[id], db.fods[id])];
      }
    }
  }

  /** The duplicates that agree with the task in one column. */
  method SelectDuplicates(conn: Connection, h: Hashes) returns (ids: seq<int>)
    ensures Enumerates(ids, MatchingDups(conn.db, h))
    ensures forall id :: id in ids <==>
              id in conn.db.dups
              && (conn.db.dups[id].md5 == h.md5 || conn.db.dups[id].sha == h.sha || conn.db.dups[id].sha256 == h.sha256)
  {
    var db := conn.db;
    ids := [];
    var left := db.dups.Keys;
    while left != {}
      invariant left <= db.dups.Keys
      invariant forall i | i in ids :: i in MatchingDups(db, h) && i !in left
      invariant forall i | i in MatchingDups(db, h) :: i in left || i in ids
      invariant forall i, j | 0 <= i < j < |ids| :: ids[i] != ids[j]
      decreases |left|
    {
      var id := AnyOf(left);
      left := left - {id};
      if Matches(db.dups[id], h) {
        ids := ids + [id];
      }
    }
    assert forall i :: i in MatchingDups(db, h) <==> i in ids;
  }

  /** The first row of the duplicates in the order of their ids. */
  method SelectFirstDuplicate(conn: Connection, h: Hashes) returns (next: Option<int>)
    ensures IsSmallest(next, MatchingDups(conn.db, h))
    ensures next.None? <==> forall id | id in conn.db.dups :: !Matches(conn.db.dups[id], h)
    ensures next.Some? ==>
              && next.value in conn.db.dups && Matches(conn.db.dups[next.value], h)
              && forall id | id in conn.db.dups && Matches(conn.db.dups[id], h) :: next.value <= id
  {
    var ids := SelectDuplicates(conn, h);
    if |ids| == 0 {
      assert MatchingDups(conn.db, h) == Ids(ids) == {};
      return None;
    }
    var first := ids[0];
    for i := 0 to |ids|
      invariant first in ids && forall k | 0 <= k < i :: first <= ids[k]
    {
      if ids[i] < first {
        first := ids[i];
      }
    }
    assert first in Ids(ids);
    return Some(first);
  }
}
