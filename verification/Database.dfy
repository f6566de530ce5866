/** Queries and the all-or-nothing transaction that runs a list of them. */
module Database {
  import opened Records

  datatype Query =
    | InsertFod(id: int, fod: Fod)
    | DecideFod(id: int, score: real)
    | OverrideFods(hashes: Hashes, verdict: Verdict)
    | InsertLive(id: int, row: LiveRow)
    | DeleteLive(id: int)
    | SetLiveStatus(id: int, status: Status)
    | SetLiveRow(task: Task)
    | SetLogFailed(id: int, flag: bool)
    | InsertDup(id: int, hashes: Hashes)
    | DeleteDups(ids: seq<int>)
    | InsertFinished(rows: seq<Finished>)

  function SetStatus(db: Db, id: int, status: Status): Db {
    if id in db.live then db.(live := db.live[id := db.live[id].(status := status)]) else db
  }

  function SetRow(db: Db, task: Task): Db {
    if task.id in db.live then db.(live := db.live[task.id := WriteBack(db.live[task.id], task)]) else db
  }

  function SetFlag(db: Db, id: int, flag: bool): Db {
    if id in db.live then db.(live := db.live[id := db.live[id].(logQueueFailed := flag)]) else db
  }

  function Override(db: Db, hashes: Hashes, verdict: Verdict): Db {
    db.(fods := map id | id in db.fods ::
          if Matches(db.fods[id].hashes, hashes)
          then db.fods[id].(verdict := verdict, overridden := true) else db.fods[id])
  }

  /** One query; None is a database error. Submission ids are primary keys, so inserting one twice is an error. */
  function Exec(db: Db, query: Query): Option<Db> {
    match query
    case InsertFod(id, fod) =>
      if id in db.fods then None else Some(db.(fods := db.fods[id := fod]))
    case DecideFod(id, score) =>
      Some(if id in db.fods then db.(fods := db.fods[id := Decide(db.fods[id], score)]) else db)
    case OverrideFods(hashes, verdict) => Some(Override(db, hashes, verdict))
    case InsertLive(id, row) => Some(db.(live := db.live[id := row]))
    case DeleteLive(id) => Some(db.(live := db.live - {id}))
    case SetLiveStatus(id, status) => Some(SetStatus(db, id, status))
    case SetLiveRow(task) => Some(SetRow(db, task))
    case SetLogFailed(id, flag) => Some(SetFlag(db, id, flag))
    case InsertDup(id, hashes) => Some(db.(dups := db.dups[id := hashes]))
    case DeleteDups(ids) => Some(db.(dups := db.dups - set i | i in ids))
    case InsertFinished(rows) => Some(db.(finished := db.finished + rows))
  }

  /** A query list run in order, stopping at the first error. */
  function ExecAll(db: Db, queries: seq<Query>): Option<Db>
    decreases |queries|
  {
    if queries == [] then Some(db)
    else
      var r := Exec(db, queries[0]);
      if r.None? then None else ExecAll(r.value, queries[1..])
  }

  lemma {:induction false} ExecAllAppend(db: Db, a: seq<Query>, b: seq<Query>)
    ensures ExecAll(db, a + b) ==
            var r := ExecAll(db, a); if r.None? then None else ExecAll(r.value, b)
    decreases |a|
  {
    if a == [] {
      assert a + b == b;
    } else {
      assert (a + b)[0] == a[0] && (a + b)[1..] == a[1..] + b;
      var r := Exec(db, a[0]);
      if r.Some? {
        ExecAllAppend(r.value, a[1..], b);
      }
    }
  }

  /** The connection every component shares. */
  class Connection {
    var db: Db

    constructor (db: Db)
      ensures this.db == db
    {
      this.db := db;
    }

    /** A transaction: either every query takes effect, in order, or none does. */
    method ExecQuery(queries: seq<Query>) returns (ok: bool)
      modifies this
      ensures ok == ExecAll(old(db), queries).Some?
      ensures db == if ok then ExecAll(old(db), queries).value else old(db)
    {
      var tx := db;
      var i := 0;
      while i < |queries|
        invariant 0 <= i <= |queries| && db == old(db)
        invariant ExecAll(db, queries) == ExecAll(tx, queries[i..])
      {
        var r := Exec(tx, queries[i]);
        assert queries[i..][0] == queries[i] && queries[i..][1..] == queries[i + 1..];
        if r.None? {
          return false;
        }
        tx := r.value;
        i := i + 1;
      }
      db := tx;
      return true;
    }
  }
}
