/** The requests of users and devices, and the repair at start-up, as programs over the shared connection. */
module Requests {
  import opened Records
  import opened Database
  import opened Transactions
  import opened Lookups
  import opened Machine
  import opened HashClasses
  import opened Atomic
  import opened Store
  import opened Text

  // ---------------------------------------------------------------- submitting a file

  /** The largest id in use plus one; ids start at one. */
  method NextFodId(conn: Connection) returns (id: int)
    requires forall k | k in conn.db.fods :: k > 0
    ensures IsNextId(conn.db, id) && id > 0 && id !in conn.db.fods
    ensures (id == 1 || id - 1 in conn.db.fods) && forall k | k in conn.db.fods :: k < id
  {
    var left := conn.db.fods.Keys;
    id := 0;
    while left != {}
      invariant left <= conn.db.fods.Keys
      invariant forall k | k in conn.db.fods && k !in left :: k <= id
      invariant if conn.db.fods.Keys == left then id == 0 else id in conn.db.fods
      decreases |left|
    {
      var k := AnyOf(left);
      left := left - {k};
      if k > id {
        id := k;
      }
    }
    id := id + 1;
  }

  /** The first row that agrees in one column, in whatever order the rows come. */
  method PickMatching(conn: Connection, h: Hashes) returns (pick: Option<int>)
    ensures Picked(conn.db, h, pick)
  {
    var left := conn.db.fods.Keys;
    while left != {}
      invariant left <= conn.db.fods.Keys
      invariant forall k | k in conn.db.fods && k !in left :: !Matches(conn.db.fods[k].hashes, h)
      decreases |left|
    {
      var k := AnyOf(left);
      left := left - {k};
      if Matches(conn.db.fods[k].hashes, h) {
        return Some(k);
      }
    }
    return None;
  }

  /** The tables as each transaction of a submission finds them, after whatever ran in between. */
  datatype Moments = Moments(number: Db, clean: Db, malware: Db, pick: Db, store: Db, count: Db, insert: Db)

  /** Nothing runs in between. */
  predicate Undisturbed(m: Moments) {
    m == Moments(m.number, m.number, m.number, m.number, m.number, m.number, m.number)
  }

  /** What the lookups let a submission store, each in the tables of its own moment. */
  ghost predicate IsAnswer(m: Moments, signatures: set<Hashes>, h: Hashes, at: int, a: Asking) {
    && !a.Overriding? && IsNextId(m.number, a.id)
    && (IsCleanHash(m.clean, h) || IsMalwareHash(m.malware, signatures, h) <==> a.Answered?)
    && (a.Answered? ==>
          exists pick :: Picked(m.pick, h, pick) && a.fod == CachedFod(m.pick, h, at, pick, IsCleanHash(m.clean, h)))
    && (!a.Answered? ==> a == Counted(a.id, h, at, HasLeader(m.count, h)))
  }

  predicate Decided(f: Fod) {
    f.rating != NoRating && f.verdict != NoVerdict
  }

  predicate SameDecision(f: Fod, g: Fod) {
    f.rating == g.rating && f.verdict == g.verdict && f.score == g.score
  }

  /**
   The decision stored for a known file: that of a decided row of the file, or, when there is none or an undecided
   one came first, the fallback.
   */
  method CachedRow(conn: Connection, h: Hashes, at: int, isClean: bool) returns (row: Fod)
    ensures exists pick :: Picked(conn.db, h, pick) && row == CachedFod(conn.db, h, at, pick, isClean)
    ensures row == Fod(h, at, true, row.rating, row.verdict, row.score, false)
    ensures || (exists k :: k in conn.db.fods && Matches(conn.db.fods[k].hashes, h) && Decided(conn.db.fods[k])
                            && SameDecision(row, conn.db.fods[k]))
            || ((forall k | k in conn.db.fods && Matches(conn.db.fods[k].hashes, h) && Decided(conn.db.fods[k]) ::
                   exists u :: u in conn.db.fods && Matches(conn.db.fods[u].hashes, h) && !Decided(conn.db.fods[u]))
                && (row.rating, row.verdict, row.score)
                   == if isClean then (Clean, Allow, 0.0) else (Critical, Block, 7.0))
  {
    var pick := PickMatching(conn, h);
    row := Fod(h, at, true, NoRating, NoVerdict, 0.0, false);
    if pick.Some? {
      var fod := conn.db.fods[pick.value];
      row := row.(rating := fod.rating, verdict := fod.verdict, score := fod.score);
    }
    if row.rating.NoRating? || row.verdict.NoVerdict? {
      if isClean {
        row := row.(rating := Clean, verdict := Allow, score := 0.0);
      } else {
        row := row.(rating := Critical, verdict := Block, score := 7.0);
      }
    }
    assert row == CachedFod(conn.db, h, at, pick, isClean);
  }

  /** A known file is stored with its decision, unless the id was taken meanwhile. */
  method CheckIfHashAlreadyPresent(conn: Connection, signatures: set<Hashes>, id: int, h: Hashes, at: int, m: Moments)
    returns (stored: bool, ghost fod: Option<Fod>)
    modifies conn
    ensures IsCleanHash(m.clean, h) || IsMalwareHash(m.malware, signatures, h) <==> fod.Some?
    ensures fod.Some? <==>
              || (exists k :: k in m.clean.fods && Matches(m.clean.fods[k].hashes, h)
                              && m.clean.fods[k].verdict == Allow)
              || (exists g :: g in signatures && Matches(g, h))
              || (exists k :: k in m.malware.fods && Matches(m.malware.fods[k].hashes, h)
                              && m.malware.fods[k].verdict == Block)
    ensures fod.Some? ==>
              exists pick ::
                Picked(m.pick, h, pick) && fod.value == CachedFod(m.pick, h, at, pick, IsCleanHash(m.clean, h))
    ensures stored <==> fod.Some? && id !in m.store.fods
    ensures stored ==> conn.db == Enter(m.store, SubmitCached(id, fod.value))
    ensures stored ==> conn.db == m.store.(fods := m.store.fods[id := fod.value])
  {
    conn.db := m.clean;
    var isClean := IsCleanHash(conn.db, h);
    if !isClean {
      conn.db := m.malware;
      if !IsMalwareHash(conn.db, signatures, h) {
        return false, None;
      }
    }
    conn.db := m.pick;
    var row := CachedRow(conn, h, at, isClean);
    conn.db := m.store;
    ExecOne(conn.db, InsertFod(id, row));
    stored := conn.ExecQuery([InsertFod(id, row)]);
    fod := Some(row);
  }

  /**
   A submission among other components: an id, the lookups, and one transaction that inserts everything or, when the
   id was taken meanwhile, nothing. After a refused cached row the program goes on and is refused once more.
   */
  method CreateFileOnDemand(conn: Connection, signatures: set<Hashes>, h: Hashes, at: int, m: Moments)
    returns (created: bool, ghost a: Asking)
    requires forall k | k in m.number.fods :: k > 0
    requires m.store.fods.Keys <= m.insert.fods.Keys
    modifies conn
    ensures IsAnswer(m, signatures, h, at, a)
    ensures created <==> a.id !in (if a.Answered? then m.store else m.insert).fods
    ensures conn.db == if !created then m.insert
                       else Enter(if a.Answered? then m.store else m.insert, EntryOf(a))
    ensures created && a.Answered? ==> conn.db == m.store.(fods := m.store.fods[a.id := a.fod])
    ensures var leader := exists k :: k in m.count.live && m.count.live[k].hashes.Some?
                                      && Matches(m.count.live[k].hashes.value, h);
            var fods := m.insert.fods[a.id := Fod(h, at, false, NoRating, NoVerdict, 0.0, false)];
            created && !a.Answered? ==>
              if leader then conn.db == m.insert.(fods := fods, dups := m.insert.dups[a.id := h])
              else
                var row := LiveRow(PendingNotInQueue, 0, 0, 0, 0, false, Some(h));
                conn.db == m.insert.(fods := fods, live := m.insert.live[a.id := row])
    ensures Undisturbed(m) ==> created
  {
    conn.db := m.number;
    var id := NextFodId(conn);
    var stored;
    ghost var fod;
    stored, fod := CheckIfHashAlreadyPresent(conn, signatures, id, h, at, m);
    if stored {
      a := Answered(id, fod.value);
      return true, a;
    }
    conn.db := m.count;
    var leader := HasLeader(conn.db, h);
    conn.db := m.insert;
    var second := if leader then InsertDup(id, h) else InsertLive(id, NewLiveRow(Some(h)));
    ExecTwo(conn.db, InsertFod(id, Submission(h, at)), second);
    created := conn.ExecQuery([InsertFod(id, Submission(h, at)), second]);
    a := if fod.Some? then Answered(id, fod.value) else Counted(id, h, at, leader);
  }

  /** Undisturbed, a submission is the uninterrupted one of the machine. */
  lemma UndisturbedIsAtomic(s: State, m: Moments, h: Hashes, at: int, a: Asking)
    requires Undisturbed(m) && m.number == s.db && IsAnswer(m, s.world.signatures, h, at, a)
    ensures exists pick :: AtomicEnabled(s, Submits(a.id, h, at, pick))
                        && AtomicApply(s, Submits(a.id, h, at, pick)).db == Enter(s.db, EntryOf(a))
  {
    if a.Answered? {
      var pick :| Picked(m.pick, h, pick) && a.fod == CachedFod(m.pick, h, at, pick, IsCleanHash(m.clean, h));
      assert AtomicEnabled(s, Submits(a.id, h, at, pick));
    } else {
      var pick := SomePick(s.db, h);
      assert AtomicEnabled(s, Submits(a.id, h, at, pick));
    }
  }

  lemma SomePick(db: Db, h: Hashes) returns (pick: Option<int>)
    ensures Picked(db, h, pick)
  {
    if id :| id in db.fods && Matches(db.fods[id].hashes, h) {
      pick := Some(id);
    } else {
      pick := None;
    }
  }

  // ---------------------------------------------------------------- overriding a verdict

  datatype Response = StillAnalysing | InvalidVerdict | AlreadyOverridden | Success

  function Requested(text: string): Verdict {
    var verdict := Lower(TrimSpace(text));
    if verdict == "allow" then Allow else if verdict == "block" then Block else NoVerdict
  }

  /**
   Rejected while the file is analysed; otherwise the verdict of every row of the file is rewritten in the tables of
   a later moment, or nothing at all.
   */
  method OverrideFileVerdict(conn: Connection, id: int, text: string, later: Db, ghost s: State)
    returns (response: Response)
    requires conn.db == s.db
    modifies conn
    ensures response == StillAnalysing <==> id !in s.db.fods || s.db.fods[id].rating.NoRating?
    ensures response == InvalidVerdict <==>
              id in s.db.fods && !s.db.fods[id].rating.NoRating? && Requested(text).NoVerdict?
    ensures response == Success <==> AskEnabled(s, ReadOverride(id, Requested(text)))
    ensures conn.db == if response == Success then Enter(later, OverrideRows(s.db.fods[id].hashes, Requested(text)))
                       else s.db
    ensures var word := Lower(TrimSpace(text));
            var decided := id in s.db.fods && s.db.fods[id].rating != NoRating;
            && (response == InvalidVerdict <==> decided && word != "allow" && word != "block")
            && (response == Success <==>
                  decided && ((word == "allow" && s.db.fods[id].verdict != Allow)
                              || (word == "block" && s.db.fods[id].verdict != Block)))
            && (response == Success ==>
                  && conn.db == later.(fods := conn.db.fods) && conn.db.fods.Keys == later.fods.Keys
                  && forall k | k in later.fods ::
                       conn.db.fods[k] == if !Matches(later.fods[k].hashes, s.db.fods[id].hashes) then later.fods[k]
                                          else later.fods[k].(verdict := if word == "allow" then Allow else Block,
                                                              overridden := true))
  {
    if id !in conn.db.fods || conn.db.fods[id].rating.NoRating? {
      return StillAnalysing;
    }
    var fod := conn.db.fods[id];
    var verdict := Requested(text);
    if verdict != Allow && verdict != Block {
      return InvalidVerdict;
    }
    if fod.verdict == verdict {
      return AlreadyOverridden;
    }
    conn.db := later;
    ExecOne(conn.db, OverrideFods(fod.hashes, verdict));
    var ok := conn.ExecQuery([OverrideFods(fod.hashes, verdict)]);
    return Success;
  }

  // ---------------------------------------------------------------- start-up

  function UpdateWhere(live: map<int, LiveRow>, from: Status, to: Status): map<int, LiveRow> {
    map id | id in live :: if live[id].status == from then live[id].(status := to) else live[id]
  }

  /** A missing, unreadable or odd flag file counts as no reboot; a seen reboot is acknowledged in the file. */
  method ResetQueueDb(conn: Connection, flagFile: Option<string>) returns (flagFile': Option<string>)
    modifies conn
    ensures var rebooted := flagFile.Some? && TrimSpace(flagFile.value) == "1";
            && conn.db == Reset(old(conn.db), rebooted)
            && flagFile' == if rebooted then Some("0") else flagFile
    ensures flagFile'.Some? ==> TrimSpace(flagFile'.value) != "1"
    ensures conn.db == old(conn.db).(live := conn.db.live) && conn.db.live.Keys == old(conn.db).live.Keys
    ensures var rebooted := flagFile.Some? && TrimSpace(flagFile.value) == "1";
            forall id | id in conn.db.live ::
              var row := old(conn.db).live[id];
              conn.db.live[id] == row.(status := if rebooted then if id > 0 then PendingNotInQueue else row.status
                                                 else if row.status == PendingInQueue then PendingNotInQueue
                                                 else if row.status == RunningInQueue then RunningNotInQueue
                                                 else row.status)
  {
    var rebooted := flagFile.Some? && TrimSpace(flagFile.value) == "1";
    flagFile' := flagFile;
    var live := conn.db.live;
    if rebooted {
      conn.db := conn.db.(live :=
        map id | id in live :: if id > 0 then live[id].(status := PendingNotInQueue) else live[id]);
      flagFile' := Some("0");
      assert TrimLeft("0") == "0" && TrimRight("0") == "0";
    } else {
      live := UpdateWhere(live, PendingInQueue, PendingNotInQueue);
      live := UpdateWhere(live, RunningInQueue, RunningNotInQueue);
      conn.db := conn.db.(live := live);
    }
  }
}
