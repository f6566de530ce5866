/** The queries that a submission and the firewall make by hash. */
module Lookups {
  import opened Records

  /** Some row of the static signature table agrees in one column. */
  predicate Listed(signatures: set<Hashes>, h: Hashes) {
    exists m :: m in signatures && Matches(m, h)
  }

  predicate HasVerdict(db: Db, h: Hashes, verdict: Verdict) {
    exists id :: id in db.fods && Matches(db.fods[id].hashes, h) && db.fods[id].verdict == verdict
  }

  predicate IsMalwareHash(db: Db, signatures: set<Hashes>, h: Hashes) {
    Listed(signatures, h) || HasVerdict(db, h, Block)
  }

  predicate IsCleanHash(db: Db, h: Hashes) {
    HasVerdict(db, h, Allow)
  }

  /** A live row with recorded hashes that agree in one column. */
  predicate HasLeader(db: Db, h: Hashes) {
    exists id :: id in db.live && db.live[id].hashes.Some? && Matches(db.live[id].hashes.value, h)
  }

  /** The id after the largest one in use. */
  ghost predicate IsNextId(db: Db, id: int) {
    if db.fods.Keys == {} then id == 1
    else id - 1 in db.fods && forall k | k in db.fods :: k < id
  }

  /** Some row the query without an order may return first, if any matches. */
  ghost predicate Picked(db: Db, h: Hashes, pick: Option<int>) {
    match pick
    case None => forall id | id in db.fods :: !Matches(db.fods[id].hashes, h)
    case Some(id) => id in db.fods && Matches(db.fods[id].hashes, h)
  }

  /** The row stored for a known file: the picked row's decision, or the fallback when it has none. */
  function CachedFod(db: Db, h: Hashes, at: int, pick: Option<int>, clean: bool): Fod
    requires pick.Some? ==> pick.value in db.fods
  {
    var found := pick.Some? && !db.fods[pick.value].rating.NoRating? && !db.fods[pick.value].verdict.NoVerdict?;
    if found then
      var row := db.fods[pick.value];
      Fod(h, at, true, row.rating, row.verdict, row.score, false)
    else if clean then Fod(h, at, true, Clean, Allow, 0.0, false)
    else Fod(h, at, true, Critical, Block, 7.0, false)
  }
}
