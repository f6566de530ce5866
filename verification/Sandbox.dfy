/** The sandbox: its listing as the handlers use it, and the mock client that stands for it in tests. */
module Sandbox {
  import opened Records
  import opened Machine
  import opened Store

  datatype Listed = Listed(sandboxId: int, status: SandboxStatus)

  /** A listing names every sandbox task once. */
  ghost predicate Lists(listing: seq<Listed>, sandbox: map<int, SandboxStatus>) {
    && (forall r | r in listing :: r.sandboxId in sandbox && sandbox[r.sandboxId] == r.status)
    && (forall k | k in sandbox :: Listed(k, sandbox[k]) in listing)
    && (forall i, j | 0 <= i < j < |listing| :: listing[i].sandboxId != listing[j].sandboxId)
  }

  function CountUnreported(listing: seq<Listed>): nat {
    if listing == [] then 0
    else CountUnreported(listing[..|listing| - 1]) + if Unreported(listing[|listing| - 1].status) then 1 else 0
  }

  ghost function UnreportedIn(listing: seq<Listed>): set<int> {
    set r | r in listing && Unreported(r.status) :: r.sandboxId
  }

  lemma {:induction false} CountIsSize(listing: seq<Listed>)
    requires forall i, j | 0 <= i < j < |listing| :: listing[i].sandboxId != listing[j].sandboxId
    ensures CountUnreported(listing) == |UnreportedIn(listing)|
  {
    if listing == [] {
      assert UnreportedIn(listing) == {};
    } else {
      var last := listing[|listing| - 1];
      var front := listing[..|listing| - 1];
      CountIsSize(front);
      assert listing == front + [last];
      if Unreported(last.status) {
        assert UnreportedIn(listing) == UnreportedIn(front) + {last.sandboxId};
        assert last.sandboxId !in UnreportedIn(front);
      } else {
        assert UnreportedIn(listing) == UnreportedIn(front);
      }
    }
  }

  /** The tasks of the listing that still occupy a machine; a listing that could not be read counts for nothing. */
  method FetchSandboxTaskCountWhichAreNotReported(listing: Option<seq<Listed>>, ghost sandbox: map<int, SandboxStatus>)
    returns (count: nat)
    requires listing.Some? ==> Lists(listing.value, sandbox)
    ensures count == if listing.Some? then |UnreportedIds(sandbox)| else 0
    ensures listing.Some? ==>
              count == |set k | k in sandbox && sandbox[k] in {SbPending, SbRunning, SbCompleted, SbOther}|
  {
    var rows := if listing.Some? then listing.value else [];
    count := 0;
    for i := 0 to |rows|
      invariant count == CountUnreported(rows[..i])
    {
      assert rows[..i + 1][..i] == rows[..i];
      if Unreported(rows[i].status) {
        count := count + 1;
      }
    }
    assert rows[..|rows|] == rows;
    if listing.Some? {
      CountIsSize(rows);
      forall k | k in UnreportedIds(sandbox) ensures k in UnreportedIn(rows) {
        assert Listed(k, sandbox[k]) in rows;
      }
      assert UnreportedIn(rows) == UnreportedIds(sandbox);
      var busy := set k | k in sandbox && sandbox[k] in {SbPending, SbRunning, SbCompleted, SbOther};
      forall k ensures k in busy <==> k in UnreportedIds(sandbox) {}
      assert busy == UnreportedIds(sandbox);
    }
  }

  /** The running handler's index of the listing is the sandbox's own table. */
  method IndexListing(listing: seq<Listed>, ghost sandbox: map<int, SandboxStatus>)
    returns (index: map<int, SandboxStatus>)
    requires Lists(listing, sandbox)
    ensures index == sandbox
  {
    index := map[];
    for i := 0 to |listing|
      invariant forall k | k in index :: k in sandbox && index[k] == sandbox[k]
      invariant forall j | 0 <= j < i :: listing[j].sandboxId in index
    {
      index := index[listing[i].sandboxId := listing[i].status];
    }
    forall k ensures k in index.Keys <==> k in sandbox.Keys {
      if k in sandbox {
        assert Listed(k, sandbox[k]) in listing;
      }
    }
    assert index.Keys == sandbox.Keys;
    forall k | k in index.Keys ensures index[k] == sandbox[k] {}
  }

  // ---------------------------------------------------------------- the mock

  datatype Analysis = Analysis(status: SandboxStatus, addedOn: int, completedOn: int, score: real)

  /** One pass of the status loop over one task. */
  function Advance(a: Analysis, now: int, score: real): Analysis {
    match a.status
    case SbPending => if now - a.addedOn > 2 then a.(status := SbRunning) else a
    case SbRunning => if now - a.addedOn > 4 then a.(status := SbCompleted, completedOn := now) else a
    case SbCompleted => if now - a.addedOn > 6 then a.(status := SbReported, score := score) else a
    case _ => a
  }

  class MockCuckooClient {
    var tasks: map<int, Analysis>
    var nextId: int

    ghost predicate Valid()
      reads this
    {
      nextId >= 1 && forall k | k in tasks :: 1 <= k < nextId
    }

    /** What the handlers see of the mock. */
    ghost function View(): map<int, SandboxStatus>
      reads this
    {
      map k | k in tasks :: tasks[k].status
    }

    constructor ()
      ensures Valid() && View() == map[] && nextId == 1
    {
      tasks := map[];
      nextId := 1;
    }

    /** Every pass moves each task at most one stage forward and leaves reported tasks alone. */
    method UpdateTaskStatuses(now: int, draw: int -> real)
      requires Valid()
      modifies this`tasks
      ensures Valid()
      ensures tasks == map k | k in old(tasks) :: Advance(old(tasks)[k], now, draw(k))
    {
      var before := tasks;
      var left := before.Keys;
      while left != {}
        invariant left <= before.Keys == tasks.Keys && Valid()
        invariant forall k | k in before ::
                    tasks[k] == if k in left then before[k] else Advance(before[k], now, draw(k))
        decreases |left|
      {
        var k := AnyOf(left);
        left := left - {k};
        tasks := tasks[k := Advance(tasks[k], now, draw(k))];
      }
      assert forall k | k in tasks :: tasks[k] == Advance(before[k], now, draw(k));
    }

    /** A new task gets an id that was never used before; a failing service changes nothing. */
    method CreateTaskFile(now: int, failing: bool) returns (sandboxId: int)
      requires Valid()
      modifies this
      ensures Valid()
      ensures failing ==> sandboxId == 0 && tasks == old(tasks) && nextId == old(nextId)
      ensures !failing ==> sandboxId == old(nextId) && sandboxId !in old(tasks) && nextId == old(nextId) + 1
                           && View() == old(View())[sandboxId := SbPending]
                           && tasks == old(tasks)[sandboxId := Analysis(SbPending, now, 0, 0.0)]
    {
      if failing {
        return 0;
      }
      sandboxId := nextId;
      nextId := nextId + 1;
      tasks := tasks[sandboxId := Analysis(SbPending, now, 0, 0.0)];
    }

    method TasksDelete(sandboxId: int, failing: bool)
      requires Valid()
      modifies this`tasks
      ensures Valid()
      ensures View() == if failing then old(View()) else old(View()) - {sandboxId}
    {
      if !failing {
        tasks := tasks - {sandboxId};
      }
    }

    method ListAllTasks() returns (listing: seq<Listed>)
      ensures Lists(listing, View())
    {
      listing := [];
      var left := tasks.Keys;
      while left != {}
        invariant left <= tasks.Keys
        invariant forall r | r in listing ::
                    r.sandboxId in tasks && r.sandboxId !in left && tasks[r.sandboxId].status == r.status
        invariant forall k | k in tasks && k !in left :: Listed(k, tasks[k].status) in listing
        invariant forall i, j | 0 <= i < j < |listing| :: listing[i].sandboxId != listing[j].sandboxId
        decreases |left|
      {
        var k := AnyOf(left);
        left := left - {k};
        listing := listing + [Listed(k, tasks[k].status)];
      }
    }
  }

  /** Statuses only move forward, one stage a pass, so each change is a sandbox move of the machine. */
  lemma AdvanceMonotone(a: Analysis, now: int, score: real)
    ensures var b := Advance(a, now, score);
            && (b.status == a.status || (a.status, b.status) in
                {(SbPending, SbRunning), (SbRunning, SbCompleted), (SbCompleted, SbReported)})
            && (b.status != a.status ==> Unreported(a.status))
            && (b.status != a.status <==>
                  || (a.status.SbPending? && now > a.addedOn + 2) || (a.status.SbRunning? && now > a.addedOn + 4)
                  || (a.status.SbCompleted? && now > a.addedOn + 6))
            && b.addedOn == a.addedOn
            && b.completedOn == (if a.status.SbRunning? && b.status.SbCompleted? then now else a.completedOn)
            && b.score == (if a.status.SbCompleted? && b.status.SbReported? then score else a.score)
  {
  }

  /** A task left alone for more than six seconds is reported after three more passes at the latest. */
  lemma ReportedInThree(a: Analysis, t1: int, t2: int, t3: int, score: real)
    requires a.status in {SbPending, SbRunning, SbCompleted, SbReported} && a.addedOn + 6 < t1 <= t2 <= t3
    ensures Advance(Advance(Advance(a, t1, score), t2, score), t3, score).status == SbReported
  {
  }
}
