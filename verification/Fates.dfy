/** The fate of a live row once all messages have been applied, and the copies of a task on their way. */
module Fates {
  import opened Records
  import opened Database
  import opened Transactions
  import opened Machine

  // ---------------------------------------------------------------- what the pending messages will do

  datatype Outcome = Gone | At(status: Status, flag: bool)

  function After(o: Outcome, id: int, m: Task): Outcome {
    if o.Gone? || m.id != id || m.status.SandboxApiTimeout? then o
    else if Terminal(m.status) then Gone
    else At(m.status, m.logQueueFailed)
  }

  /** The fate of a row once all messages have been applied in order. */
  function Settle(o: Outcome, id: int, messages: seq<Task>): Outcome
    decreases |messages|
  {
    if messages == [] then o else Settle(After(o, id, messages[0]), id, messages[1..])
  }

  /** The sweep will not look for the row again, if flags are not trusted to survive. */
  predicate SafeOutcome(o: Outcome, trust: bool) {
    o.Gone? || NotInQueue(o.status) || (trust && o.flag)
  }

  function RowOutcome(row: LiveRow): Outcome {
    At(row.status, row.logQueueFailed)
  }

  lemma {:induction false} SettleSnoc(o: Outcome, id: int, messages: seq<Task>, m: Task)
    ensures Settle(o, id, messages + [m]) == After(Settle(o, id, messages), id, m)
    decreases |messages|
  {
    if messages == [] {
      assert messages + [m] == [m];
      assert [m][1..] == [];
    } else {
      assert (messages + [m])[1..] == messages[1..] + [m];
      SettleSnoc(After(o, id, messages[0]), id, messages[1..], m);
    }
  }

  lemma {:induction false} SettleForeign(o: Outcome, id: int, messages: seq<Task>)
    requires forall m | m in messages :: m.id != id
    ensures Settle(o, id, messages) == o
    decreases |messages|
  {
    if messages != [] {
      assert messages[0] in messages;
      SettleForeign(o, id, messages[1..]);
    }
  }

  /** The flag a row starts with matters only if no message reaches the row. */
  lemma {:induction false} SettleFlag(status: Status, f: bool, g: bool, id: int, messages: seq<Task>)
    ensures var o, p := Settle(At(status, f), id, messages), Settle(At(status, g), id, messages);
            o == p || (o == At(status, f) && p == At(status, g))
    decreases |messages|
  {
    if messages != [] {
      var o, p := After(At(status, f), id, messages[0]), After(At(status, g), id, messages[0]);
      if o != p {
        SettleFlag(status, f, g, id, messages[1..]);
      }
    }
  }

  /** All messages not yet applied, oldest first. */
  function Messages(logger: Logger, log: seq<Task>): seq<Task> {
    (match logger.phase
     case Listening => []
     case Reporting(t, _, _) => [t.(status := Reported)]
     case Aborting(t, _) => [t.(status := Aborted)])
    + logger.batch + log
  }

  function Pending(s: State): seq<Task> {
    Messages(s.logger, s.ch.log)
  }

  // ---------------------------------------------------------------- copies on their way

  ghost function TaskIds(tasks: seq<Task>): set<int> {
    set t | t in tasks :: t.id
  }

  ghost function SendIds(tasks: multiset<Task>): set<int> {
    set t | t in tasks :: t.id
  }

  ghost function FlightIds(flights: multiset<Flight>): set<int> {
    set f | f in flights :: f.task.id
  }

  ghost function WorkIds(s: State): set<int> {
    TaskIds(s.ch.pending) + TaskIds(s.pender.batch) + SendIds(s.pender.sending) + FlightIds(s.pender.returned)
    + TaskIds(s.ch.running) + TaskIds(s.runner.batch)
  }

  lemma TaskIdsSnoc(tasks: seq<Task>, t: Task)
    ensures TaskIds(tasks + [t]) == TaskIds(tasks) + {t.id}
  {
    assert t in tasks + [t];
  }

  lemma TaskIdsHead(tasks: seq<Task>)
    requires tasks != []
    ensures TaskIds(tasks) == {tasks[0].id} + TaskIds(tasks[1..])
  {
    assert tasks == [tasks[0]] + tasks[1..];
    assert tasks[0] in tasks;
  }

  lemma FlightIdsLand(flights: multiset<Flight>, f: Flight)
    requires f in flights
    ensures FlightIds(flights) == FlightIds(flights - multiset{f}) + {f.task.id}
  {
    assert forall g | g in flights && g != f :: g in flights - multiset{f};
  }

  lemma FlightIdsAdd(flights: multiset<Flight>, f: Flight)
    ensures FlightIds(flights + multiset{f}) == FlightIds(flights) + {f.task.id}
  {
    assert f in flights + multiset{f};
    assert forall g | g in flights :: g in flights + multiset{f};
  }

  lemma SendIdsTake(tasks: multiset<Task>, t: Task)
    requires t in tasks
    ensures SendIds(tasks) == SendIds(tasks - multiset{t}) + {t.id}
  {
    assert forall u | u in tasks && u != t :: u in tasks - multiset{t};
  }

  lemma SendIdsAdd(tasks: multiset<Task>, t: Task)
    ensures SendIds(tasks + multiset{t}) == SendIds(tasks) + {t.id}
  {
    assert t in tasks + multiset{t};
    assert forall u | u in tasks :: u in tasks + multiset{t};
  }
}
