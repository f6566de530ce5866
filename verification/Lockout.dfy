/** The login limiter: five wrong passwords close an account for five minutes. Times are in seconds. */
module Lockout {

  const INVALID_PASSWORD_LIMIT := 5
  const HOLD := 300
  const TYPE_ADMIN := 1

  datatype Record = Record(invalidAttempts: int, holdingSince: int)

  datatype Outcome = Locked | LoggedIn | WrongPassword | NoSuchUser | InvalidUserType

  predicate UnderTimeout(r: Record, now: int) {
    r.invalidAttempts >= INVALID_PASSWORD_LIMIT && now - r.holdingSince <= HOLD
  }

  /** One login attempt of an administrator: the record it leaves and the answer. */
  function Attempt(r: Record, now: int, matches: bool): (Record, Outcome) {
    if UnderTimeout(r, now) then (r, Locked)
    else
      var open := if r.invalidAttempts >= INVALID_PASSWORD_LIMIT then Record(0, now) else r;
      if matches then (Record(0, now), LoggedIn)
      else (Record(open.invalidAttempts + 1, now), WrongPassword)
  }

  // ---------------------------------------------------------------- the program

  class Accounts {
    var records: map<string, Record>

    constructor (records: map<string, Record>)
      ensures this.records == records
    {
      this.records := records;
    }

    method ClearTimeout(user: string, now: int)
      requires user in records
      modifies this
      ensures records == old(records)[user := Record(0, now)]
    {
      records := records[user := Record(0, now)];
    }

    method InvalidAttempted(user: string, now: int)
      requires user in records
      modifies this
      ensures records == old(records)[user := Record(old(records)[user].invalidAttempts + 1, now)]
    {
      records := records[user := Record(records[user].invalidAttempts + 1, now)];
    }

    /** Tells whether the account is closed, and opens it again once its time is over. */
    method CheckUnderTimeout(user: string, now: int) returns (closed: bool)
      requires user in records
      modifies this
      ensures closed == UnderTimeout(old(records)[user], now)
      ensures closed <==> old(records)[user].invalidAttempts >= 5 && now <= old(records)[user].holdingSince + 300
      ensures records == if !closed && old(records)[user].invalidAttempts >= INVALID_PASSWORD_LIMIT
                         then old(records)[user := Record(0, now)] else old(records)
    {
      if records[user].invalidAttempts >= INVALID_PASSWORD_LIMIT {
        var timeGap := now - records[user].holdingSince;
        if timeGap <= HOLD {
          return true;
        }
        ClearTimeout(user, now);
        return false;
      }
      return false;
    }

    method Authenticate(user: string, userType: int, now: int, matches: bool) returns (outcome: Outcome)
      modifies this
      ensures outcome == NoSuchUser <==> user !in old(records)
      ensures outcome == InvalidUserType <==> user in old(records) && userType != 1
      ensures outcome == Locked <==>
                user in old(records) && userType == 1
                && old(records)[user].invalidAttempts >= 5 && now <= old(records)[user].holdingSince + 300
      ensures outcome == LoggedIn ==> matches && records == old(records)[user := Record(0, now)]
      ensures outcome == WrongPassword ==>
                var count := old(records)[user].invalidAttempts;
                !matches && records == old(records)[user := Record(if count >= 5 then 1 else count + 1, now)]
      ensures outcome != LoggedIn && outcome != WrongPassword ==> records == old(records)
      ensures if user in old(records) && userType == TYPE_ADMIN
              then (old(records)[user := Attempt(old(records)[user], now, matches).0],
                    Attempt(old(records)[user], now, matches).1) == (records, outcome)
              else records == old(records)
    {
      if user !in records {
        return NoSuchUser;
      }
      if userType == TYPE_ADMIN {
        var closed := CheckUnderTimeout(user, now);
        if closed {
          assert records[user := records[user]] == records;
          return Locked;
        }
        if matches {
          ClearTimeout(user, now);
          assert records == old(records)[user := Record(0, now)];
          return LoggedIn;
        }
        InvalidAttempted(user, now);
        assert records == old(records)[user := records[user]];
        return WrongPassword;
      }
      return InvalidUserType;
    }
  }

  // ---------------------------------------------------------------- every sequence of attempts

  datatype Try = Try(now: int, matches: bool)

  function Outcomes(r: Record, tries: seq<Try>): (outcomes: seq<Outcome>)
    ensures |outcomes| == |tries|
    decreases |tries|
  {
    if tries == [] then []
    else
      var (r', outcome) := Attempt(r, tries[0].now, tries[0].matches);
      [outcome] + Outcomes(r', tries[1..])
  }

  function After(r: Record, tries: seq<Try>): Record
    decreases |tries|
  {
    if tries == [] then r else After(Attempt(r, tries[0].now, tries[0].matches).0, tries[1..])
  }

  predicate Ordered(tries: seq<Try>) {
    forall i, j | 0 <= i < j < |tries| :: tries[i].now <= tries[j].now
  }

  /** Password comparisons that failed. */
  function Failures(outcomes: seq<Outcome>): nat {
    if outcomes == [] then 0
    else (if outcomes[0] == WrongPassword then 1 else 0) + Failures(outcomes[1..])
  }

  /** How many comparisons may still fail up to HOLD seconds after `start`. */
  function Budget(r: Record, start: int): nat
    requires r.invalidAttempts >= 0
  {
    if r.invalidAttempts < INVALID_PASSWORD_LIMIT then INVALID_PASSWORD_LIMIT - r.invalidAttempts
    else if r.holdingSince >= start then 0
    else INVALID_PASSWORD_LIMIT
  }

  lemma {:induction false} FailuresWithinBudget(r: Record, tries: seq<Try>, start: int)
    requires r.invalidAttempts >= 0 && Ordered(tries)
    requires forall t | t in tries :: start <= t.now <= start + HOLD
    requires LoggedIn !in Outcomes(r, tries)
    ensures Failures(Outcomes(r, tries)) <= Budget(r, start)
    decreases |tries|
  {
    if tries != [] {
      var (r', outcome) := Attempt(r, tries[0].now, tries[0].matches);
      assert tries[0] in tries;
      assert Outcomes(r, tries) == [outcome] + Outcomes(r', tries[1..]);
      assert outcome in Outcomes(r, tries);
      FailuresWithinBudget(r', tries[1..], start);
    }
  }

  lemma {:induction false} OutcomesSplit(r: Record, a: seq<Try>, b: seq<Try>)
    requires r.invalidAttempts >= 0
    ensures Outcomes(r, a + b) == Outcomes(r, a) + Outcomes(After(r, a), b)
    ensures After(r, a).invalidAttempts >= 0
    decreases |a|
  {
    if a == [] {
      assert a + b == b;
    } else {
      assert (a + b)[0] == a[0] && (a + b)[1..] == a[1..] + b;
      OutcomesSplit(Attempt(r, a[0].now, a[0].matches).0, a[1..], b);
    }
  }

  lemma {:induction false} FailuresSnoc(outcomes: seq<Outcome>, o: Outcome)
    ensures Failures(outcomes + [o]) == Failures(outcomes) + if o == WrongPassword then 1 else 0
  {
    if outcomes == [] {
      assert outcomes + [o] == [o] && [o][1..] == [];
    } else {
      assert (outcomes + [o])[1..] == outcomes[1..] + [o];
      FailuresSnoc(outcomes[1..], o);
    }
  }

  /** The outcomes after the last successful login. */
  function SinceLogin(outcomes: seq<Outcome>): seq<Outcome> {
    if outcomes == [] || outcomes[|outcomes| - 1] == LoggedIn then []
    else SinceLogin(outcomes[..|outcomes| - 1]) + [outcomes[|outcomes| - 1]]
  }

  /** The recorded count is at most that of the comparisons that failed since the last login. */
  lemma {:induction false} CountSinceLogin(r: Record, tries: seq<Try>)
    requires r.invalidAttempts == 0
    ensures 0 <= After(r, tries).invalidAttempts <= Failures(SinceLogin(Outcomes(r, tries)))
  {
    if tries != [] {
      var front, last := tries[..|tries| - 1], tries[|tries| - 1];
      assert tries == front + [last];
      CountSinceLogin(r, front);
      OutcomesSplit(r, front, [last]);
      AfterSnoc(r, front, last);
      var before := Outcomes(r, front);
      var o := Attempt(After(r, front), last.now, last.matches).1;
      assert Outcomes(After(r, front), [last]) == [o] by { assert [last][1..] == []; }
      assert Outcomes(r, tries) == before + [o] && (before + [o])[..|before|] == before;
      FailuresSnoc(SinceLogin(before), o);
    }
  }

  lemma {:induction false} AfterSnoc(r: Record, tries: seq<Try>, t: Try)
    ensures After(r, tries + [t]) == Attempt(After(r, tries), t.now, t.matches).0
    decreases |tries|
  {
    if tries == [] {
      assert tries + [t] == [t] && [t][1..] == [];
    } else {
      assert (tries + [t])[0] == tries[0] && (tries + [t])[1..] == tries[1..] + [t];
      AfterSnoc(Attempt(r, tries[0].now, tries[0].matches).0, tries[1..], t);
    }
  }

  /**
   From a count of zero an attempt is refused without a look at the password only if five comparisons have failed
   since the last successful login, in every sequence of attempts.
   */
  lemma LockedNeedsFive(r: Record, tries: seq<Try>, next: Try)
    requires r.invalidAttempts == 0 && Attempt(After(r, tries), next.now, next.matches).1 == Locked
    ensures Failures(SinceLogin(Outcomes(r, tries))) >= 5
  {
    CountSinceLogin(r, tries);
  }

  lemma Middle<T>(a: seq<T>, b: seq<T>, c: seq<T>)
    ensures (a + (b + c))[|a|..|a| + |b|] == b
  {
  }

  /** The outcomes inside a stretch are those of the stretch alone, from the record it starts with. */
  lemma OutcomesInside(r: Record, tries: seq<Try>, i: nat, j: nat)
    requires r.invalidAttempts >= 0 && i <= j <= |tries|
    ensures Outcomes(r, tries)[i..j] == Outcomes(After(r, tries[..i]), tries[i..j])
    ensures After(r, tries[..i]).invalidAttempts >= 0
  {
    var before, window, later := tries[..i], tries[i..j], tries[j..];
    assert tries == before + (window + later);
    OutcomesSplit(r, before, window + later);
    var r' := After(r, before);
    OutcomesSplit(r', window, later);
    Middle(Outcomes(r, before), Outcomes(r', window), Outcomes(After(r', window), later));
  }

  /**
   In any stretch of at most 300 seconds of any sequence of attempts, at most five comparisons fail unless a
   login in that stretch succeeds.
   */
  lemma {:induction false} LockoutTheorem(r: Record, tries: seq<Try>, i: nat, j: nat)
    requires r.invalidAttempts >= 0 && Ordered(tries)
    requires i < j <= |tries| && tries[j - 1].now - tries[i].now <= 300
    requires LoggedIn !in Outcomes(r, tries)[i..j]
    ensures Failures(Outcomes(r, tries)[i..j]) <= 5
  {
    OutcomesInside(r, tries, i, j);
    StretchTimes(tries, i, j);
    FailuresWithinBudget(After(r, tries[..i]), tries[i..j], tries[i].now);
  }

  lemma StretchTimes(tries: seq<Try>, i: nat, j: nat)
    requires Ordered(tries) && i < j <= |tries| && tries[j - 1].now - tries[i].now <= HOLD
    ensures Ordered(tries[i..j])
    ensures forall t | t in tries[i..j] :: tries[i].now <= t.now <= tries[i].now + HOLD
  {
    forall t | t in tries[i..j] ensures tries[i].now <= t.now <= tries[i].now + HOLD {
      var k :| 0 <= k < |tries[i..j]| && tries[i..j][k] == t;
      assert tries[i + k] == t && (i + k == j - 1 || i + k < j - 1);
    }
  }

  /** Wrong passwords up to the limit are all compared, counted and dated. */
  lemma {:induction false} WrongInARow(r: Record, wrong: seq<Try>)
    requires r.invalidAttempts >= 0 && r.invalidAttempts + |wrong| <= INVALID_PASSWORD_LIMIT
    requires wrong != [] && forall t | t in wrong :: !t.matches
    ensures forall o | o in Outcomes(r, wrong) :: o == WrongPassword
    ensures After(r, wrong) == Record(r.invalidAttempts + |wrong|, wrong[|wrong| - 1].now)
    decreases |wrong|
  {
    assert wrong[0] in wrong;
    var r' := Attempt(r, wrong[0].now, false).0;
    assert Outcomes(r, wrong) == [WrongPassword] + Outcomes(r', wrong[1..]);
    if |wrong| > 1 {
      WrongInARow(r', wrong[1..]);
    }
  }

  /**
   Five wrong passwords in a row close the account: until 300 seconds after the fifth every attempt is refused
   without looking at the password, and the first attempt after that is compared again.
   */
  lemma FiveClose(r: Record, wrong: seq<Try>, next: Try)
    requires r.invalidAttempts == 0 && |wrong| == 5 && forall t | t in wrong :: !t.matches
    ensures Attempt(After(r, wrong), next.now, next.matches).1 ==
            if next.now <= wrong[4].now + 300 then Locked else if next.matches then LoggedIn else WrongPassword
    ensures next.now > wrong[4].now + 300 && !next.matches ==>
              Attempt(After(r, wrong), next.now, next.matches).0 == Record(1, next.now)
  {
    WrongInARow(r, wrong);
  }
}
