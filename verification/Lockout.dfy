/** The attempts of one email address, oldest first, and what serial logins do to them. */
module Attempts {
  import opened Common

  /** Fifteen minutes, in seconds. */
  const WINDOW := 900

  datatype Config = Config(maxAttempts: int, lockout: int)

  datatype Attempt = Attempt(at: int, success: bool, lockedUntil: Option<int>)

  /** How a login ends once the account was found unlocked. */
  datatype Verdict = UnknownUser | Inactive | Unverified | WrongPassword | NeedsSecondFactor | LoggedIn

  /** A login arrives `wait` after the previous one ended and takes `think` until it records. */
  datatype Login = Login(wait: nat, think: nat, verdict: Verdict)

  predicate Locks(a: Attempt, now: int) { a.lockedUntil.Some? && now < a.lockedUntil.value }

  /** What isAccountLocked looks at: the newest row only. */
  predicate NewestLocks(rows: seq<Attempt>, now: int) {
    rows != [] && Locks(rows[|rows| - 1], now)
  }

  /** What it stands for: some row locks the account. */
  predicate SomeLocks(rows: seq<Attempt>, now: int) {
    exists i :: 0 <= i < |rows| && Locks(rows[i], now)
  }

  function FailedSince(rows: seq<Attempt>, after: int): nat {
    if rows == [] then 0
    else
      var a := rows[|rows| - 1];
      FailedSince(rows[..|rows| - 1], after) + (if !a.success && a.at > after then 1 else 0)
  }

  function Recorded(rows: seq<Attempt>, success: bool, now: int, c: Config): seq<Attempt> {
    var lock := !success && FailedSince(rows, now - WINDOW) >= c.maxAttempts - 1;
    rows + [Attempt(now, success, if lock then Some(now + c.lockout) else None)]
  }

  predicate Records(v: Verdict) { v.UnknownUser? || v.WrongPassword? || v.LoggedIn? }

  /** A login that saw the rows `seen` at its check and finds `rows` when it records. */
  function LoggedInOn(seen: seq<Attempt>, check: int, rows: seq<Attempt>, record: int, v: Verdict, c: Config)
    : seq<Attempt>
  {
    if !NewestLocks(seen, check) && Records(v) then Recorded(rows, v.LoggedIn?, record, c) else rows
  }

  /** With nothing recorded in between. */
  function LoggedInAt(rows: seq<Attempt>, check: int, record: int, v: Verdict, c: Config): seq<Attempt> {
    LoggedInOn(rows, check, rows, record, v, c)
  }

  datatype State = State(clock: int, rows: seq<Attempt>)

  function Step(s: State, l: Login, c: Config): State {
    var check := s.clock + 1 + l.wait;
    State(check + l.think, LoggedInAt(s.rows, check, check + l.think, l.verdict, c))
  }

  function Run(logins: seq<Login>, c: Config): State {
    if logins == [] then State(0, []) else Step(Run(logins[..|logins| - 1], c), logins[|logins| - 1], c)
  }

  // ----- What a record and a login come to -----

  /** The failures after a time, by position. */
  function FailuresAfter(rows: seq<Attempt>, after: int): set<int> {
    set i | 0 <= i < |rows| && !rows[i].success && after < rows[i].at
  }

  lemma {:induction false} FailedSinceCounts(rows: seq<Attempt>, after: int)
    ensures FailedSince(rows, after) == |FailuresAfter(rows, after)|
  {
    if rows != [] {
      var before, n := rows[..|rows| - 1], |rows| - 1;
      FailedSinceCounts(before, after);
      assert FailuresAfter(rows, after)
          == FailuresAfter(before, after) + (if !rows[n].success && after < rows[n].at then {n} else {});
    }
  }

  /** An attempt locks the account exactly if it is a failure and at least maxAttempts - 1 others came in
      the fifteen minutes before it, from then on for the length of the lockout. */
  lemma RecordEffect(rows: seq<Attempt>, success: bool, now: int, c: Config, x: int)
    ensures var t := Recorded(rows, success, now, c);
      && |t| == |rows| + 1 && t[..|rows|] == rows
      && t[|rows|].at == now && t[|rows|].success == success
      && (NewestLocks(t, x) <==>
            !success && c.maxAttempts <= |FailuresAfter(rows, now - 900)| + 1 && x < now + c.lockout)
  {
    FailedSinceCounts(rows, now - 900);
  }

  /** A login of a locked account records nothing. Otherwise an unknown user and a wrong password are
      recorded as failures, a complete login as a success, and nothing else is. */
  lemma LoginEffect(rows: seq<Attempt>, check: int, record: int, v: Verdict, c: Config)
    ensures var t, n := LoggedInAt(rows, check, record, v, c), |rows|;
      var locked := n > 0 && rows[n - 1].lockedUntil.Some? && check < rows[n - 1].lockedUntil.value;
      && (t != rows <==> !locked && v in {UnknownUser, WrongPassword, LoggedIn})
      && (t != rows ==>
            |t| == n + 1 && t[..n] == rows && t[n].at == record && (t[n].success <==> v == LoggedIn))
  {
  }

  // ----- What every serial run keeps -----

  /** Rows are in time order, each lock is what the count of earlier failures asked for, and
      nothing was recorded while an earlier row still locked the account. */
  ghost predicate Serial(s: State, c: Config) {
    && (forall i :: 0 <= i < |s.rows| ==> s.rows[i].at <= s.clock)
    && (forall i :: 0 <= i < |s.rows| ==> Explained(s.rows, i, c))
    && (forall i, j :: 0 <= i < j < |s.rows| ==> s.rows[i].at < s.rows[j].at && !Locks(s.rows[i], s.rows[j].at))
  }

  ghost predicate Explained(rows: seq<Attempt>, i: int, c: Config)
    requires 0 <= i < |rows|
  {
    var a := rows[i];
    var lock := !a.success && FailedSince(rows[..i], a.at - WINDOW) >= c.maxAttempts - 1;
    a.lockedUntil == if lock then Some(a.at + c.lockout) else None
  }

  lemma {:induction false} RunIsSerial(logins: seq<Login>, c: Config)
    ensures Serial(Run(logins, c), c)
  {
    if logins != [] {
      RunIsSerial(logins[..|logins| - 1], c);
      StepIsSerial(Run(logins[..|logins| - 1], c), logins[|logins| - 1], c);
    }
  }

  lemma StepIsSerial(s: State, l: Login, c: Config)
    requires Serial(s, c)
    ensures Serial(Step(s, l, c), c)
  {
    var check := s.clock + 1 + l.wait;
    if !NewestLocks(s.rows, check) && Records(l.verdict) {
      RecordIsSerial(s, l.verdict.LoggedIn?, check + l.think, c);
    } else {
      ReadIsSerial(s, check + l.think, c);
    }
  }

  lemma ReadIsSerial(s: State, now: int, c: Config)
    requires Serial(s, c) && s.clock <= now
    ensures Serial(State(now, s.rows), c)
  {
  }

  lemma RecordIsSerial(s: State, success: bool, now: int, c: Config)
    requires Serial(s, c) && s.clock < now && !NewestLocks(s.rows, now)
    ensures Serial(State(now, Recorded(s.rows, success, now, c)), c)
  {
    RecordIsExplained(s, success, now, c);
    RecordIsInOrder(s, success, now, c);
  }

  lemma RecordIsExplained(s: State, success: bool, now: int, c: Config)
    requires Serial(s, c) && s.clock < now
    ensures var rows := Recorded(s.rows, success, now, c);
      forall i :: 0 <= i < |rows| ==> Explained(rows, i, c)
  {
    var rows, n := Recorded(s.rows, success, now, c), |s.rows|;
    assert rows[..n] == s.rows;
    forall i | 0 <= i < n
      ensures Explained(rows, i, c)
    {
      assert Explained(s.rows, i, c) && rows[..i] == s.rows[..i];
    }
  }

  lemma RecordIsInOrder(s: State, success: bool, now: int, c: Config)
    requires Serial(s, c) && s.clock < now && !NewestLocks(s.rows, now)
    ensures var rows := Recorded(s.rows, success, now, c);
      forall i, j :: 0 <= i < j < |rows| ==> rows[i].at < rows[j].at && !Locks(rows[i], rows[j].at)
  {
    var rows, n := Recorded(s.rows, success, now, c), |s.rows|;
    forall i | 0 <= i < n
      ensures rows[i].at < rows[n].at && !Locks(rows[i], rows[n].at)
    {
      if i < n - 1 {
        assert !Locks(s.rows[i], s.rows[n - 1].at);
      }
    }
  }

  /** Reading only the newest row is as good as reading them all, at any time after a serial run. */
  lemma {:induction false} NewestRowDecides(logins: seq<Login>, c: Config, now: int)
    requires Run(logins, c).clock <= now
    ensures NewestLocks(Run(logins, c).rows, now) <==> SomeLocks(Run(logins, c).rows, now)
  {
    RunIsSerial(logins, c);
    var s := Run(logins, c);
    var last := |s.rows| - 1;
    forall i | 0 <= i < last
      ensures !Locks(s.rows[i], now)
    {
      assert !Locks(s.rows[i], s.rows[last].at);
    }
  }

  /** From the maxAttempts-th failure within a window on, the next record of any kind is a whole
      lockout away. */
  lemma LockoutSpacing(logins: seq<Login>, c: Config, i: int, j: int)
    requires 0 <= i < j < |Run(logins, c).rows|
    requires var rows := Run(logins, c).rows;
      !rows[i].success && FailedSince(rows[..i + 1], rows[i].at - WINDOW) >= c.maxAttempts
    ensures Run(logins, c).rows[i].at + c.lockout <= Run(logins, c).rows[j].at
  {
    RunIsSerial(logins, c);
    LockHolds(Run(logins, c), c, i, j);
  }

  lemma LockHolds(s: State, c: Config, i: int, j: int)
    requires Serial(s, c) && 0 <= i < j < |s.rows|
    requires !s.rows[i].success && FailedSince(s.rows[..i + 1], s.rows[i].at - WINDOW) >= c.maxAttempts
    ensures s.rows[i].at + c.lockout <= s.rows[j].at
  {
    assert s.rows[..i + 1][..i] == s.rows[..i];
    assert Explained(s.rows, i, c) && !Locks(s.rows[i], s.rows[j].at);
  }

  // ----- Failures in an interval of one window length -----

  function FailedBetween(rows: seq<Attempt>, from: int, to: int): nat {
    if rows == [] then 0
    else
      var a := rows[|rows| - 1];
      FailedBetween(rows[..|rows| - 1], from, to) + (if !a.success && from <= a.at < to then 1 else 0)
  }

  lemma {:induction false} WindowCounts(rows: seq<Attempt>, from: int, now: int)
    requires now < from + WINDOW
    ensures FailedBetween(rows, from, from + WINDOW) <= FailedSince(rows, now - WINDOW)
  {
    if rows != [] {
      WindowCounts(rows[..|rows| - 1], from, now);
    }
  }

  /** After the first M failures of the interval, each further one costs a lockout. */
  ghost predicate Paid(s: State, c: Config, from: int) {
    var m := Max(c.maxAttempts, 1);
    var n := FailedBetween(s.rows, from, from + WINDOW);
    && (n > m ==> (n - m) * c.lockout < WINDOW)
    && (n >= m ==> NextRecordFrom(s, from + (n - m) * c.lockout + c.lockout))
  }

  /** Nothing more can be recorded before `t`. */
  ghost predicate NextRecordFrom(s: State, t: int) {
    || t <= s.clock
    || (s.rows != [] && s.rows[|s.rows| - 1].lockedUntil.Some? && t <= s.rows[|s.rows| - 1].lockedUntil.value)
  }

  lemma StepPays(s: State, l: Login, c: Config, from: int)
    requires Paid(s, c, from)
    ensures Paid(Step(s, l, c), c, from)
  {
    var m := Max(c.maxAttempts, 1);
    var t := Step(s, l, c);
    if t.rows != s.rows {
      var n := FailedBetween(s.rows, from, from + WINDOW);
      var a := t.rows[|t.rows| - 1];
      assert t.rows[..|t.rows| - 1] == s.rows;
      Multiples(n - m, c.lockout);
      if !a.success && from <= a.at < from + WINDOW {
        WindowCounts(s.rows, from, a.at);
        assert FailedBetween(t.rows, from, from + WINDOW) == n + 1;
        assert n + 1 >= m ==> a.lockedUntil == Some(a.at + c.lockout);
        assert n >= m ==> from + (n - m) * c.lockout + c.lockout <= a.at;
        Multiples(n + 1 - m, c.lockout);
      } else {
        assert FailedBetween(t.rows, from, from + WINDOW) == n;
      }
    }
  }

  lemma {:induction false} RunIsPaid(logins: seq<Login>, c: Config, from: int)
    ensures Paid(Run(logins, c), c, from)
  {
    if logins != [] {
      RunIsPaid(logins[..|logins| - 1], c, from);
      StepPays(Run(logins[..|logins| - 1], c), logins[|logins| - 1], c, from);
    }
  }

  /** Any interval of one window length holds at most M failures plus one for each lockout that
      fits into it; with a lockout of at least a window, at most M. */
  lemma FailuresInWindow(logins: seq<Login>, c: Config, from: int)
    ensures var n := FailedBetween(Run(logins, c).rows, from, from + WINDOW);
      var m := Max(c.maxAttempts, 1);
      && (n <= m || (n - m) * c.lockout < WINDOW)
      && (WINDOW <= c.lockout ==> n <= m)
  {
    RunIsPaid(logins, c, from);
    var n := FailedBetween(Run(logins, c).rows, from, from + WINDOW);
    var m := Max(c.maxAttempts, 1);
    if n > m {
      Multiples(n - m, c.lockout);
    }
  }

  lemma Multiples(k: int, x: int)
    ensures (k + 1) * x == k * x + x
    ensures 1 <= k && 0 <= x ==> x <= k * x
  {
    if 1 <= k && 0 <= x {
      assert (k - 1) * x >= 0;
    }
  }

  // ----- Logins that overlap -----

  ghost predicate Agree(rows: seq<Attempt>, from: int) {
    forall now :: from <= now ==> (NewestLocks(rows, now) <==> SomeLocks(rows, now))
  }

  /**
   An attempt recorded without a fresh check, as happens when two logins overlap, keeps the
   newest row decisive exactly when the account was not locked, or the attempt is a failure and
   the failures before it are enough to lock the account again.
   */
  lemma UncheckedRecord(rows: seq<Attempt>, success: bool, now: int, c: Config)
    requires Agree(rows, now)
    requires forall i :: 0 <= i < |rows| ==>
      rows[i].at < now && (rows[i].lockedUntil.Some? ==> rows[i].lockedUntil.value == rows[i].at + c.lockout)
    ensures var t := Recorded(rows, success, now, c);
      Agree(t, now) <==>
        !NewestLocks(rows, now) || (!success && FailedSince(rows, now - WINDOW) >= c.maxAttempts - 1)
  {
    var t := Recorded(rows, success, now, c);
    var n := |rows|;
    if !NewestLocks(rows, now) || t[n].lockedUntil.Some? {
      forall x | now <= x
        ensures NewestLocks(t, x) <==> SomeLocks(t, x)
      {
        if SomeLocks(t, x) {
          var i :| 0 <= i <= n && Locks(t[i], x);
          if i < n {
            assert Locks(rows[i], now);
            assert SomeLocks(rows, now);
          }
        }
        if NewestLocks(t, x) {
          assert Locks(t[n], x);
        }
      }
    } else {
      assert Locks(t[n - 1], now);
      assert SomeLocks(t, now) && !NewestLocks(t, now);
    }
  }

  /** Two logins that both check before either records can leave a locked account open: the failure
      locks it, the success recorded just after hides the lock. */
  lemma OverlapUnlocks()
    ensures var c := Config(1, 900);
      var seen: seq<Attempt> := [];
      var rows := LoggedInOn(seen, 9, LoggedInOn(seen, 8, seen, 10, WrongPassword, c), 11, LoggedIn, c);
      SomeLocks(rows, 12) && !NewestLocks(rows, 12)
  {
    var c := Config(1, 900);
    var first := LoggedInOn([], 8, [], 10, WrongPassword, c);
    assert Locks(first[0], 12);
    assert LoggedInOn([], 9, first, 11, LoggedIn, c)[0] == first[0];
  }
}

/** The table of all addresses, and the handler's statements on it. */
module LoginAttempts {
  import opened Common
  import opened Attempts

  datatype Row = Row(email: string, attempt: Attempt)

  /** The attempts of one address. */
  function Of(table: seq<Row>, email: string): seq<Attempt> {
    if table == [] then []
    else
      var r := table[|table| - 1];
      Of(table[..|table| - 1], email) + (if r.email == email then [r.attempt] else [])
  }

  lemma OfSnoc(table: seq<Row>, r: Row, email: string)
    ensures Of(table + [r], email) == Of(table, email) + (if r.email == email then [r.attempt] else [])
  {
    assert (table + [r])[..|table|] == table;
  }

  /** No two attempts of an address have the same time; serial runs keep this. */
  ghost predicate InOrder(rows: seq<Attempt>) {
    forall i, j :: 0 <= i < j < |rows| ==> rows[i].at < rows[j].at
  }

  /** No row is newer; several may be as new, and then the database may return any of them. */
  ghost predicate IsNewest(rows: seq<Attempt>, a: Attempt) {
    a in rows && forall i :: 0 <= i < |rows| ==> rows[i].at <= a.at
  }

  ghost predicate Chosen(rows: seq<Attempt>, best: Option<Attempt>) {
    (best.None? <==> rows == []) && (best.Some? ==> IsNewest(rows, best.value))
  }

  lemma ChosenSnoc(rows: seq<Attempt>, best: Option<Attempt>, a: Attempt)
    requires Chosen(rows, best)
    ensures Chosen(rows + [a], if best.None? || best.value.at < a.at then Some(a) else best)
  {
    assert (rows + [a])[|rows|] == a;
    if best.Some? {
      var i :| 0 <= i < |rows| && rows[i] == best.value;
      assert (rows + [a])[i] == best.value;
    }
  }

  lemma ChosenNext(table: seq<Row>, i: nat, email: string, best: Option<Attempt>)
    requires i < |table| && Chosen(Of(table[..i], email), best)
    ensures var row := table[i];
      var next :=
        if row.email == email && (best.None? || best.value.at < row.attempt.at) then Some(row.attempt) else best;
      Chosen(Of(table[..i + 1], email), next)
  {
    OfSnoc(table[..i], table[i], email);
    assert table[..i] + [table[i]] == table[..i + 1];
    ChosenSnoc(Of(table[..i], email), best, table[i].attempt);
    assert table[i].email != email ==> Of(table[..i + 1], email) == Of(table[..i], email);
  }

  lemma NewestIsLast(rows: seq<Attempt>, a: Attempt)
    requires InOrder(rows) && IsNewest(rows, a)
    ensures a == rows[|rows| - 1]
  {
  }

  class LoginHandler {
    const config: Config
    var table: seq<Row>

    constructor (config: Config)
      ensures this.config == config && table == []
    {
      this.config := config;
      table := [];
    }

    /** SELECT locked_until ... ORDER BY created_at DESC LIMIT 1. */
    method IsAccountLocked(email: string, now: int) returns (locked: bool, ghost newest: Option<Attempt>)
      ensures Chosen(Of(table, email), newest)
      ensures locked <==> newest.Some? && Locks(newest.value, now)
      ensures InOrder(Of(table, email)) ==> locked == NewestLocks(Of(table, email), now)
    {
      var best: Option<Attempt> := None;
      var i := 0;
      while i < |table|
        invariant 0 <= i <= |table|
        invariant Chosen(Of(table[..i], email), best)
      {
        ChosenNext(table, i, email, best);
        if table[i].email == email && (best.None? || best.value.at < table[i].attempt.at) {
          best := Some(table[i].attempt);
        }
        i := i + 1;
      }
      assert table[..i] == table;
      newest := best;
      locked := best.Some? && best.value.lockedUntil.Some? && now < best.value.lockedUntil.value;
      if best.Some? && InOrder(Of(table, email)) {
        NewestIsLast(Of(table, email), best.value);
      }
    }

    /** SELECT COUNT(*) of the failures after a time. */
    method CountFailed(email: string, after: int) returns (failed: int)
      ensures failed == FailedSince(Of(table, email), after)
    {
      failed := 0;
      var i := 0;
      while i < |table|
        invariant 0 <= i <= |table|
        invariant failed == FailedSince(Of(table[..i], email), after)
      {
        OfSnoc(table[..i], table[i], email);
        assert table[..i] + [table[i]] == table[..i + 1];
        if table[i].email == email {
          var a := table[i].attempt;
          FailedSnoc(Of(table[..i], email), a, after);
          if !a.success && a.at > after {
            failed := failed + 1;
          }
        } else {
          assert Of(table[..i + 1], email) == Of(table[..i], email);
        }
        i := i + 1;
      }
      assert table[..i] == table;
    }

    /** Counts the failures of the last fifteen minutes, then inserts the attempt. */
    method RecordLoginAttempt(email: string, success: bool, now: int)
      modifies this`table
      ensures Of(table, email) == Recorded(old(Of(table, email)), success, now, config)
      ensures forall e :: e != email ==> Of(table, e) == old(Of(table, e))
    {
      var failed := CountFailed(email, now - WINDOW);
      var lockedUntil: Option<int> := None;
      if !success && failed >= config.maxAttempts - 1 {
        lockedUntil := Some(now + config.lockout);
      }
      var row := Row(email, Attempt(now, success, lockedUntil));
      ghost var before := table;
      table := table + [row];
      OfSnoc(before, row, email);
      forall e | e != email
        ensures Of(table, e) == Of(before, e)
      {
        OfSnoc(before, row, e);
      }
    }

    /** A login that checks the lock at `check` and, if it gets that far, records at `record`. */
    method Login(email: string, check: int, record: int, verdict: Verdict) returns (ghost newest: Option<Attempt>)
      modifies this`table
      ensures Chosen(old(Of(table, email)), newest)
      ensures Of(table, email) ==
        if (newest.Some? && Locks(newest.value, check)) || !Records(verdict) then old(Of(table, email))
        else Recorded(old(Of(table, email)), verdict.LoggedIn?, record, config)
      ensures InOrder(old(Of(table, email))) ==>
        Of(table, email) == LoggedInAt(old(Of(table, email)), check, record, verdict, config)
      ensures forall e :: e != email ==> Of(table, e) == old(Of(table, e))
    {
      var locked;
      locked, newest := IsAccountLocked(email, check);
      if locked {
        return;
      }
      match verdict
      case UnknownUser => RecordLoginAttempt(email, false, record);
      case Inactive =>
      case Unverified =>
      case WrongPassword => RecordLoginAttempt(email, false, record);
      case NeedsSecondFactor =>
      case LoggedIn => RecordLoginAttempt(email, true, record);
    }
  }

  lemma FailedSnoc(rows: seq<Attempt>, a: Attempt, after: int)
    ensures FailedSince(rows + [a], after) == FailedSince(rows, after) + (if !a.success && a.at > after then 1 else 0)
  {
    assert (rows + [a])[..|rows|] == rows;
  }
}
