/**
 * The data-quality gate: `DataQualityOperator` runs each configured check
 * query, compares the first column of the first returned row with the
 * expected value, counts and records the failures on the operator, and
 * raises `ValueError` when the count is positive.
 */
module DataQuality {
  import opened Results
  import opened Warehouse

  /** One entry of `dq_checks`: `{check_sql_query, expected_result}`. */
  datatype Check = Check(query: string, expected: Value)

  /**
   * What `execute` makes of one check: `Ok(true)` when the first column of
   * the first row equals the expected value, `Ok(false)` when it differs,
   * and the exception otherwise (a refused query, or `[0]` on no rows or on
   * an empty row).
   */
  function Evaluate(db: Db, c: Check): (r: Result<bool, Error>)
    ensures Records(db, c.query).Err? ==> r == Err(Records(db, c.query).error)
    ensures r.Ok? <==> Records(db, c.query).Ok? && |Records(db, c.query).value| > 0
                       && |Records(db, c.query).value[0]| > 0
    ensures r.Ok? ==> r.value == (c.expected == Records(db, c.query).value[0][0])
    ensures r.Err? && Records(db, c.query).Ok? ==> r == Err(IndexError)
  {
    match Records(db, c.query)
    case Err(e) => Err(e)
    case Ok(rows) =>
      if |rows| == 0 || |rows[0]| == 0 then Err(IndexError) else Ok(c.expected == rows[0][0])
  }

  predicate Passes(db: Db, c: Check) {
    Evaluate(db, c) == Ok(true)
  }

  predicate Fails(db: Db, c: Check) {
    Evaluate(db, c) == Ok(false)
  }

  /** Index of the first check whose evaluation raises, or `|checks|` if none does. */
  function FirstUnreadable(db: Db, checks: seq<Check>): (k: nat)
    ensures k <= |checks|
    ensures forall i :: 0 <= i < k ==> Evaluate(db, checks[i]).Ok?
    ensures k < |checks| ==> Evaluate(db, checks[k]).Err?
  {
    if checks == [] || Evaluate(db, checks[0]).Err? then 0
    else 1 + FirstUnreadable(db, checks[1..])
  }

  /** The queries of the failing checks, in the order of `checks`. */
  function Failing(db: Db, checks: seq<Check>): (r: seq<string>)
    ensures |r| <= |checks|
  {
    if checks == [] then []
    else (if Fails(db, checks[0]) then [checks[0].query] else []) + Failing(db, checks[1..])
  }

  function Queries(checks: seq<Check>): seq<string> {
    seq(|checks|, i requires 0 <= i < |checks| => checks[i].query)
  }

  /** The log entries of `get_records` calls on the given queries. */
  function Fetches(qs: seq<string>): seq<Stmt> {
    seq(|qs|, i requires 0 <= i < |qs| => Fetch(qs[i]))
  }

  /** Querying one more check logs one more fetch. */
  lemma FetchesStep(checks: seq<Check>, i: nat)
    requires i < |checks|
    ensures Fetches(Queries(checks[..i + 1])) == Fetches(Queries(checks[..i])) + [Fetch(checks[i].query)]
  {
    assert checks[..i + 1] == checks[..i] + [checks[i]];
  }

  /** The two fields `execute` updates. */
  datatype QualityState = QualityState(errorCount: nat, failingTests: seq<string>)

  /** The state of a new operator: no errors counted, no failing queries. */
  const Fresh := QualityState(0, [])

  /** The effect of one `execute`: new state, how it ended, and the queries it sent. */
  datatype QualityRun = QualityRun(after: QualityState, outcome: Outcome, queried: seq<string>)

  /**
   * The specification of `execute`: the checks before the first unreadable
   * one are evaluated, their failures are added to the state in order, and
   * the run raises that check's exception, or else raises `ValueError` when
   * the (accumulated) error count is positive.
   */
  function Run(db: Db, checks: seq<Check>, before: QualityState): (r: QualityRun)
    ensures |r.queried| <= |checks|
    ensures r.outcome == Success ==> |r.queried| == |checks| && r.after.errorCount == 0
  {
    var k := FirstUnreadable(db, checks);
    var failing := Failing(db, checks[..k]);
    var after := QualityState(before.errorCount + |failing|, before.failingTests + failing);
    if k < |checks| then
      QualityRun(after, Raised(Evaluate(db, checks[k]).error), Queries(checks[..k + 1]))
    else
      QualityRun(after,
                 if after.errorCount > 0 then Raised(ValueError("Data quality check failed")) else Success,
                 Queries(checks))
  }

  /** How `Run` ends when check `k` is the first unreadable one. */
  lemma RunStopsAt(db: Db, checks: seq<Check>, before: QualityState, k: nat)
    requires k < |checks| && k <= FirstUnreadable(db, checks) && Evaluate(db, checks[k]).Err?
    ensures var failing := Failing(db, checks[..k]);
      Run(db, checks, before)
        == QualityRun(QualityState(before.errorCount + |failing|, before.failingTests + failing),
                      Raised(Evaluate(db, checks[k]).error), Queries(checks[..k + 1]))
  {
  }

  /** `RunStopsAt` in terms of the rows `get_records` returned for check `k`. */
  lemma RunStopsOnRows(db: Db, checks: seq<Check>, before: QualityState, k: nat, rows: Result<seq<Row>, Error>)
    requires k < |checks| && k <= FirstUnreadable(db, checks)
    requires rows == Records(db, checks[k].query)
    requires rows.Err? || |rows.value| == 0 || |rows.value[0]| == 0
    ensures var failing := Failing(db, checks[..k]);
      Run(db, checks, before)
        == QualityRun(QualityState(before.errorCount + |failing|, before.failingTests + failing),
                      if rows.Err? then Raised(rows.error) else Raised(IndexError),
                      Queries(checks[..k + 1]))
  {
    RunStopsAt(db, checks, before, k);
  }

  /** How `Run` ends when every check is readable. */
  lemma RunCompletes(db: Db, checks: seq<Check>, before: QualityState)
    requires FirstUnreadable(db, checks) == |checks|
    ensures var failing := Failing(db, checks);
      var count := before.errorCount + |failing|;
      Run(db, checks, before)
        == QualityRun(QualityState(count, before.failingTests + failing),
                      if count > 0 then Raised(ValueError("Data quality check failed")) else Success,
                      Queries(checks))
  {
    assert checks[..|checks|] == checks;
  }

  /** Failures of a concatenation are the failures of each part, in order. */
  lemma {:induction false} FailingAppend(db: Db, a: seq<Check>, b: seq<Check>)
    ensures Failing(db, a + b) == Failing(db, a) + Failing(db, b)
    decreases |a|
  {
    if a != [] {
      assert (a + b)[0] == a[0];
      assert (a + b)[1..] == a[1..] + b;
      FailingAppend(db, a[1..], b);
    } else {
      assert a + b == b;
    }
  }

  /** Extending a prefix by one check adds that check's query when it fails. */
  lemma FailingStep(db: Db, checks: seq<Check>, i: nat)
    requires i < |checks|
    ensures Failing(db, checks[..i + 1])
         == Failing(db, checks[..i]) + (if Fails(db, checks[i]) then [checks[i].query] else [])
  {
    assert checks[..i + 1] == checks[..i] + [checks[i]];
    FailingAppend(db, checks[..i], [checks[i]]);
    FailingSingle(db, checks[i]);
  }

  /** A readable check inside the readable prefix extends it. */
  lemma ReadableStep(db: Db, checks: seq<Check>, i: nat)
    requires i < |checks| && i <= FirstUnreadable(db, checks) && Evaluate(db, checks[i]).Ok?
    ensures i + 1 <= FirstUnreadable(db, checks)
  {
  }

  /** One readable check, in terms of the rows `get_records` returned for it. */
  lemma ReadRowsStep(db: Db, checks: seq<Check>, i: nat, rows: Result<seq<Row>, Error>)
    requires i < |checks| && i <= FirstUnreadable(db, checks)
    requires rows == Records(db, checks[i].query)
    requires rows.Ok? && |rows.value| > 0 && |rows.value[0]| > 0
    ensures i + 1 <= FirstUnreadable(db, checks)
    ensures Failing(db, checks[..i + 1]) == Failing(db, checks[..i])
      + (if checks[i].expected != rows.value[0][0] then [checks[i].query] else [])
  {
    assert Evaluate(db, checks[i]) == Ok(checks[i].expected == rows.value[0][0]);
    ReadableStep(db, checks, i);
    FailingStep(db, checks, i);
  }

  /** A query is recorded as failing exactly when some check with that query fails. */
  lemma {:induction false} FailingMembers(db: Db, checks: seq<Check>, q: string)
    ensures q in Failing(db, checks)
        <==> exists i :: 0 <= i < |checks| && checks[i].query == q && Fails(db, checks[i])
    decreases |checks|
  {
    if checks != [] {
      FailingMembers(db, checks[1..], q);
      if q in Failing(db, checks[1..]) {
        var i :| 0 <= i < |checks[1..]| && checks[1..][i].query == q && Fails(db, checks[1..][i]);
        assert checks[i + 1] == checks[1..][i];
      }
      if exists i :: 0 <= i < |checks| && checks[i].query == q && Fails(db, checks[i]) {
        var i :| 0 <= i < |checks| && checks[i].query == q && Fails(db, checks[i]);
        if i > 0 {
          assert checks[1..][i - 1] == checks[i];
        }
      }
    }
  }

  /** A single check contributes its query exactly when it fails. */
  lemma FailingSingle(db: Db, c: Check)
    ensures Failing(db, [c]) == if Fails(db, c) then [c.query] else []
  {
    assert [c][1..] == [];
  }

  /** No query is recorded as failing exactly when no check fails. */
  lemma {:induction false} FailingEmptyIff(db: Db, checks: seq<Check>)
    ensures Failing(db, checks) == [] <==> forall i :: 0 <= i < |checks| ==> !Fails(db, checks[i])
  {
    if Failing(db, checks) != [] {
      FailingMembers(db, checks, Failing(db, checks)[0]);
    }
    if exists i :: 0 <= i < |checks| && Fails(db, checks[i]) {
      var i :| 0 <= i < |checks| && Fails(db, checks[i]);
      FailingMembers(db, checks, checks[i].query);
    }
  }

  /**
   * `execute` raises exactly when a check is unreadable or the error count
   * after the loop is positive; when every check is readable every check is
   * queried once, in list order.
   */
  lemma RunRaisesIff(db: Db, checks: seq<Check>, before: QualityState)
    ensures var r := Run(db, checks, before);
      && (r.outcome.Raised? <==> FirstUnreadable(db, checks) < |checks| || r.after.errorCount > 0)
      && (FirstUnreadable(db, checks) == |checks| ==> r.queried == Queries(checks))
      && (r.after.errorCount - before.errorCount == |r.after.failingTests| - |before.failingTests|)
  {
  }

  /**
   * On a new operator, `execute` succeeds exactly when every check reads a
   * value equal to its expected result.
   */
  lemma FreshSucceedsIff(db: Db, checks: seq<Check>)
    ensures Run(db, checks, Fresh).outcome == Success
        <==> forall i :: 0 <= i < |checks| ==> Passes(db, checks[i])
  {
    var k := FirstUnreadable(db, checks);
    if k == |checks| {
      assert checks[..k] == checks;
      FailingEmptyIff(db, checks);
    } else {
      assert !Passes(db, checks[k]);
    }
  }

  /** With no checks configured, a new operator always succeeds. */
  lemma NoChecksSucceed(db: Db)
    ensures Run(db, [], Fresh) == QualityRun(Fresh, Success, [])
  {
  }

  /**
   * The fields are never reset: a run on an operator whose count is
   * already positive raises, even if every check now passes, and keeps
   * the earlier failures at the front of the list.
   */
  lemma RunAccumulates(db: Db, checks: seq<Check>, before: QualityState)
    ensures var r := Run(db, checks, before);
      && r.after.errorCount >= before.errorCount
      && r.after.failingTests[..|before.failingTests|] == before.failingTests
      && (before.errorCount > 0 ==> r.outcome.Raised?)
  {
  }

  class DataQualityOperator {
    const redshiftConnId: string
    const dqChecks: seq<Check>
    var errorCount: nat
    var failingTests: seq<string>

    constructor (redshiftConnId: string := "", dqChecks: seq<Check> := [])
      ensures this.redshiftConnId == redshiftConnId && this.dqChecks == dqChecks
      ensures State() == Fresh
    {
      this.redshiftConnId := redshiftConnId;
      this.dqChecks := dqChecks;
      errorCount := 0;
      failingTests := [];
    }

    function State(): QualityState
      reads this
    {
      QualityState(errorCount, failingTests)
    }

    /**
     * Queries every check in order, counting and recording each failure,
     * stopping only at an exception, and raises `ValueError` at the end
     * when the error count is positive.
     */
    method Execute(conn: Connection) returns (outcome: Outcome)
      modifies this, conn
      ensures var r := Run(conn.db, dqChecks, old(State()));
        && State() == r.after
        && outcome == r.outcome
        && conn.log == old(conn.log) + Fetches(r.queried)
    {
      ghost var db := conn.db;
      ghost var before := State();
      ghost var log0 := conn.log;
      var i := 0;
      while i < |dqChecks|
        invariant 0 <= i <= |dqChecks|
        invariant i <= FirstUnreadable(db, dqChecks)
        invariant errorCount == before.errorCount + |Failing(db, dqChecks[..i])|
        invariant failingTests == before.failingTests + Failing(db, dqChecks[..i])
        invariant conn.log == log0 + Fetches(Queries(dqChecks[..i]))
      {
        var check := dqChecks[i];
        var records := conn.GetRecords(check.query);
        FetchesStep(dqChecks, i);
        assert conn.log == log0 + Fetches(Queries(dqChecks[..i + 1]));
        if records.Err? || |records.value| == 0 || |records.value[0]| == 0 {
          outcome := if records.Err? then Raised(records.error) else Raised(IndexError);
          RunStopsOnRows(db, dqChecks, before, i, records);
          return;
        }
        ReadRowsStep(db, dqChecks, i, records);
        ghost var failed := Failing(db, dqChecks[..i + 1]);
        if check.expected != records.value[0][0] {
          errorCount := errorCount + 1;
          failingTests := failingTests + [check.query];
          assert failingTests == before.failingTests + failed;
        } else {
          assert failed == Failing(db, dqChecks[..i]);
        }
        assert errorCount == before.errorCount + |failed|;
        i := i + 1;
      }
      assert dqChecks[..i] == dqChecks;
      RunCompletes(db, dqChecks, before);
      if errorCount > 0 {
        outcome := Raised(ValueError("Data quality check failed"));
      } else {
        outcome := Success;
      }
    }
  }
}
