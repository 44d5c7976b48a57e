/**
 * The Redshift connection the operators talk to through `PostgresHook`,
 * abstracted as a recorder of the statements sent to it, a map from query
 * text to the rows the query returns, and the set of statements the
 * database refuses.
 */
module Warehouse {
  import opened Results
  import PyFormat

  /** A column value as the database driver returns it. */
  datatype Value = Int(i: int) | Text(s: string) | Null

  type Row = seq<Value>

  /** One call on the hook: `run(sql)` or `get_records(sql)`. */
  datatype Stmt = Exec(sql: string) | Fetch(sql: string)

  /**
   * What the database will do: `answers` gives the rows of a query (an
   * absent query returns no rows) and `rejected` holds the statements that
   * raise a database error.
   */
  datatype Db = Db(answers: map<string, seq<Row>>, rejected: set<string>)

  /** The exceptions that end an operator's `execute`. */
  datatype Error =
    | WarehouseError(sql: string)          // the database refused the statement
    | IndexError                          // `[0]` on an empty result or an empty row
    | AttributeError(name: string)        // `getattr` found no such query template
    | FormatFailed(cause: PyFormat.FormatError)  // `str.format` raised
    | ValueError(message: string)         // raised by the data-quality gate

  /** How `execute` ends: it returns, or it raises. */
  datatype Outcome = Success | Raised(error: Error)

  /** What `get_records(sql)` returns or raises against `db`. */
  function Records(db: Db, sql: string): (r: Result<seq<Row>, Error>)
    ensures r.Err? <==> sql in db.rejected
    ensures r.Err? ==> r.error == WarehouseError(sql)
    ensures r.Ok? ==> r.value == if sql in db.answers then db.answers[sql] else []
  {
    if sql in db.rejected then Err(WarehouseError(sql))
    else if sql in db.answers then Ok(db.answers[sql])
    else Ok([])
  }

  /**
   * `"DELETE FROM {}".format(table)`, the statement both loading operators
   * issue first.
   */
  function DeleteFrom(table: string): (sql: string)
    ensures sql == "DELETE FROM " + table
  {
    DeletePiecesNoBraces();
    PyFormat.OneHole("DELETE FROM ", "", table);
    assert ("DELETE FROM " + table) + "" == "DELETE FROM " + table;
    PyFormat.Format(("DELETE FROM " + "{}") + "", [table], map[]).value
  }

  lemma DeletePiecesNoBraces()
    ensures PyFormat.NoBraces("DELETE FROM ") && PyFormat.NoBraces("")
  {
  }

  /** One database connection, recording every statement sent to it. */
  class Connection {
    const db: Db
    var log: seq<Stmt>

    constructor (db: Db)
      ensures this.db == db && log == []
    {
      this.db := db;
      log := [];
    }

    /** `run(sql)`: the statement is sent, and raises if the database refuses it. */
    method Run(sql: string) returns (outcome: Outcome)
      modifies this
      ensures log == old(log) + [Exec(sql)]
      ensures outcome == if sql in db.rejected then Raised(WarehouseError(sql)) else Success
    {
      log := log + [Exec(sql)];
      outcome := if sql in db.rejected then Raised(WarehouseError(sql)) else Success;
    }

    /** `get_records(sql)`: the query is sent and its rows come back. */
    method GetRecords(sql: string) returns (rows: Result<seq<Row>, Error>)
      modifies this
      ensures log == old(log) + [Fetch(sql)]
      ensures rows == Records(db, sql)
    {
      log := log + [Fetch(sql)];
      rows := Records(db, sql);
    }
  }
}
