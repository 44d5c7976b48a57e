/**
 * `LoadFactOperator`: clears the fact table and refills it with the insert
 * query named after the table, taken from the `SqlQueries` helper class.
 * The helper's query texts are an input: a map from attribute name to
 * template.
 */
module LoadFact {
  import opened Results
  import PyFormat
  import opened Warehouse

  /** The operator's parameters, with the constructor's defaults. */
  datatype LoadFactOperator = LoadFactOperator(redshiftConnId: string := "", table: string := "")

  /** `'{}_table_insert'.format(self.table)`: the name of the insert query. */
  function TemplateName(table: string): (name: string)
    ensures name == table + "_table_insert"
  {
    SuffixNoBraces();
    PyFormat.OneHole("", "_table_insert", table);
    assert "" + table == table;
    PyFormat.Format(("" + "{}") + "_table_insert", [table], map[]).value
  }

  lemma SuffixNoBraces()
    ensures PyFormat.NoBraces("") && PyFormat.NoBraces("_table_insert")
  {
  }

  /**
   * `getattr(SqlQueries, name).format(self.table)`: AttributeError when the
   * helper has no such query, and whatever `str.format` raises otherwise.
   */
  function InsertStatement(table: string, queries: map<string, string>): (r: Result<string, Error>)
    ensures TemplateName(table) !in queries ==> r == Err(AttributeError(table + "_table_insert"))
    ensures TemplateName(table) in queries ==>
      var f := PyFormat.Format(queries[table + "_table_insert"], [table], map[]);
      && (f.Ok? ==> r == Ok(f.value))
      && (f.Err? ==> r == Err(FormatFailed(f.error)))
  {
    var name := TemplateName(table);
    if name !in queries then Err(AttributeError(name))
    else
      match PyFormat.Format(queries[name], [table], map[])
      case Ok(sql) => Ok(sql)
      case Err(e) => Err(FormatFailed(e))
  }

  /**
   * What the insert is for a template of brace-free text with `{}` holes:
   * the template unchanged when it has no hole, the table written into the
   * hole when it has one, and IndexError when it has more holes than the
   * one argument; a missing query is an AttributeError.
   */
  lemma InsertForTemplate(table: string, queries: map<string, string>, pieces: seq<string>)
    requires |pieces| >= 1 && PyFormat.AllNoBraces(pieces)
    requires TemplateName(table) in queries ==> queries[TemplateName(table)] == PyFormat.Join(pieces)
    ensures TemplateName(table) !in queries ==> InsertStatement(table, queries) == Err(AttributeError(table + "_table_insert"))
    ensures TemplateName(table) in queries && |pieces| == 1 ==> InsertStatement(table, queries) == Ok(pieces[0])
    ensures TemplateName(table) in queries && |pieces| == 2 ==> InsertStatement(table, queries) == Ok(pieces[0] + table + pieces[1])
    ensures TemplateName(table) in queries && |pieces| > 2 ==>
              InsertStatement(table, queries) == Err(FormatFailed(PyFormat.IndexOutOfRange(1)))
  {
    if TemplateName(table) in queries {
      if |pieces| <= 2 {
        PyFormat.AutoTemplate(pieces, [table], map[], 0, PyFormat.Unset);
        if |pieces| == 2 {
          assert PyFormat.Fill(pieces[1..], [table][1..]) == pieces[1];
        }
      } else {
        PyFormat.AutoTemplateTooFewArgs(pieces, [table], map[], 0, PyFormat.Unset);
      }
    }
  }

  /**
   * `execute`: `DELETE FROM table`, then the insert.  The delete is always
   * the first statement, so the insert writes into a table this run has
   * just cleared; a missing or malformed template raises after the delete.
   */
  method Execute(op: LoadFactOperator, queries: map<string, string>, conn: Connection)
    returns (outcome: Outcome)
    modifies conn
    ensures var delete := DeleteFrom(op.table);
      var insert := InsertStatement(op.table, queries);
      && (delete in conn.db.rejected ==>
            conn.log == old(conn.log) + [Exec(delete)] && outcome == Raised(WarehouseError(delete)))
      && (delete !in conn.db.rejected && insert.Err? ==>
            conn.log == old(conn.log) + [Exec(delete)] && outcome == Raised(insert.error))
      && (delete !in conn.db.rejected && insert.Ok? ==>
            && conn.log == old(conn.log) + [Exec(delete), Exec(insert.value)]
            && outcome == if insert.value in conn.db.rejected then Raised(WarehouseError(insert.value)) else Success)
  {
    outcome := conn.Run(DeleteFrom(op.table));
    if outcome.Raised? {
      return;
    }
    var tableNameString := TemplateName(op.table);
    if tableNameString !in queries {
      outcome := Raised(AttributeError(tableNameString));
      return;
    }
    var formatted := PyFormat.Format(queries[tableNameString], [op.table], map[]);
    if formatted.Err? {
      outcome := Raised(FormatFailed(formatted.error));
      return;
    }
    outcome := conn.Run(formatted.value);
  }
}
