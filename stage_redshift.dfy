/**
 * `StageToRedshiftOperator`: clears a staging table and bulk-loads it from
 * S3 with a Redshift `COPY` statement built from a fixed template.
 */
module StageRedshift {
  import opened Results
  import PyFormat
  import opened Warehouse

  /** The operator's parameters, with the constructor's defaults. */
  datatype StageToRedshiftOperator = StageToRedshiftOperator(
    redshiftConnId: string := "",
    awsCredentialsId: string := "",
    table: string := "",
    s3Bucket: string := "",
    s3Key: string := "",
    jsonPath: string := "",
    delimiter: string := ",",
    ignoreHeader: int := 1)

  /** What `S3Hook.get_credentials()` hands back: an opaque key pair. */
  datatype Credentials = Credentials(accessKey: string, secretKey: string)

  /**
   * The class attribute `copy_sql`, line by line: six positional holes and
   * no `DELIMITER` line (that line is a comment after the string). The
   * grouping of the concatenation is immaterial; it follows the pieces.
   */
  const CopySql: string :=
    ("\n            COPY " + "{}") +
    (("\n            FROM '" + "{}") +
    (("'\n            ACCESS_KEY_ID '" + "{}") +
    (("'\n            SECRET_ACCESS_KEY '" + "{}") +
    (("'\n            " + "{}") +
    (("\n            IGNOREHEADER " + "{}") +
     "\n\n            ")))))

  /** The literal text of `CopySql` around its six holes. */
  const CopyPieces: seq<string> := [
    "\n            COPY ",
    "\n            FROM '",
    "'\n            ACCESS_KEY_ID '",
    "'\n            SECRET_ACCESS_KEY '",
    "'\n            ",
    "\n            IGNOREHEADER ",
    "\n\n            "]

  lemma CopySqlShape()
    ensures |CopyPieces| == 7 && PyFormat.AllNoBraces(CopyPieces)
    ensures CopySql == PyFormat.Join(CopyPieces)
  {
    CopyPiecesNoBraces();
    JoinSeven(CopyPieces);
  }

  lemma CopyPiecesNoBraces()
    ensures PyFormat.AllNoBraces(CopyPieces)
  {
    FirstPiecesNoBraces();
    LastPiecesNoBraces();
  }

  lemma FirstPiecesNoBraces()
    ensures PyFormat.NoBraces("\n            COPY ") && PyFormat.NoBraces("\n            FROM '")
    ensures PyFormat.NoBraces("'\n            ACCESS_KEY_ID '")
  {
  }

  lemma LastPiecesNoBraces()
    ensures PyFormat.NoBraces("'\n            SECRET_ACCESS_KEY '") && PyFormat.NoBraces("'\n            ")
    ensures PyFormat.NoBraces("\n            IGNOREHEADER ") && PyFormat.NoBraces("\n\n            ")
  {
  }

  /** Seven pieces joined by six holes, grouped as `Join` unfolds. */
  lemma JoinSeven(p: seq<string>)
    requires |p| == 7
    ensures PyFormat.Join(p)
         == (p[0] + "{}") + ((p[1] + "{}") + ((p[2] + "{}") + ((p[3] + "{}")
          + ((p[4] + "{}") + ((p[5] + "{}") + p[6])))))
  {
    var j6 := PyFormat.Join(p[6..]);
    assert j6 == p[6];
    PyFormat.JoinStep(p[5..]);
    assert p[5..][1..] == p[6..];
    var j5 := PyFormat.Join(p[5..]);
    PyFormat.JoinStep(p[4..]);
    assert p[4..][1..] == p[5..];
    var j4 := PyFormat.Join(p[4..]);
    PyFormat.JoinStep(p[3..]);
    assert p[3..][1..] == p[4..];
    var j3 := PyFormat.Join(p[3..]);
    PyFormat.JoinStep(p[2..]);
    assert p[2..][1..] == p[3..];
    var j2 := PyFormat.Join(p[2..]);
    PyFormat.JoinStep(p[1..]);
    assert p[1..][1..] == p[2..];
    var j1 := PyFormat.Join(p[1..]);
    PyFormat.JoinStep(p);
    assert j5 == (p[5] + "{}") + j6;
    assert j4 == (p[4] + "{}") + j5;
    assert j3 == (p[3] + "{}") + j4;
    assert j2 == (p[2] + "{}") + j3;
    assert j1 == (p[1] + "{}") + j2;
  }

  /** The COPY statement with its six fields written in, as Redshift receives it. */
  function CopyText(table: string, path: string, accessKey: string, secretKey: string,
                    jsonPath: string, ignoreHeader: string): string
  {
    ("\n            COPY " + table) +
    (("\n            FROM '" + path) +
    (("'\n            ACCESS_KEY_ID '" + accessKey) +
    (("'\n            SECRET_ACCESS_KEY '" + secretKey) +
    (("'\n            " + jsonPath) +
    (("\n            IGNOREHEADER " + ignoreHeader) +
     "\n\n            ")))))
  }

  /** `self.s3_key.format(**context)`: no positional arguments, the context as keywords. */
  function RenderKey(op: StageToRedshiftOperator, context: map<string, string>): (r: Result<string, PyFormat.FormatError>)
    ensures PyFormat.NoBraces(op.s3Key) ==> r == Ok(op.s3Key)
  {
    PyFormat.Format(op.s3Key, [], context)
  }

  /** `"s3://{}/{}".format(self.s3_bucket, rendered_key)`. */
  function S3Path(bucket: string, renderedKey: string): (path: string)
    ensures path == "s3://" + bucket + "/" + renderedKey
  {
    PathPiecesNoBraces();
    PyFormat.TwoHoles("s3://", "/", "", bucket, renderedKey);
    assert ("s3://" + bucket) + (("/" + renderedKey) + "") == "s3://" + bucket + "/" + renderedKey;
    PyFormat.Format(("s3://" + "{}") + (("/" + "{}") + ""), [bucket, renderedKey], map[]).value
  }

  lemma PathPiecesNoBraces()
    ensures PyFormat.NoBraces("s3://") && PyFormat.NoBraces("/") && PyFormat.NoBraces("")
  {
  }

  /** The seven arguments passed to `copy_sql.format`, the delimiter last. */
  function CopyArgs(op: StageToRedshiftOperator, creds: Credentials, path: string): (args: seq<string>)
    ensures |args| == 7
    ensures args[0] == op.table && args[1] == path
    ensures args[2] == creds.accessKey && args[3] == creds.secretKey
    ensures args[4] == op.jsonPath && args[5] == PyFormat.IntToString(op.ignoreHeader)
    ensures args[6] == op.delimiter
  {
    [op.table, path, creds.accessKey, creds.secretKey, op.jsonPath,
     PyFormat.IntToString(op.ignoreHeader), op.delimiter]
  }

  /**
   * `copy_sql.format(...)`: table, path, access key, secret key, JSON path
   * and header count fill the six holes in that order, and the seventh
   * argument, the delimiter, has no hole and is dropped.
   */
  function CopyStatement(op: StageToRedshiftOperator, creds: Credentials, path: string): (sql: string)
    ensures sql == CopyText(op.table, path, creds.accessKey, creds.secretKey, op.jsonPath,
                            PyFormat.IntToString(op.ignoreHeader))
  {
    var args := CopyArgs(op, creds, path);
    CopySqlShape();
    PyFormat.AutoTemplate(CopyPieces, args, map[], 0, PyFormat.Unset);
    CopyFill(CopyPieces, args);
    PyFormat.Format(CopySql, args, map[]).value
  }

  lemma CopyFill(pieces: seq<string>, args: seq<string>)
    requires pieces == CopyPieces && |args| == 7
    ensures PyFormat.Fill(pieces, args) == CopyText(args[0], args[1], args[2], args[3], args[4], args[5])
  {
    FillSeven(pieces, args);
  }

  /** Filling seven pieces interleaves them with the first six arguments. */
  lemma FillSeven(p: seq<string>, args: seq<string>)
    requires |p| == 7 && |args| >= 6
    ensures PyFormat.Fill(p, args)
         == (p[0] + args[0]) + ((p[1] + args[1]) + ((p[2] + args[2]) + ((p[3] + args[3])
          + ((p[4] + args[4]) + ((p[5] + args[5]) + p[6])))))
  {
    var f6 := PyFormat.Fill(p[6..], args[6..]);
    assert f6 == p[6];
    PyFormat.FillStep(p[5..], args[5..]);
    assert p[5..][1..] == p[6..] && args[5..][1..] == args[6..];
    var f5 := PyFormat.Fill(p[5..], args[5..]);
    PyFormat.FillStep(p[4..], args[4..]);
    assert p[4..][1..] == p[5..] && args[4..][1..] == args[5..];
    var f4 := PyFormat.Fill(p[4..], args[4..]);
    PyFormat.FillStep(p[3..], args[3..]);
    assert p[3..][1..] == p[4..] && args[3..][1..] == args[4..];
    var f3 := PyFormat.Fill(p[3..], args[3..]);
    PyFormat.FillStep(p[2..], args[2..]);
    assert p[2..][1..] == p[3..] && args[2..][1..] == args[3..];
    var f2 := PyFormat.Fill(p[2..], args[2..]);
    PyFormat.FillStep(p[1..], args[1..]);
    assert p[1..][1..] == p[2..] && args[1..][1..] == args[2..];
    var f1 := PyFormat.Fill(p[1..], args[1..]);
    PyFormat.FillStep(p, args);
    assert f5 == (p[5] + args[5]) + f6;
    assert f4 == (p[4] + args[4]) + f5;
    assert f3 == (p[3] + args[3]) + f4;
    assert f2 == (p[2] + args[2]) + f3;
    assert f1 == (p[1] + args[1]) + f2;
  }

  /** The statement does not depend on the delimiter. */
  lemma CopyIgnoresDelimiter(op: StageToRedshiftOperator, creds: Credentials, path: string, delimiter: string)
    ensures CopyStatement(op.(delimiter := delimiter), creds, path) == CopyStatement(op, creds, path)
  {
  }

  /** With the default `ignore_header=1`, the statement says `IGNOREHEADER 1`. */
  lemma DefaultIgnoreHeader(op: StageToRedshiftOperator, creds: Credentials, path: string)
    requires op.ignoreHeader == StageToRedshiftOperator().ignoreHeader
    ensures CopyStatement(op, creds, path)
         == CopyText(op.table, path, creds.accessKey, creds.secretKey, op.jsonPath, "1")
  {
    assert PyFormat.IntToString(1) == "1";
  }

  /**
   * `execute`: `DELETE FROM table`, then the key is rendered, then the COPY
   * is sent.  An exception at any step ends the run, so a key that fails to
   * render leaves the table already cleared and no COPY sent.
   */
  method Execute(op: StageToRedshiftOperator, creds: Credentials, context: map<string, string>,
                 conn: Connection) returns (outcome: Outcome)
    modifies conn
    ensures var delete := DeleteFrom(op.table);
      var key := RenderKey(op, context);
      && (delete in conn.db.rejected ==>
            conn.log == old(conn.log) + [Exec(delete)] && outcome == Raised(WarehouseError(delete)))
      && (delete !in conn.db.rejected && key.Err? ==>
            conn.log == old(conn.log) + [Exec(delete)] && outcome == Raised(FormatFailed(key.error)))
      && (delete !in conn.db.rejected && key.Ok? ==>
            var copy := CopyStatement(op, creds, S3Path(op.s3Bucket, key.value));
            && conn.log == old(conn.log) + [Exec(delete), Exec(copy)]
            && outcome == if copy in conn.db.rejected then Raised(WarehouseError(copy)) else Success)
  {
    outcome := conn.Run(DeleteFrom(op.table));
    if outcome.Raised? {
      return;
    }
    var renderedKey := RenderKey(op, context);
    if renderedKey.Err? {
      outcome := Raised(FormatFailed(renderedKey.error));
      return;
    }
    var s3Path := S3Path(op.s3Bucket, renderedKey.value);
    var formattedSql := CopyStatement(op, creds, s3Path);
    outcome := conn.Run(formattedSql);
  }
}
