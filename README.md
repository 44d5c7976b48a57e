# Sparkify data pipeline (Airflow) — Dafny model

This project models the logic that the Sparkify Airflow pipeline implements
itself:

- **`StageToRedshiftOperator`** clears a Redshift staging table. It then
  renders its S3 key against the run context, builds
  `s3://bucket/key`, fills the six-hole `copy_sql` template and sends the
  COPY.
- **`LoadFactOperator`** clears the fact table. It then sends the insert
  query named `<table>_table_insert`, formatted with the table name.
- **`DataQualityOperator`** runs its list of check queries in order. For
  each one it compares the first column of the first returned row with the
  expected result. It counts the failures in `error_count`, records their
  queries in `failing_tests` and raises `ValueError` when the count is
  positive.
- **`udac_example_dag`** holds the default arguments, the ten tasks, the
  four quality checks and the five `>>`/`<<` statements that wire them.

Redshift is abstracted as a `Db`: a map from query text to returned rows,
plus the set of statements the database refuses. `Warehouse.Connection`
records every statement sent to it in its `log`. A Python exception is an
`Outcome` of `Raised(error)`.

Every statement text, every S3 path and every template name is produced
by one model of Python's `str.format` (`PyFormat.Format`). It covers:

- literal text and the `{{`/`}}` escapes;
- `{}`, `{0}` and `{name}` fields;
- the scan of a field name, which ends at the first `{` or `}` outside
  square brackets;
- the errors for a lone `}`, an unclosed field, a `{` inside a field
  name, mixing `{}` with `{0}`, a missing positional argument and a
  missing keyword.

The closed forms of the statements, such as `"DELETE FROM " + table` and
the COPY text with its six fields, are therefore proved about what
`str.format` does, not assumed.

Modules, one file each:

- `results.dfy`: `Result`.
- `py_format.dfy`: `str.format`.
- `warehouse.dfy`: values, rows, statements, the connection.
- `data_quality.dfy`, `stage_redshift.dfy`, `load_fact.dfy`: the three
  operators.
- `graph.dfy`: a generic DAG class with `AddTask`, `AddEdge`, `>>`
  (`SetDownstream`) and `<<` (`SetUpstream`), and the path, reachability
  and acyclicity predicates.
- `udac_example_dag.dfy`: the pipeline itself.

Behaviour of the code that the model keeps:

- The quality gate can stop early. A check whose query is refused, or
  that returns no row or an empty row, raises out of the loop at
  `get_records(...)[0]` or `records[0]`. The remaining checks are then not
  run and no `ValueError` is raised.
- The DAG has ten tasks: two staging tasks, one fact load, four dimension
  loads, the checks, start and end.
- The event-log key is
  `log_data/{execution_date.year}/{execution_date.month}/{ds}-events.json`.
- The DAG is one fixed graph built by five wiring statements. Nothing
  checks it for cycles when it is built; the model proves this graph
  acyclic.
- The staging `delimiter` option is accepted, passed to the COPY format
  call and dropped, because the template has no `DELIMITER` line.
- The DAG creates the songplays task with `LoadDimensionOperator`, not
  `LoadFactOperator`.

## Model

| member | source | states |
|---|---|---|
| PyFormat.Format | airflow/plugins/operators/stage_redshift.py:49-63 | `str.format` returns a text without braces unchanged; escapes, fields, the field-name scan and each error are stated by the lemmas below |
| PyFormat.EscapedBraces | airflow/plugins/operators/load_fact.py:30 | `{{` and `}}` each write one literal brace and formatting goes on after them |
| PyFormat.EscapesExample | airflow/plugins/operators/load_fact.py:30 | `"{{}}".format()` is `{}` |
| PyFormat.LoneCloseBrace | airflow/plugins/operators/load_fact.py:30 | a `}` in literal text that is not doubled raises ValueError |
| PyFormat.LoneCloseExample | airflow/plugins/operators/load_fact.py:30 | `"a}b".format()` raises the lone-`}` ValueError |
| PyFormat.ManualField | airflow/plugins/operators/load_fact.py:30 | a `{n}` field writes positional argument n and fixes manual numbering; IndexError when there is no argument n; ValueError after a `{}` field |
| PyFormat.AutoAfterManual | airflow/plugins/operators/load_fact.py:30 | a `{}` field after a `{n}` field raises the numbering-switch ValueError |
| PyFormat.ManualExample | airflow/plugins/operators/load_fact.py:30 | `"{1}{0}".format(a, b)` is `b + a`, and `"{0}{}".format(a, b)` raises the numbering-switch ValueError |
| PyFormat.IntToString | airflow/plugins/operators/stage_redshift.py:55-63 | the canonical decimal text of an integer: digits with no leading zero (just `0` for zero), with a leading `-` when negative, reading back as that integer |
| PyFormat.InnerBraceInName | airflow/plugins/operators/stage_redshift.py:52 | `"{a{".format()` raises the ValueError for a `{` in a field name as soon as it reads the inner `{` |
| PyFormat.BracketedBrace | airflow/plugins/operators/stage_redshift.py:52 | inside `[...]` braces belong to the field name: `{a[}]}` is one field named `a[}]`, and `{a[}` is still open when the text ends |
| PyFormat.NestedPairInName | airflow/plugins/operators/stage_redshift.py:52 | braces do not nest in a field name: `"{a{b}".format()` and `"{a{b}}".format()` both raise the ValueError for a `{` in a field name, at the inner `{` |
| PyFormat.NatToStringRoundTrip | airflow/plugins/operators/stage_redshift.py:61 | the decimal text `str.format` writes for the header count reads back as that number |
| PyFormat.NoBracesIdentity | airflow/plugins/operators/stage_redshift.py:52 | formatting a text with no braces gives the text unchanged, for all positional and keyword arguments |
| PyFormat.KeywordField | airflow/plugins/operators/stage_redshift.py:52 | a `{name}` field whose name (no braces, no brackets) is in the keyword arguments is replaced by its value and formatting goes on after it |
| PyFormat.MissingKeywordField | airflow/plugins/operators/stage_redshift.py:52 | a `{name}` field whose name (no braces, no brackets) is not supplied raises KeyError for that name |
| PyFormat.AutoTemplate | airflow/plugins/operators/stage_redshift.py:55-63 | a template of brace-free pieces joined by `{}` holes, given enough positional arguments, gives the pieces interleaved with the arguments in order |
| PyFormat.AutoTemplateTooFewArgs | airflow/plugins/operators/load_fact.py:30 | the same template with fewer arguments than holes raises IndexError at the first hole with no argument |
| PyFormat.FillIgnoresExtraArgs | airflow/plugins/operators/stage_redshift.py:55-63 | arguments beyond the number of holes do not change the filled text |
| PyFormat.OneHole | airflow/plugins/operators/load_fact.py:29 | `pre + "{}" + post` formatted with one argument is `pre + arg + post` |
| PyFormat.TwoHoles | airflow/plugins/operators/stage_redshift.py:53 | a two-hole template formatted with two arguments writes them in order |
| PyFormat.ThreeKeywords | airflow/dags/udac_example_dag.py:47 | a template of three keyword fields writes the three values when all are supplied, and raises KeyError for the first one when it is missing |
| Warehouse.Records | airflow/plugins/operators/data_quality.py:33 | a query raises exactly when the database refuses it; otherwise it returns the database's rows for it, none when it has none |
| Warehouse.DeleteFrom | airflow/plugins/operators/stage_redshift.py:49 | `"DELETE FROM {}".format(table)` is exactly `"DELETE FROM " + table` |
| Warehouse.Connection.constructor | airflow/plugins/operators/stage_redshift.py:46 | a new connection to a database has sent nothing yet |
| Warehouse.Connection.Run | airflow/plugins/operators/stage_redshift.py:65 | `run(sql)` appends the statement to the log and raises exactly when the database refuses it |
| Warehouse.Connection.GetRecords | airflow/plugins/operators/data_quality.py:33 | `get_records(sql)` appends the query to the log and returns the database's rows, or the error for a refused query |
| DataQuality.Evaluate | airflow/plugins/operators/data_quality.py:30-35 | a check reads a value exactly when its query is accepted and returns a non-empty first row; the value is whether the first column equals the expected result; a refused query raises its error and an empty result IndexError |
| DataQuality.Run | airflow/plugins/operators/data_quality.py:28-43 | a run queries at most every check, and a run that succeeds has queried every check and leaves the count at 0 |
| DataQuality.RunStopsOnRows | airflow/plugins/operators/data_quality.py:33-35 | when the rows fetched for check k are an error, empty or start with an empty row, the run raises that error or IndexError after querying checks 0..k |
| DataQuality.ReadRowsStep | airflow/plugins/operators/data_quality.py:33-38 | when the rows fetched for check k hold a value, the readable prefix extends past k and k's query is added to the failures exactly when that value differs from the expected result |
| DataQuality.FirstUnreadable | airflow/plugins/operators/data_quality.py:28-35 | the index of the first check that raises when read; every check before it reads a value |
| DataQuality.FailingAppend | airflow/plugins/operators/data_quality.py:28-38 | the failures of two lists of checks run one after the other are the failures of the first followed by those of the second |
| DataQuality.FailingStep | airflow/plugins/operators/data_quality.py:35-38 | one more check adds its query to the failures exactly when it fails |
| DataQuality.FailingSingle | airflow/plugins/operators/data_quality.py:35-38 | a single check contributes its query exactly when its value differs from the expected result |
| DataQuality.FailingMembers | airflow/plugins/operators/data_quality.py:35-38 | a query is listed as failing if and only if some check with that query fails |
| DataQuality.FailingEmptyIff | airflow/plugins/operators/data_quality.py:35-38 | no query is listed if and only if no check fails |
| DataQuality.Failing | airflow/plugins/operators/data_quality.py:35-38 | at most one failing query is listed per check |
| DataQuality.FetchesStep | airflow/plugins/operators/data_quality.py:33 | querying one more check adds exactly one fetch of its query to the log |
| DataQuality.ReadableStep | airflow/plugins/operators/data_quality.py:33-35 | a check read without error extends the prefix of readable checks |
| DataQuality.RunStopsAt | airflow/plugins/operators/data_quality.py:28-35 | when check k is the first to raise, the run keeps the failures before k, raises that check's error and has queried checks 0..k |
| DataQuality.RunCompletes | airflow/plugins/operators/data_quality.py:28-43 | when every check is readable, every check is queried in order and the run raises ValueError exactly when the accumulated count is positive |
| DataQuality.RunRaisesIff | airflow/plugins/operators/data_quality.py:40-43 | the run raises if and only if some check is unreadable or the count after the loop is positive; the count and the list grow by the same amount |
| DataQuality.FreshSucceedsIff | airflow/plugins/operators/data_quality.py:22-43 | on a new operator the run succeeds if and only if every check reads a value equal to its expected result |
| DataQuality.NoChecksSucceed | airflow/plugins/operators/data_quality.py:14 | with no checks a new operator succeeds, sends nothing and keeps its state |
| DataQuality.RunAccumulates | airflow/plugins/operators/data_quality.py:36-43 | the count and list are never reset: they only grow, earlier failures stay at the front, and a positive count from an earlier run makes any later run raise |
| DataQuality.DataQualityOperator.constructor | airflow/plugins/operators/data_quality.py:10-23 | a new operator keeps its connection id and checks, with count 0 and no failing queries |
| DataQuality.DataQualityOperator.Execute | airflow/plugins/operators/data_quality.py:25-43 | the loop leaves the fields, the outcome and the fetch log exactly as `Run` specifies: failures counted and recorded in order, each check queried once in order until one raises |
| StageRedshift.RenderKey | airflow/plugins/operators/stage_redshift.py:52 | a key without braces renders to itself in every context |
| StageRedshift.CopyArgs | airflow/plugins/operators/stage_redshift.py:55-63 | the seven format arguments are table, path, access key, secret key, JSON option, the header count as decimal text, and the delimiter, in that order |
| StageRedshift.CopySqlShape | airflow/plugins/operators/stage_redshift.py:11-20 | `copy_sql` is seven brace-free pieces joined by six `{}` holes |
| StageRedshift.CopyPiecesNoBraces | airflow/plugins/operators/stage_redshift.py:11-19 | the literal text of `copy_sql` holds no braces |
| StageRedshift.S3Path | airflow/plugins/operators/stage_redshift.py:53 | the source path is exactly `"s3://" + bucket + "/" + rendered_key` |
| StageRedshift.CopyFill | airflow/plugins/operators/stage_redshift.py:55-63 | filling the COPY pieces with seven arguments writes the first six into the statement lines, in order |
| StageRedshift.CopyStatement | airflow/plugins/operators/stage_redshift.py:55-63 | the formatted COPY has table, path, access key, secret key, JSON option and header count in its six places, in that order |
| StageRedshift.CopyIgnoresDelimiter | airflow/plugins/operators/stage_redshift.py:62 | the COPY statement is the same for every delimiter |
| StageRedshift.DefaultIgnoreHeader | airflow/plugins/operators/stage_redshift.py:30 | with the default `ignore_header=1` the statement says `IGNOREHEADER 1` |
| StageRedshift.Execute | airflow/plugins/operators/stage_redshift.py:43-65 | sends the DELETE, then the COPY on the rendered path; a refused DELETE or a key that fails to render stops after the DELETE and raises |
| LoadFact.TemplateName | airflow/plugins/operators/load_fact.py:29 | the query name is exactly `table + "_table_insert"` |
| LoadFact.InsertStatement | airflow/plugins/operators/load_fact.py:29-30 | a missing `<table>_table_insert` query raises AttributeError for that name; a present one is formatted with the table name, and a format error is raised as is |
| LoadFact.InsertForTemplate | airflow/plugins/operators/load_fact.py:30 | a missing query raises AttributeError; a template with no hole is sent as is, one hole gets the table name, more holes raise IndexError |
| LoadFact.Execute | airflow/plugins/operators/load_fact.py:22-30 | sends the DELETE first and then the formatted insert; a refused DELETE, missing query or malformed template raises after the DELETE with no insert sent |
| Graph.PathRises | airflow/dags/udac_example_dag.py:115-119 | along a path of one or more edges that all increase a rank, the rank strictly increases |
| Graph.RankedAcyclic | airflow/dags/udac_example_dag.py:115-119 | a graph whose edges all increase some rank has no cycle |
| Graph.Dag.constructor | airflow/dags/udac_example_dag.py:28-33 | a new DAG has its id, no tasks and no edges |
| Graph.Dag.AddTask | airflow/dags/udac_example_dag.py:35-38 | creating an operator with `dag=dag` appends it to the tasks unless it is already there; edges are unchanged |
| Graph.Dag.AddEdge | airflow/dags/udac_example_dag.py:119 | adds exactly the one edge and keeps every edge between known tasks |
| Graph.Dag.SetDownstream | airflow/dags/udac_example_dag.py:115 | `task >> [others]` adds exactly the edges from the task to each of the others |
| Graph.Dag.SetUpstream | airflow/dags/udac_example_dag.py:116 | `task << [others]` adds exactly the edges from each of the others to the task |
| UdacExampleDag.RetryPolicy | airflow/dags/udac_example_dag.py:11-22 | tasks are retried 3 times, 5 minutes (300 s) apart |
| UdacExampleDag.BuildPipeline | airflow/dags/udac_example_dag.py:28-119 | the built DAG `udac_example_dag` holds exactly the ten tasks in creation order and exactly the thirteen intended edges |
| UdacExampleDag.CreateOperators | airflow/dags/udac_example_dag.py:35-113 | the ten constructions register the ten tasks in order, each as a new task |
| UdacExampleDag.CreateFirstHalf | airflow/dags/udac_example_dag.py:35-74 | the first five constructions register the first five tasks |
| UdacExampleDag.CreateSecondHalf | airflow/dags/udac_example_dag.py:76-113 | the last five constructions register the other five tasks |
| UdacExampleDag.WireOperators | airflow/dags/udac_example_dag.py:115-119 | the five wiring statements leave exactly the intended edges |
| UdacExampleDag.WiringEdges | airflow/dags/udac_example_dag.py:115-119 | the union of the edges the five statements add is the intended edge set |
| UdacExampleDag.TenDistinctTasks | airflow/dags/udac_example_dag.py:35-113 | there are ten tasks, each once, and no two share a `task_id` |
| UdacExampleDag.PipelineAcyclic | airflow/dags/udac_example_dag.py:115-119 | every edge goes from an earlier-created task to a later one, so the graph has no cycle |
| UdacExampleDag.PipelineFans | airflow/dags/udac_example_dag.py:115-119 | the fan-out and fan-in of each wiring statement are exactly the listed tasks |
| UdacExampleDag.SingleRootAndLeaf | airflow/dags/udac_example_dag.py:115-119 | `Begin_execution` is the only task with no upstream and `Stop_execution` the only one with no downstream |
| UdacExampleDag.StartReachesAll | airflow/dags/udac_example_dag.py:115-119 | every task is reachable from `Begin_execution` |
| UdacExampleDag.QualityChecksDependOnAll | airflow/dags/udac_example_dag.py:115-118 | `Run_data_quality_checks` transitively depends on every task except `Stop_execution` |
| UdacExampleDag.SongsKeyUnchanged | airflow/dags/udac_example_dag.py:58 | the song-data key has no placeholder and is used unchanged in every context |
| UdacExampleDag.EventsKeyRendering | airflow/dags/udac_example_dag.py:47 | the event-log key becomes `log_data/<year>/<month>/<ds>-events.json` from the context, and raises KeyError when the year is missing |
| UdacExampleDag.QualityGate | airflow/dags/udac_example_dag.py:97-111 | with the four configured checks, a new gate succeeds if and only if each null-key count reads the integer 0 |

## Left out

- The Airflow runtime is not modelled because the repository does not implement it. This covers scheduling, `schedule_interval`, `max_active_runs`, catchup, start and end dates at run time, retry execution, task states and skip propagation. `default_args` is kept as plain data.
- `PostgresHook` and `S3Hook.get_credentials` are abstracted. The database is a `Db` given as a parameter, and the credentials are an opaque `Credentials` pair passed to `StageRedshift.Execute`. Connection failures, and failures to obtain credentials, are not modelled.
- The contents of `SqlQueries` are an input. For `LoadFact` they are a map from attribute name to template. `create_tables` is not modelled.
- The `PythonOperator` body (`create_tables`) and the `DummyOperator` end marker are not modelled. Both are tasks of the DAG only.
- `LoadDimensionOperator` is not part of this model. The DAG uses it for the songplays task and the four dimension loads. Only their task ids and their place in the graph are modelled.
- Jinja rendering of `template_fields` is not modelled. The context passed to `s3_key.format(**context)` is a map from a field's full text, such as `execution_date.year`, to its rendered value, so attribute and index access inside a field are abstracted. Format specs (`:`) and conversions (`!r`) are outside the `str.format` fragment modelled: the model reads `:` and `!` as ordinary name characters, where Python ends the field name at them.
- `PyFormat.Format`: positional and keyword arguments are strings already converted with `str()`. An integer argument is rendered with `IntToString`.
- `DataQuality.Evaluate`: compares values with structural equality. Python's cross-type numeric equality (`0 == 0.0 == False`) is not modelled.
- `DataQuality.Check`: a check is a record with both keys present. The `check.get(...)` returning `None` for a missing key is not modelled.
- The shared mutable default `dq_checks=[]` is not modelled. The list is never mutated, so each operator holds its own sequence.
- `Graph.Dag.AddTask`: a task that is already in the DAG is refused with `false` rather than with Airflow's duplicate-task exception. The pipeline never adds a task twice.
- Logging, `ui_color`, `@apply_defaults` and the DAG description are not modelled.
