/**
 * The Sparkify pipeline `udac_example_dag`: its configuration, its ten
 * tasks, the five statements that wire them, and the shape of the
 * resulting graph.
 */
module UdacExampleDag {
  import opened Results
  import PyFormat
  import opened Warehouse
  import opened Graph
  import DataQuality
  import StageRedshift

  datatype Date = Date(year: nat, month: nat, day: nat)

  /** The `default_args` every task of the DAG receives. */
  datatype DefaultArgs = DefaultArgs(
    owner: string,
    startDate: Date,
    endDate: Date,
    dependsOnPast: bool,
    emailOnFailure: bool,
    emailOnRetry: bool,
    retries: nat,
    catchup: bool,
    retryDelayMinutes: nat)

  const Defaults := DefaultArgs(
    owner := "udacity",
    startDate := Date(2018, 11, 1),
    endDate := Date(2018, 11, 30),
    dependsOnPast := false,
    emailOnFailure := false,
    emailOnRetry := false,
    retries := 3,
    catchup := false,
    retryDelayMinutes := 5)

  /** Each task is retried three times, five minutes (300 seconds) apart. */
  lemma RetryPolicy()
    ensures Defaults.retries == 3 && Defaults.retryDelayMinutes * 60 == 300
  {
  }

  /** The ten operators of the DAG, named after the variables that hold them. */
  datatype Task =
    | StartOperator
    | StageEventsToRedshift
    | StageSongsToRedshift
    | LoadSongplaysTable
    | LoadUserDimensionTable
    | LoadSongDimensionTable
    | LoadArtistDimensionTable
    | LoadTimeDimensionTable
    | RunQualityChecks
    | EndOperator

  /** The `task_id` each operator is created with. */
  function TaskId(t: Task): string {
    match t
    case StartOperator => "Begin_execution"
    case StageEventsToRedshift => "Stage_events"
    case StageSongsToRedshift => "Stage_songs"
    case LoadSongplaysTable => "Load_songplays_fact_table"
    case LoadUserDimensionTable => "Load_user_dim_table"
    case LoadSongDimensionTable => "Load_song_dim_table"
    case LoadArtistDimensionTable => "Load_artist_dim_table"
    case LoadTimeDimensionTable => "Load_time_dim_table"
    case RunQualityChecks => "Run_data_quality_checks"
    case EndOperator => "Stop_execution"
  }

  /** The operators in the order they are created. */
  const PipelineTasks := [StartOperator, StageEventsToRedshift, StageSongsToRedshift, LoadSongplaysTable,
                          LoadUserDimensionTable, LoadSongDimensionTable, LoadArtistDimensionTable,
                          LoadTimeDimensionTable, RunQualityChecks, EndOperator]

  const Staging := [StageEventsToRedshift, StageSongsToRedshift]
  const Dimensions := [LoadUserDimensionTable, LoadSongDimensionTable, LoadArtistDimensionTable, LoadTimeDimensionTable]

  /** The dependencies as the pipeline is meant to have them, edge by edge. */
  const PipelineEdges: set<Edge<Task>> := {
    (StartOperator, StageEventsToRedshift), (StartOperator, StageSongsToRedshift),
    (StageEventsToRedshift, LoadSongplaysTable), (StageSongsToRedshift, LoadSongplaysTable),
    (LoadSongplaysTable, LoadUserDimensionTable), (LoadSongplaysTable, LoadSongDimensionTable),
    (LoadSongplaysTable, LoadArtistDimensionTable), (LoadSongplaysTable, LoadTimeDimensionTable),
    (LoadUserDimensionTable, RunQualityChecks), (LoadSongDimensionTable, RunQualityChecks),
    (LoadArtistDimensionTable, RunQualityChecks), (LoadTimeDimensionTable, RunQualityChecks),
    (RunQualityChecks, EndOperator)}

  /** The staging operator for the event log. */
  const StageEventsOperator := StageRedshift.StageToRedshiftOperator(
    redshiftConnId := "redshift",
    awsCredentialsId := "aws_credentials",
    table := "staging_events",
    jsonPath := "JSON 's3://udacity-dend/log_json_path.json'",
    s3Bucket := "udacity-dend",
    s3Key := "log_data/" + ("{" + "execution_date.year" + "}" + ("/" + ("{" + "execution_date.month" + "}"
             + ("/" + ("{" + "ds" + "}" + "-events.json"))))))

  /** The staging operator for the song files. */
  const StageSongsOperator := StageRedshift.StageToRedshiftOperator(
    redshiftConnId := "redshift",
    awsCredentialsId := "aws_credentials",
    table := "staging_songs",
    jsonPath := "JSON 'auto' truncatecolumns",
    s3Bucket := "udacity-dend",
    s3Key := "song_data/A/A/A/")

  /** The four null-key checks of `Run_data_quality_checks`, each expecting 0. */
  const QualityChecks := [
    DataQuality.Check("SELECT COUNT(*) FROM users WHERE userid is null", Int(0)),
    DataQuality.Check("SELECT COUNT(*) FROM songs WHERE songid is null", Int(0)),
    DataQuality.Check("SELECT COUNT(*) FROM artists WHERE artistid is      null", Int(0)),
    DataQuality.Check("SELECT COUNT(*) FROM songplays WHERE playid is null", Int(0))]

  /**
   * Builds the DAG: the ten operators, then the five wiring statements.  The result has
   * exactly the intended tasks and exactly the intended edges.
   */
  method BuildPipeline() returns (dag: Dag<Task>)
    ensures fresh(dag) && dag.Valid() && dag.dagId == "udac_example_dag"
    ensures dag.tasks == PipelineTasks && dag.edges == PipelineEdges
  {
    dag := new Dag<Task>("udac_example_dag");
    CreateOperators(dag);
    WireOperators(dag);
  }

  /** The ten operator constructions, each registering its task with the DAG. */
  method CreateOperators(dag: Dag<Task>)
    requires dag.Valid() && dag.tasks == [] && dag.edges == {}
    modifies dag
    ensures dag.Valid() && dag.tasks == PipelineTasks && dag.edges == {}
  {
    CreateFirstHalf(dag);
    CreateSecondHalf(dag);
  }

  /**
   * The start marker, the two staging operators, the fact load and the first
   * dimension load. The ten constructions are one sequence in the DAG file;
   * they are split in two here only to keep each method's proof small.
   */
  method CreateFirstHalf(dag: Dag<Task>)
    requires dag.Valid() && dag.tasks == [] && dag.edges == {}
    modifies dag
    ensures dag.Valid() && dag.tasks == PipelineTasks[..5] && dag.edges == {}
  {
    var added := dag.AddTask(StartOperator);
    assert added && dag.tasks == PipelineTasks[..1];
    added := dag.AddTask(StageEventsToRedshift);
    assert added && dag.tasks == PipelineTasks[..2];
    added := dag.AddTask(StageSongsToRedshift);
    assert added && dag.tasks == PipelineTasks[..3];
    added := dag.AddTask(LoadSongplaysTable);
    assert added && dag.tasks == PipelineTasks[..4];
    added := dag.AddTask(LoadUserDimensionTable);
    assert added && dag.tasks == PipelineTasks[..5];
  }

  /**
   * The other three dimension loads, the quality checks and the end marker:
   * the second half of the one sequence of constructions.
   */
  method CreateSecondHalf(dag: Dag<Task>)
    requires dag.Valid() && dag.tasks == PipelineTasks[..5] && dag.edges == {}
    modifies dag
    ensures dag.Valid() && dag.tasks == PipelineTasks && dag.edges == {}
  {
    var added := dag.AddTask(LoadSongDimensionTable);
    assert added && dag.tasks == PipelineTasks[..6];
    added := dag.AddTask(LoadArtistDimensionTable);
    assert added && dag.tasks == PipelineTasks[..7];
    added := dag.AddTask(LoadTimeDimensionTable);
    assert added && dag.tasks == PipelineTasks[..8];
    added := dag.AddTask(RunQualityChecks);
    assert added && dag.tasks == PipelineTasks[..9];
    added := dag.AddTask(EndOperator);
    assert added && dag.tasks == PipelineTasks;
  }

  /** The five wiring statements: `>>` adds downstream edges, `<<` upstream ones. */
  method WireOperators(dag: Dag<Task>)
    requires dag.Valid() && dag.tasks == PipelineTasks && dag.edges == {}
    modifies dag
    ensures dag.Valid() && dag.tasks == PipelineTasks && dag.edges == PipelineEdges
  {
    // start_operator >> [stage_events_to_redshift, stage_songs_to_redshift]
    dag.SetDownstream(StartOperator, Staging);
    // load_songplays_table << [stage_events_to_redshift, stage_songs_to_redshift]
    dag.SetUpstream(LoadSongplaysTable, Staging);
    // load_songplays_table >> [the four dimension loads]
    dag.SetDownstream(LoadSongplaysTable, Dimensions);
    // run_quality_checks << [the four dimension loads]
    dag.SetUpstream(RunQualityChecks, Dimensions);
    // run_quality_checks >> end_operator
    dag.SetDownstream(RunQualityChecks, [EndOperator]);
    WiringEdges();
  }

  /** The five statements add exactly the intended edges. */
  lemma WiringEdges()
    ensures {} + DownstreamEdges(StartOperator, Staging) + UpstreamEdges(LoadSongplaysTable, Staging)
          + DownstreamEdges(LoadSongplaysTable, Dimensions) + UpstreamEdges(RunQualityChecks, Dimensions)
          + DownstreamEdges(RunQualityChecks, [EndOperator])
         == PipelineEdges
  {
    assert DownstreamEdges(StartOperator, Staging)
        == {(StartOperator, StageEventsToRedshift), (StartOperator, StageSongsToRedshift)};
    assert UpstreamEdges(LoadSongplaysTable, Staging)
        == {(StageEventsToRedshift, LoadSongplaysTable), (StageSongsToRedshift, LoadSongplaysTable)};
    assert DownstreamEdges(LoadSongplaysTable, Dimensions)
        == {(LoadSongplaysTable, LoadUserDimensionTable), (LoadSongplaysTable, LoadSongDimensionTable),
            (LoadSongplaysTable, LoadArtistDimensionTable), (LoadSongplaysTable, LoadTimeDimensionTable)};
    assert UpstreamEdges(RunQualityChecks, Dimensions)
        == {(LoadUserDimensionTable, RunQualityChecks), (LoadSongDimensionTable, RunQualityChecks),
            (LoadArtistDimensionTable, RunQualityChecks), (LoadTimeDimensionTable, RunQualityChecks)};
    assert DownstreamEdges(RunQualityChecks, [EndOperator]) == {(RunQualityChecks, EndOperator)};
  }

  /** The DAG holds ten operators, each once, and no two share a `task_id`. */
  lemma TenDistinctTasks()
    ensures |PipelineTasks| == 10 && Distinct(PipelineTasks)
    ensures forall t :: t in PipelineTasks
    ensures forall a, b :: TaskId(a) == TaskId(b) ==> a == b
  {
    forall t
      ensures t in PipelineTasks
    {
      assert PipelineTasks[CreationIndex(t)] == t;
    }
    forall a, b | a != b
      ensures TaskId(a) != TaskId(b)
    {
      assert forall t :: |TaskId(t)| >= 10;
    }
  }

  /** Where each operator stands in `PipelineTasks`. */
  function CreationIndex(t: Task): nat {
    match t
    case StartOperator => 0
    case StageEventsToRedshift => 1
    case StageSongsToRedshift => 2
    case LoadSongplaysTable => 3
    case LoadUserDimensionTable => 4
    case LoadSongDimensionTable => 5
    case LoadArtistDimensionTable => 6
    case LoadTimeDimensionTable => 7
    case RunQualityChecks => 8
    case EndOperator => 9
  }

  /**
   * Every edge goes from an operator created earlier to one created later,
   * so the creation order is a topological order and the graph has no cycle.
   */
  lemma PipelineAcyclic()
    ensures forall t :: CreationIndex(t) < |PipelineTasks| && PipelineTasks[CreationIndex(t)] == t
    ensures RankedBy(PipelineEdges, CreationIndex)
    ensures Acyclic(PipelineEdges)
  {
    RankedAcyclic(PipelineEdges, CreationIndex);
  }

  /** Fan-out and fan-in of every wiring statement. */
  lemma PipelineFans()
    ensures Downstream(PipelineEdges, StartOperator) == {StageEventsToRedshift, StageSongsToRedshift}
    ensures Upstream(PipelineEdges, LoadSongplaysTable) == {StageEventsToRedshift, StageSongsToRedshift}
    ensures Downstream(PipelineEdges, LoadSongplaysTable) == {LoadUserDimensionTable, LoadSongDimensionTable, LoadArtistDimensionTable, LoadTimeDimensionTable}
    ensures Upstream(PipelineEdges, RunQualityChecks) == {LoadUserDimensionTable, LoadSongDimensionTable, LoadArtistDimensionTable, LoadTimeDimensionTable}
    ensures Downstream(PipelineEdges, RunQualityChecks) == {EndOperator}
  {
  }

  /** `Begin_execution` is the only task with no upstream, `Stop_execution` the only one with no downstream. */
  lemma SingleRootAndLeaf()
    ensures Roots(PipelineTasks, PipelineEdges) == {StartOperator}
    ensures Leaves(PipelineTasks, PipelineEdges) == {EndOperator}
  {
    forall t | t in PipelineTasks && t != StartOperator
      ensures Upstream(PipelineEdges, t) != {}
    {
      if t == StageEventsToRedshift || t == StageSongsToRedshift {
        assert StartOperator in Upstream(PipelineEdges, t);
      } else if t == LoadSongplaysTable {
        assert StageEventsToRedshift in Upstream(PipelineEdges, t);
      } else if t in Dimensions {
        assert LoadSongplaysTable in Upstream(PipelineEdges, t);
      } else if t == RunQualityChecks {
        assert LoadUserDimensionTable in Upstream(PipelineEdges, t);
      } else {
        assert RunQualityChecks in Upstream(PipelineEdges, t);
      }
    }
    forall t | t in PipelineTasks && t != EndOperator
      ensures Downstream(PipelineEdges, t) != {}
    {
      if t == StartOperator {
        assert StageEventsToRedshift in Downstream(PipelineEdges, t);
      } else if t == StageEventsToRedshift || t == StageSongsToRedshift {
        assert LoadSongplaysTable in Downstream(PipelineEdges, t);
      } else if t == LoadSongplaysTable {
        assert LoadUserDimensionTable in Downstream(PipelineEdges, t);
      } else if t in Dimensions {
        assert RunQualityChecks in Downstream(PipelineEdges, t);
      } else {
        assert EndOperator in Downstream(PipelineEdges, t);
      }
    }
    assert Upstream(PipelineEdges, StartOperator) == {};
    assert Downstream(PipelineEdges, EndOperator) == {};
  }

  /** Every task is reachable from `Begin_execution`. */
  lemma StartReachesAll()
    ensures forall t :: t in PipelineTasks ==> Reaches(PipelineEdges, StartOperator, t)
  {
    var e := PipelineEdges;
    forall d | d in Dimensions
      ensures Reaches(e, StartOperator, d)
    {
      assert IsPath(e, [StartOperator, StageEventsToRedshift, LoadSongplaysTable, d]);
    }
    forall s | s in Staging
      ensures Reaches(e, StartOperator, s)
    {
      assert IsPath(e, [StartOperator, s]);
    }
    assert IsPath(e, [StartOperator]);
    assert IsPath(e, [StartOperator, StageEventsToRedshift, LoadSongplaysTable]);
    assert IsPath(e, [StartOperator, StageEventsToRedshift, LoadSongplaysTable, LoadUserDimensionTable, RunQualityChecks]);
    assert IsPath(e, [StartOperator, StageEventsToRedshift, LoadSongplaysTable, LoadUserDimensionTable, RunQualityChecks, EndOperator]);
  }

  /** `Run_data_quality_checks` transitively depends on every task before it. */
  lemma QualityChecksDependOnAll()
    ensures forall t :: t in PipelineTasks && t != EndOperator ==> Reaches(PipelineEdges, t, RunQualityChecks)
  {
    var e := PipelineEdges;
    forall d | d in Dimensions
      ensures Reaches(e, d, RunQualityChecks)
    {
      assert IsPath(e, [d, RunQualityChecks]);
    }
    forall s | s in Staging
      ensures Reaches(e, s, RunQualityChecks)
    {
      assert IsPath(e, [s, LoadSongplaysTable, LoadUserDimensionTable, RunQualityChecks]);
    }
    assert IsPath(e, [StartOperator, StageEventsToRedshift, LoadSongplaysTable, LoadUserDimensionTable, RunQualityChecks]);
    assert IsPath(e, [LoadSongplaysTable, LoadUserDimensionTable, RunQualityChecks]);
    assert IsPath(e, [RunQualityChecks]);
  }

  /** The song-data key has no placeholder, so it is used as it is, whatever the context. */
  lemma SongsKeyUnchanged(context: map<string, string>)
    ensures StageRedshift.RenderKey(StageSongsOperator, context) == Ok("song_data/A/A/A/")
  {
    PyFormat.NoBracesIdentity("song_data/A/A/A/", [], context, 0, PyFormat.Unset);
  }

  /**
   * The event-log key takes the year, month and `ds` of the run from the
   * context, and raises KeyError when the year is not supplied.
   */
  lemma EventsKeyRendering(context: map<string, string>)
    ensures "execution_date.year" in context && "execution_date.month" in context && "ds" in context ==>
      StageRedshift.RenderKey(StageEventsOperator, context)
        == Ok("log_data/" + context["execution_date.year"] + "/" + context["execution_date.month"]
              + "/" + context["ds"] + "-events.json")
    ensures "execution_date.year" !in context ==>
      StageRedshift.RenderKey(StageEventsOperator, context)
        == Err(PyFormat.MissingKey("execution_date.year"))
  {
    EventsKeyPieces();
    PyFormat.ThreeKeywords("log_data/", "execution_date.year", "/", "execution_date.month", "/", "ds",
                           "-events.json", context);
  }

  /** The texts and field names the event-log key is made of. */
  lemma EventsKeyPieces()
    ensures PyFormat.NoBraces("log_data/") && PyFormat.NoBraces("/") && PyFormat.NoBraces("-events.json")
    ensures PyFormat.IsKeyword("execution_date.year") && PyFormat.IsKeyword("execution_date.month")
    ensures PyFormat.IsKeyword("ds")
  {
    assert "execution_date.year"[0] == 'e' && "execution_date.month"[0] == 'e' && "ds"[0] == 'd';
  }

  /** The first column of the first row a query returns is the integer 0. */
  predicate ReadsZero(db: Db, query: string) {
    && Records(db, query).Ok?
    && |Records(db, query).value| > 0
    && |Records(db, query).value[0]| > 0
    && Records(db, query).value[0][0] == Int(0)
  }

  /**
   * The configured gate passes on a new operator exactly when each of the
   * four null-key counts comes back as 0.
   */
  lemma QualityGate(db: Db)
    ensures DataQuality.Run(db, QualityChecks, DataQuality.Fresh).outcome == Success
        <==> forall i :: 0 <= i < |QualityChecks| ==> ReadsZero(db, QualityChecks[i].query)
  {
    DataQuality.FreshSucceedsIff(db, QualityChecks);
    forall i | 0 <= i < |QualityChecks|
      ensures DataQuality.Passes(db, QualityChecks[i]) <==> ReadsZero(db, QualityChecks[i].query)
    {
    }
  }
}
