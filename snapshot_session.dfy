/** The `snapshot` command (cmd/snowflake/snapshot.go): a replicate session
    that dumps one TiDB table at a resolved snapshot into the S3 workspace
    as CSV files and loads every dumped file of that table into Snowflake
    through a stage. Calls into AWS, dumpling, TiDB and Snowflake are given
    as outcomes; the methods return the calls they make, in order. */
module SnapshotSession {
  import opened Wrappers
  import opened Text
  import opened Urls
  import opened TableDefs
  import opened Steps
  import SnowSql
  import Replication

  /** A call the session makes on the outside world. */
  datatype Call =
    | PingSnowflake
    | PingTiDB
    | NewDumper(threads: int, outputDir: string, region: string, table: string)
    | SetSnapshot(tso: string)
    | CreateTable(sql: string)
    | Dump
    | CloseDumper
    | CreateStage(stageName: string, workspace: string)
    | ListObjects(bucket: string, prefix: string)
    | Load(table: string, stageName: string, file: string)
    | DropStage(stageName: string)

  const StorageSchemeError := "storage must be like s3://..."
  const NoSnapshotFiles := "No snapshot files found"
  const SnapshotUnavailable := "Snapshot is not available"

  /** The annotations `Run` puts on the errors of its steps. */
  const SnowflakePingFailed := "Failed to connect to Snowflake"
  const TiDBPingFailed := "Failed to connect to TiDB"
  const DumperConfigFailed := "Failed to build dumpling config"
  const DumperCreateFailed := "Failed to create dumpling instance"
  const StageFailed := "Failed to create stage"
  const DumpFailed := "Failed to dump table from TiDB"
  const LoadFailed := "Failed to load snapshot data into Snowflake"

  /** How `GetBucketRegion` comes back. */
  datatype RegionLookup = Region(name: string) | BucketNotFound | RegionError(cause: string)

  /** What the SDK calls of `NewReplicateSession` come back with; `parse`
      stands for `url.Parse`. */
  datatype SessionEnv = SessionEnv(
    awsSession: Option<string>,
    credentials: Result<Replication.AwsCreds>,
    parse: string -> Result<Url>,
    bucketRegion: RegionLookup,
    snowflakeDsn: Option<string>,
    snowflakeOpen: Option<string>,
    tidbOpen: Option<string>)

  /** What the calls of `Run` come back with. `columns` and `indexes` are
      the outcomes of the information_schema column query and the SHOW INDEX
      query of `GenCreateSchema`, `loadError(i)` that of the i-th load,
      `snapshot` the TSO dumpling resolves. */
  datatype RunEnv = RunEnv(
    snowflakePing: Option<string>,
    tidbPing: Option<string>,
    dumperConfig: Option<string>,
    newDumper: Option<string>,
    snapshot: string,
    setSnapshot: Option<string>,
    columns: Result<seq<ColumnInfo>>,
    indexes: Result<seq<SnowSql.IndexRow>>,
    parsesAsFloat: string -> bool,
    createTable: Option<string>,
    dump: Option<string>,
    createStage: Option<string>,
    parse: string -> Result<Url>,
    listing: Result<seq<string>>,
    loadError: nat -> Option<string>,
    dropStage: Option<string>)

  /** The workspace of a session: its own directory under the storage path. */
  function WorkspacePath(s3StoragePath: string, id: string): (r: string)
    ensures HasPrefix(r, s3StoragePath + "/") && TrimPrefix(r, s3StoragePath + "/") == id
  {
    var r := s3StoragePath + "/" + id;
    assert r[..|s3StoragePath + "/"|] == s3StoragePath + "/";
    r
  }

  /** The first step of `NewReplicateSession` that fails, as its error. */
  function SetupError(tableFqn: string, s3StoragePath: string, env: SessionEnv): (r: Option<string>)
    ensures '.' !in tableFqn ==> r == Some(Replication.FqnError)
    ensures r.None? ==>
      '.' in tableFqn && env.credentials.Ok? && env.parse(s3StoragePath).Ok?
      && env.parse(s3StoragePath).value.scheme == "s3" && env.bucketRegion.Region?
    ensures '.' in tableFqn && env.awsSession.None? && env.credentials.Ok? && env.parse(s3StoragePath).Ok?
            && env.parse(s3StoragePath).value.scheme != "s3" ==>
      r == Some(StorageSchemeError)
  {
    if '.' !in tableFqn then Some(Replication.FqnError)
    else if env.awsSession.Some? then Some(Annotate("Failed to establish AWS session", env.awsSession.value))
    else if env.credentials.Err? then Some(Annotate("Failed to resolve AWS credential", env.credentials.error))
    else if env.parse(s3StoragePath).Err? then
      Some(Annotate("Failed to parse --storage value", env.parse(s3StoragePath).error))
    else if env.parse(s3StoragePath).value.scheme != "s3" then Some(StorageSchemeError)
    else if env.bucketRegion.BucketNotFound? then
      Some("unable to find bucket " + env.parse(s3StoragePath).value.host + "'s region not found")
    else if env.bucketRegion.RegionError? then
      Some(Annotate("Failed to resolve --storage region", env.bucketRegion.cause))
    else if env.snowflakeDsn.Some? then Some(Annotate("Failed to generate Snowflake DSN", env.snowflakeDsn.value))
    else if env.snowflakeOpen.Some? then
      Some(Annotate("Failed to open Snowflake connection", env.snowflakeOpen.value))
    else if env.tidbOpen.Some? then Some(Annotate("Failed to open TiDB connection", env.tidbOpen.value))
    else None
  }

  /** `<workspace prefix>/snapshot/<db>.<table>.`: the key prefix of the
      files dumpling writes for the table. */
  function DumpFilePrefix(workspacePrefix: string, db: string, table: string): string {
    (workspacePrefix + "/snapshot/") + db + "." + table + "."
  }

  /** A listed key is one of the table's dumped CSV files. */
  predicate IsDumpFile(key: string, dumpFilePrefix: string) {
    HasPrefix(key, dumpFilePrefix) && HasSuffix(key, ".csv")
  }

  /** The dumped files among the listed keys, in listing order, as paths
      relative to the workspace. */
  function SelectedFiles(keys: seq<string>, workspacePrefix: string, dumpFilePrefix: string): seq<string> {
    if keys == [] then []
    else
      var key := keys[|keys| - 1];
      SelectedFiles(keys[..|keys| - 1], workspacePrefix, dumpFilePrefix)
      + (if IsDumpFile(key, dumpFilePrefix) then [TrimPrefix(key, workspacePrefix)] else [])
  }

  /** Selection keeps the listing order: selecting from two listings one
      after the other is selecting from both. */
  lemma {:induction false} SelectedFilesAppend(a: seq<string>, b: seq<string>, workspacePrefix: string, dumpFilePrefix: string)
    ensures SelectedFiles(a + b, workspacePrefix, dumpFilePrefix)
         == SelectedFiles(a, workspacePrefix, dumpFilePrefix) + SelectedFiles(b, workspacePrefix, dumpFilePrefix)
    decreases |b|
  {
    if b == [] {
      assert a + b == a;
    } else {
      var b', key := b[..|b| - 1], b[|b| - 1];
      assert (a + b)[..|a + b| - 1] == a + b';
      SelectedFilesAppend(a, b', workspacePrefix, dumpFilePrefix);
    }
  }

  /** A path is selected exactly when it is a listed dumped file with the
      workspace prefix taken off. */
  lemma {:induction false} SelectedFilesExactly(keys: seq<string>, workspacePrefix: string, dumpFilePrefix: string, f: string)
    ensures f in SelectedFiles(keys, workspacePrefix, dumpFilePrefix)
      <==> exists k :: k in keys && IsDumpFile(k, dumpFilePrefix) && f == TrimPrefix(k, workspacePrefix)
  {
    if keys != [] {
      var rest, key := keys[..|keys| - 1], keys[|keys| - 1];
      SelectedFilesExactly(rest, workspacePrefix, dumpFilePrefix, f);
      assert keys == rest + [key];
      if exists k :: k in keys && IsDumpFile(k, dumpFilePrefix) && f == TrimPrefix(k, workspacePrefix) {
        var k :| k in keys && IsDumpFile(k, dumpFilePrefix) && f == TrimPrefix(k, workspacePrefix);
        if k != key {
          assert k in rest;
        }
      }
    }
  }

  /** Every selected path names one of the table's CSV files under the
      workspace's `snapshot` directory. */
  lemma {:induction false} SelectedFilesAreTableCsv(keys: seq<string>, workspacePrefix: string, db: string, table: string)
    ensures forall f :: f in SelectedFiles(keys, workspacePrefix, DumpFilePrefix(workspacePrefix, db, table)) ==>
      HasPrefix(f, "/snapshot/" + db + "." + table + ".") && HasSuffix(f, ".csv")
      && workspacePrefix + f in keys
  {
    if keys != [] {
      var rest, key := keys[..|keys| - 1], keys[|keys| - 1];
      SelectedFilesAreTableCsv(rest, workspacePrefix, db, table);
      if IsDumpFile(key, DumpFilePrefix(workspacePrefix, db, table)) {
        DumpFileUnderSnapshot(key, workspacePrefix, db, table);
      }
    }
  }

  /** One dumped file's key, with the workspace prefix taken off. */
  lemma DumpFileUnderSnapshot(key: string, workspacePrefix: string, db: string, table: string)
    requires IsDumpFile(key, DumpFilePrefix(workspacePrefix, db, table))
    ensures var f := TrimPrefix(key, workspacePrefix);
      HasPrefix(f, "/snapshot/" + db + "." + table + ".") && HasSuffix(f, ".csv") && workspacePrefix + f == key
  {
    var dumpFilePrefix := DumpFilePrefix(workspacePrefix, db, table);
    var tail := "/snapshot/" + db + "." + table + ".";
    DumpFilePrefixSplit(workspacePrefix, db, table);
    var f := TrimPrefix(key, workspacePrefix);
    assert HasPrefix(key, workspacePrefix) by {
      assert key[..|workspacePrefix|] == dumpFilePrefix[..|workspacePrefix|];
    }
    assert workspacePrefix + f == key;
    assert HasPrefix(f, tail) by {
      assert f[..|tail|] == key[|workspacePrefix|..|dumpFilePrefix|];
      assert key[..|dumpFilePrefix|] == dumpFilePrefix;
    }
    assert HasSuffix(f, ".csv") by {
      assert f[|f| - 4..] == key[|key| - 4..];
    }
  }

  lemma DumpFilePrefixSplit(workspacePrefix: string, db: string, table: string)
    ensures DumpFilePrefix(workspacePrefix, db, table) == workspacePrefix + ("/snapshot/" + db + "." + table + ".")
  {
    AppendAssociative(workspacePrefix, "/snapshot/", db);
    AppendAssociative(workspacePrefix, "/snapshot/" + db, ".");
    AppendAssociative(workspacePrefix, "/snapshot/" + db + ".", table);
    AppendAssociative(workspacePrefix, "/snapshot/" + db + "." + table, ".");
  }

  /** The key filter of `loadSnapshotDataIntoSnowflake`. */
  method SelectSnapshotFiles(keys: seq<string>, workspacePrefix: string, dumpFilePrefix: string)
    returns (dumpedSnapshots: seq<string>)
    ensures dumpedSnapshots == SelectedFiles(keys, workspacePrefix, dumpFilePrefix)
  {
    dumpedSnapshots := [];
    var i := 0;
    while i < |keys|
      invariant 0 <= i <= |keys|
      invariant dumpedSnapshots == SelectedFiles(keys[..i], workspacePrefix, dumpFilePrefix)
    {
      assert keys[..i + 1][..i] == keys[..i];
      if IsDumpFile(keys[i], dumpFilePrefix) {
        dumpedSnapshots := dumpedSnapshots + [TrimPrefix(keys[i], workspacePrefix)];
      }
      i := i + 1;
    }
    assert keys[..|keys|] == keys;
  }

  /** One load per file, in order. */
  function LoadCalls(table: string, stageName: string, files: seq<string>): (r: seq<Call>)
    ensures |r| == |files|
    ensures forall i :: 0 <= i < |files| ==> r[i] == Load(table, stageName, files[i])
  {
    seq(|files|, i requires 0 <= i < |files| => Load(table, stageName, files[i]))
  }

  /** The load loop and the stage drop after it: a failing load ends the
      loop and the stage is not dropped. */
  method LoadFiles(table: string, stageName: string, files: seq<string>,
                   loadError: nat -> Option<string>, dropError: Option<string>)
    returns (err: Option<string>, effects: seq<Call>)
    ensures effects <= LoadCalls(table, stageName, files) + [DropStage(stageName)]
    ensures err.None? ==> effects == LoadCalls(table, stageName, files) + [DropStage(stageName)]
    ensures (forall i :: 0 <= i < |files| ==> loadError(i).None?) ==>
      err == dropError && effects == LoadCalls(table, stageName, files) + [DropStage(stageName)]
    ensures forall i: nat :: FirstFailure(loadError, |files|, i) ==>
      err == loadError(i) && effects == LoadCalls(table, stageName, files)[..i + 1]
    ensures err.None? <==> (forall i :: 0 <= i < |files| ==> loadError(i).None?) && dropError.None?
    ensures Outcome(err, effects) == Execute(FileSteps(table, stageName, files, loadError, dropError))
  {
    ghost var steps := FileSteps(table, stageName, files, loadError, dropError);
    FileStepsOutcome(table, stageName, files, loadError, dropError);
    ExecuteBounds(steps, []);
    effects := [];
    var i := 0;
    while i < |files|
      invariant 0 <= i <= |files|
      invariant Execute(steps) == Then(Outcome(None, effects), Execute(steps[i..]))
    {
      assert steps[i] == Step(Some(Load(table, stageName, files[i])), loadError(i));
      ExecuteFrom(steps, i, effects);
      effects := effects + [Load(table, stageName, files[i])];
      if loadError(i).Some? {
        return loadError(i), effects;
      }
      i := i + 1;
    }
    ExecuteFrom(steps, i, effects);
    effects := effects + [DropStage(stageName)];
    ExecuteBounds(steps, effects);
    err := dropError;
  }

  /** Running the load steps: the calls made are a prefix of the loads and
      the drop, a failing load ends them with its error, and they succeed
      exactly when every load and the drop do. */
  lemma FileStepsOutcome(table: string, stageName: string, files: seq<string>,
                         loadError: nat -> Option<string>, dropError: Option<string>)
    ensures Execute(FileSteps(table, stageName, files, loadError, dropError)).effects
            <= LoadCalls(table, stageName, files) + [DropStage(stageName)]
    ensures Execute(FileSteps(table, stageName, files, loadError, dropError)).err.None? ==>
      Execute(FileSteps(table, stageName, files, loadError, dropError)).effects
      == LoadCalls(table, stageName, files) + [DropStage(stageName)]
    ensures (forall i :: 0 <= i < |files| ==> loadError(i).None?) ==>
      Execute(FileSteps(table, stageName, files, loadError, dropError))
      == Outcome(dropError, LoadCalls(table, stageName, files) + [DropStage(stageName)])
    ensures forall i: nat :: FirstFailure(loadError, |files|, i) ==>
      Execute(FileSteps(table, stageName, files, loadError, dropError))
      == Outcome(loadError(i), LoadCalls(table, stageName, files)[..i + 1])
    ensures Execute(FileSteps(table, stageName, files, loadError, dropError)).err.None?
      <==> (forall i :: 0 <= i < |files| ==> loadError(i).None?) && dropError.None?
  {
    var calls := LoadCalls(table, stageName, files);
    var errors := LoadErrors(loadError, |files|);
    var loads := CallSteps(calls, errors);
    var drop := Step(Some(DropStage(stageName)), dropError);
    var steps := loads + [drop];
    assert steps == FileSteps(table, stageName, files, loadError, dropError);
    FileStepsMakeLoadCalls(table, stageName, files, loadError, dropError);
    ExecuteOne(drop);
    ExecutePrefix(steps);
    ExecuteSucceeds(steps);
    assert forall i :: 0 <= i < |files| ==> steps[i].error == loadError(i);
    assert steps[|files|] == drop;
    if forall i :: 0 <= i < |files| ==> loadError(i).None? {
      assert AllSucceed(steps[..|files|]);
      assert steps[..|files| + 1] == steps;
      if dropError.Some? {
        ExecuteStopsAtFirstFailure(steps, |files|);
      }
    }
    forall i: nat | FirstFailure(loadError, |files|, i)
      ensures Execute(steps) == Outcome(loadError(i), calls[..i + 1])
    {
      FirstFailingLoad(table, stageName, files, loadError, dropError, i);
    }
  }

  /** The load steps make one load per file, then the drop. */
  lemma FileStepsMakeLoadCalls(table: string, stageName: string, files: seq<string>,
                               loadError: nat -> Option<string>, dropError: Option<string>)
    ensures Calls(FileSteps(table, stageName, files, loadError, dropError))
            == LoadCalls(table, stageName, files) + [DropStage(stageName)]
  {
    var drop := Step(Some(DropStage(stageName)), dropError);
    var loads := CallSteps(LoadCalls(table, stageName, files), LoadErrors(loadError, |files|));
    CallsAppend(loads, [drop]);
    CallsOfCallSteps(LoadCalls(table, stageName, files), LoadErrors(loadError, |files|));
    ExecuteOne(drop);
  }

  /** The first failing load ends the load steps with its error, after the
      loads up to and including it. */
  lemma FirstFailingLoad(table: string, stageName: string, files: seq<string>,
                         loadError: nat -> Option<string>, dropError: Option<string>, i: nat)
    requires FirstFailure(loadError, |files|, i)
    ensures Execute(FileSteps(table, stageName, files, loadError, dropError))
      == Outcome(loadError(i), LoadCalls(table, stageName, files)[..i + 1])
  {
    var calls := LoadCalls(table, stageName, files);
    var errors := LoadErrors(loadError, |files|);
    var steps := FileSteps(table, stageName, files, loadError, dropError);
    assert forall k :: 0 <= k < |files| ==> steps[k] == Step(Some(calls[k]), loadError(k));
    assert AllSucceed(steps[..i]);
    ExecuteStopsAtFirstFailure(steps, i);
    assert steps[..i + 1] == CallSteps(calls[..i + 1], errors[..i + 1]);
    CallsOfCallSteps(calls[..i + 1], errors[..i + 1]);
  }

  /** The i-th of n loads is the first to fail. */
  predicate FirstFailure(loadError: nat -> Option<string>, n: nat, i: nat) {
    i < n && loadError(i).Some? && forall j :: 0 <= j < i ==> loadError(j).None?
  }

  /** The outcomes of the loads, one per file. */
  function LoadErrors(loadError: nat -> Option<string>, n: nat): (r: seq<Option<string>>)
    ensures |r| == n
    ensures forall i :: 0 <= i < n ==> r[i] == loadError(i)
  {
    seq(n, i requires 0 <= i < n => loadError(i))
  }

  /** The steps of the load loop: one load per file, then the stage drop. */
  function FileSteps(table: string, stageName: string, files: seq<string>,
                     loadError: nat -> Option<string>, dropError: Option<string>): seq<Step<Call>> {
    CallSteps(LoadCalls(table, stageName, files), LoadErrors(loadError, |files|))
    + [Step(Some(DropStage(stageName)), dropError)]
  }

  /** The steps of `dumpPrepareTargetTable` for the statement `createSql`:
      the schema, then its execution. */
  function TableSteps(w: RunEnv, createSql: string): seq<Step<Call>> {
    [Check(SchemaError(w)), Step(Some(CreateTable(createSql)), w.createTable)]
  }

  /** The table steps fail at the schema without a call, or make the
      CREATE TABLE call and end with its error. */
  lemma TableOutcome(w: RunEnv, createSql: string)
    ensures Execute(TableSteps(w, createSql)) ==
      if SchemaOk(w) then Outcome(w.createTable, [CreateTable(createSql)]) else Outcome(SchemaError(w), [])
  {
    ExecuteTwo(Check<Call>(SchemaError(w)), Step(Some(CreateTable(createSql)), w.createTable));
  }

  /** The dump and the closing of the dumper, which comes before the dump's
      error is looked at. */
  function DumpSteps(w: RunEnv): seq<Step<Call>> {
    [Step(Some(Dump), None), Step(Some(CloseDumper), AnnotateError(DumpFailed, w.dump))]
  }

  /** The steps of `Run` before the target table succeed: both pings, the
      dumper, a resolved snapshot and setting it. */
  predicate DumperReady(w: RunEnv) {
    && w.snowflakePing.None? && w.tidbPing.None? && w.dumperConfig.None? && w.newDumper.None?
    && w.snapshot != "" && w.setSnapshot.None?
  }

  /** Both schema queries succeed and every column has a definition, so a
      CREATE TABLE statement can be made. */
  predicate SchemaOk(w: RunEnv) {
    w.columns.Ok? && SnowSql.ColumnRows(w.columns.value, w.parsesAsFloat).Ok? && w.indexes.Ok?
  }

  /** Why no CREATE TABLE statement can be made, in the order `GenCreateSchema`
      finds it: the failing column query, the first column without a
      definition, or the failing SHOW INDEX query. */
  function SchemaError(w: RunEnv): (e: Option<string>)
    ensures e.None? <==> SchemaOk(w)
  {
    if w.columns.Err? then Some(w.columns.error)
    else if SnowSql.ColumnRows(w.columns.value, w.parsesAsFloat).Err? then
      Some(SnowSql.ColumnRows(w.columns.value, w.parsesAsFloat).error)
    else if w.indexes.Err? then Some(w.indexes.error)
    else None
  }

  class ReplicateSession {
    var id: string
    var tableFqn: string
    var snapshotConcurrency: int
    var resolvedS3Region: string
    var resolvedTso: string
    var awsCredential: Replication.AwsCreds
    var sourceDatabase: string
    var sourceTable: string
    var storageWorkspacePath: string

    constructor (id: string, tableFqn: string, snapshotConcurrency: int)
      ensures this.id == id && this.tableFqn == tableFqn && this.snapshotConcurrency == snapshotConcurrency
      ensures resolvedS3Region == "" && resolvedTso == "" && awsCredential == Replication.AwsCreds("", "", "")
      ensures sourceDatabase == "" && sourceTable == "" && storageWorkspacePath == ""
    {
      this.id := id;
      this.tableFqn := tableFqn;
      this.snapshotConcurrency := snapshotConcurrency;
      resolvedS3Region := "";
      resolvedTso := "";
      awsCredential := Replication.AwsCreds("", "", "");
      sourceDatabase := "";
      sourceTable := "";
      storageWorkspacePath := "";
    }

    function StageName(): string
      reads this`sourceTable
    {
      "snapshot_stage_" + sourceTable
    }

    /** `TrimPrefix(parsed.Path, "/")` of the workspace (empty when the
        workspace does not parse). */
    function WorkspacePrefix(w: RunEnv): string
      reads this`storageWorkspacePath
    {
      TrimPrefix(w.parse(storageWorkspacePath).GetOr(Replication.NoUrl).path, "/")
    }

    /** The files to load, from the listing. */
    function Files(w: RunEnv): seq<string>
      reads this`storageWorkspacePath, this`sourceDatabase, this`sourceTable
    {
      var prefix := WorkspacePrefix(w);
      SelectedFiles(w.listing.GetOr([]), prefix, DumpFilePrefix(prefix, sourceDatabase, sourceTable))
    }

    /** Every call `loadSnapshotDataIntoSnowflake` makes when none fails. */
    function LoadPlan(w: RunEnv): seq<Call>
      reads this`storageWorkspacePath, this`sourceDatabase, this`sourceTable
    {
      [CreateStage(StageName(), storageWorkspacePath),
       ListObjects(w.parse(storageWorkspacePath).GetOr(Replication.NoUrl).host, WorkspacePrefix(w))]
      + LoadCalls(sourceTable, StageName(), Files(w)) + [DropStage(StageName())]
    }

    /** The stage is created and the workspace lists at least one key, so
        the loads are reached. */
    predicate Listed(w: RunEnv)
      reads this`storageWorkspacePath
    {
      w.createStage.None? && w.parse(storageWorkspacePath).Ok? && w.listing.Ok? && w.listing.value != []
    }

    /** The loads are reached and the i-th of them is the first to fail. */
    predicate FailsAtLoad(w: RunEnv, i: nat)
      reads this`storageWorkspacePath, this`sourceDatabase, this`sourceTable
    {
      Listed(w) && FirstFailure(w.loadError, |Files(w)|, i)
    }

    /** When `loadSnapshotDataIntoSnowflake` succeeds: the loads are reached,
        every load succeeds and so does the stage drop. */
    predicate LoadSucceeds(w: RunEnv)
      reads this`storageWorkspacePath, this`sourceDatabase, this`sourceTable
    {
      Listed(w) && (forall i :: 0 <= i < |Files(w)| ==> w.loadError(i).None?) && w.dropStage.None?
    }

    /** Only the last call of the load plan drops the stage. */
    lemma DropIsLast(w: RunEnv, n: nat)
      requires n < |LoadPlan(w)|
      ensures DropStage(StageName()) !in LoadPlan(w)[..n]
    {
      forall k | 0 <= k < n
        ensures !LoadPlan(w)[k].DropStage?
      {
        if k >= 2 {
          assert LoadPlan(w)[k] == LoadCalls(sourceTable, StageName(), Files(w))[k - 2];
        }
      }
    }

    /** The calls of `Run` up to the target table; `createSql` is the
        statement `GenCreateSchema` produced. */
    function Prelude(w: RunEnv, createSql: string): seq<Call>
      reads this`snapshotConcurrency, this`storageWorkspacePath, this`resolvedS3Region, this`tableFqn
    {
      [PingSnowflake, PingTiDB,
       NewDumper(snapshotConcurrency, storageWorkspacePath + "/snapshot", resolvedS3Region, tableFqn),
       SetSnapshot(w.snapshot), CreateTable(createSql)]
    }

    /** Every call `Run` makes when none fails. */
    function RunPlan(w: RunEnv, createSql: string): seq<Call>
      reads this`snapshotConcurrency, this`storageWorkspacePath, this`resolvedS3Region, this`tableFqn
      reads this`sourceDatabase, this`sourceTable
    {
      Prelude(w, createSql) + [Dump, CloseDumper] + LoadPlan(w)
    }

    /** The steps of `buildDumper`: the dumpling configuration, the dumper,
        the resolved snapshot, then SET SESSION. */
    function DumperSteps(w: RunEnv): seq<Step<Call>>
      reads this`snapshotConcurrency, this`storageWorkspacePath, this`resolvedS3Region, this`tableFqn
    {
      [Check(AnnotateError(DumperConfigFailed, w.dumperConfig)),
       Step(Some(NewDumper(snapshotConcurrency, storageWorkspacePath + "/snapshot", resolvedS3Region, tableFqn)),
            AnnotateError(DumperCreateFailed, w.newDumper)),
       Check(if w.snapshot == "" then Some(SnapshotUnavailable) else None),
       Step(Some(SetSnapshot(w.snapshot)), w.setSnapshot)]
    }

    /** The first four steps of `loadSnapshotDataIntoSnowflake`: the stage,
        the workspace URL, the listing, and the test that it is not empty. */
    function ListSteps(w: RunEnv): seq<Step<Call>>
      reads this`storageWorkspacePath, this`sourceTable
    {
      [Step(Some(CreateStage(StageName(), storageWorkspacePath)), AnnotateError(StageFailed, w.createStage)),
       Check(ErrorOf(w.parse(storageWorkspacePath))),
       Step(Some(ListObjects(w.parse(storageWorkspacePath).GetOr(Replication.NoUrl).host, WorkspacePrefix(w))),
            ErrorOf(w.listing)),
       Check(if w.listing == Ok([]) then Some(NoSnapshotFiles) else None)]
    }

    /** Every step of `loadSnapshotDataIntoSnowflake`. */
    function LoadSteps(w: RunEnv): seq<Step<Call>>
      reads this`storageWorkspacePath, this`sourceDatabase, this`sourceTable
    {
      ListSteps(w) + FileSteps(sourceTable, StageName(), Files(w), w.loadError, w.dropStage)
    }

    /** The steps of `Run` up to the target table. */
    function PrepareSteps(w: RunEnv, createSql: string): seq<Step<Call>>
      reads this`snapshotConcurrency, this`storageWorkspacePath, this`resolvedS3Region, this`tableFqn
    {
      [Step(Some(PingSnowflake), AnnotateError(SnowflakePingFailed, w.snowflakePing)),
       Step(Some(PingTiDB), AnnotateError(TiDBPingFailed, w.tidbPing))]
      + DumperSteps(w) + TableSteps(w, createSql)
    }

    /** The steps of `Run` after the target table: the dump, then the load
        steps with their errors annotated. */
    function TailSteps(w: RunEnv): seq<Step<Call>>
      reads this`storageWorkspacePath, this`sourceDatabase, this`sourceTable
    {
      DumpSteps(w) + Annotated(LoadSteps(w), LoadFailed)
    }

    /** Every step of `Run`. */
    function SessionSteps(w: RunEnv, createSql: string): seq<Step<Call>>
      reads this`snapshotConcurrency, this`storageWorkspacePath, this`resolvedS3Region, this`tableFqn
      reads this`sourceDatabase, this`sourceTable
    {
      PrepareSteps(w, createSql) + TailSteps(w)
    }

    /** The load steps make the planned calls of the load. */
    lemma LoadStepsMakePlannedCalls(w: RunEnv)
      ensures Calls(LoadSteps(w)) == LoadPlan(w)
    {
      CallsAppend(ListSteps(w), FileSteps(sourceTable, StageName(), Files(w), w.loadError, w.dropStage));
      ListOutcome(w);
      FileStepsMakeLoadCalls(sourceTable, StageName(), Files(w), w.loadError, w.dropStage);
    }

    /** The steps of `Run` make the planned calls of `Run`. */
    lemma SessionStepsMakePlannedCalls(w: RunEnv, createSql: string)
      ensures Calls(SessionSteps(w, createSql)) == RunPlan(w, createSql)
    {
      CallsAppend(PrepareSteps(w, createSql), TailSteps(w));
      PrepareStepsMakePreludeCalls(w, createSql);
      TailStepsMakePlannedCalls(w);
    }

    /** The steps up to the target table make the calls of the prelude. */
    lemma PrepareStepsMakePreludeCalls(w: RunEnv, createSql: string)
      ensures Calls(PrepareSteps(w, createSql)) == Prelude(w, createSql)
    {
      var pings := PrepareSteps(w, createSql)[..2];
      var table := TableSteps(w, createSql);
      assert PrepareSteps(w, createSql) == pings + DumperSteps(w) + table;
      CallsAppend(pings + DumperSteps(w), table);
      CallsAppend(pings, DumperSteps(w));
      CallsTwo(pings[0], pings[1]);
      DumperStepsCalls(w);
      CallsTwo(table[0], table[1]);
      assert table == [table[0], table[1]];
    }

    /** The dumper steps create the dumper and set the snapshot. */
    lemma DumperStepsCalls(w: RunEnv)
      ensures Calls(DumperSteps(w)) ==
        [NewDumper(snapshotConcurrency, storageWorkspacePath + "/snapshot", resolvedS3Region, tableFqn),
         SetSnapshot(w.snapshot)]
    {
      var dumper := DumperSteps(w);
      assert dumper == [dumper[0], dumper[1]] + [dumper[2], dumper[3]];
      CallsAppend([dumper[0], dumper[1]], [dumper[2], dumper[3]]);
      CallsTwo(dumper[0], dumper[1]);
      CallsTwo(dumper[2], dumper[3]);
    }

    /** The steps after the target table make the dump calls, then the
        planned calls of the load. */
    lemma TailStepsMakePlannedCalls(w: RunEnv)
      ensures Calls(TailSteps(w)) == [Dump, CloseDumper] + LoadPlan(w)
    {
      var dump := DumpSteps(w);
      CallsAppend(dump, Annotated(LoadSteps(w), LoadFailed));
      CallsTwo(dump[0], dump[1]);
      assert dump == [dump[0], dump[1]];
      ExecuteAnnotated(LoadSteps(w), LoadFailed);
      LoadStepsMakePlannedCalls(w);
    }

    /** `buildDumper`: the resolved snapshot is recorded even when it is
        empty, which is then an error. */
    method BuildDumper(w: RunEnv) returns (err: Option<string>, effects: seq<Call>)
      modifies this`resolvedTso
      ensures effects <= [NewDumper(snapshotConcurrency, storageWorkspacePath + "/snapshot", resolvedS3Region, tableFqn),
                          SetSnapshot(w.snapshot)]
      ensures err.None? ==>
        effects == [NewDumper(snapshotConcurrency, storageWorkspacePath + "/snapshot", resolvedS3Region, tableFqn),
                    SetSnapshot(w.snapshot)]
      ensures resolvedTso == if w.dumperConfig.None? && w.newDumper.None? then w.snapshot else old(resolvedTso)
      ensures err.None? <==> w.dumperConfig.None? && w.newDumper.None? && w.snapshot != "" && w.setSnapshot.None?
      ensures w.dumperConfig.None? && w.newDumper.None? && w.snapshot == "" ==>
        err == Some(SnapshotUnavailable) && |effects| == 1
      ensures Outcome(err, effects) == Execute(DumperSteps(w))
    {
      ghost var steps := DumperSteps(w);
      ExecuteBounds(steps, []);
      ExecuteFrom(steps, 0, []);
      ExecuteFrom(steps, 1, []);
      effects := [];
      if w.dumperConfig.Some? {
        return Some(Annotate(DumperConfigFailed, w.dumperConfig.value)), effects;
      }
      effects := [NewDumper(snapshotConcurrency, storageWorkspacePath + "/snapshot", resolvedS3Region, tableFqn)];
      if w.newDumper.Some? {
        return Some(Annotate(DumperCreateFailed, w.newDumper.value)), effects;
      }
      ExecuteFrom(steps, 2, effects);
      ExecuteFrom(steps, 3, effects);
      resolvedTso := w.snapshot;
      if |resolvedTso| == 0 {
        return Some(SnapshotUnavailable), effects;
      }
      effects := effects + [SetSnapshot(w.snapshot)];
      if w.setSnapshot.Some? {
        return w.setSnapshot, effects;
      }
      ExecuteBounds(steps, effects);
      err := None;
    }

    /** `dumpPrepareTargetTable`: the CREATE TABLE statement for the source
        table, executed on Snowflake. */
    method DumpPrepareTargetTable(w: RunEnv) returns (err: Option<string>, effects: seq<Call>)
      ensures |effects| <= 1
      ensures err.None? ==> |effects| == 1
      ensures forall e :: e in effects ==>
        e.CreateTable? && HasPrefix(e.sql, "CREATE OR REPLACE TABLE " + sourceTable + " (\n")
      ensures w.columns.Err? ==> err == Some(w.columns.error) && effects == []
      ensures !SchemaOk(w) ==> err == SchemaError(w) && effects == []
      ensures SchemaOk(w) ==>
        && err == w.createTable && |effects| == 1 && effects[0].CreateTable?
        && SnowSql.IsCreateStatement(effects[0].sql, sourceTable, w.columns.value, w.indexes.value, w.parsesAsFloat)
      ensures err.None? <==> SchemaOk(w) && w.createTable.None?
    {
      var sql, unsupported := SnowSql.GenCreateSchema(sourceTable, w.columns, w.indexes, w.parsesAsFloat);
      if sql.Err? {
        return Some(sql.error), [];
      }
      effects := [CreateTable(sql.value)];
      err := w.createTable;
    }

    /** `loadSnapshotDataIntoSnowflake`: a stage over the workspace, one
        load per dumped file of the table, and the stage dropped. */
    method LoadSnapshotDataIntoSnowflake(w: RunEnv) returns (err: Option<string>, effects: seq<Call>)
      ensures effects <= LoadPlan(w)
      ensures err.None? ==> effects == LoadPlan(w)
      ensures w.createStage.None? && w.parse(storageWorkspacePath).Ok? && w.listing == Ok([]) ==>
        err == Some(NoSnapshotFiles) && DropStage(StageName()) !in effects
      ensures w.createStage.None? && w.parse(storageWorkspacePath).Ok? && w.listing.Ok? && w.listing.value != []
              && Files(w) == [] ==>
        err == w.dropStage && effects == LoadPlan(w)[..2] + [DropStage(StageName())]
      ensures w.createStage.Some? ==>
        err == Some(Annotate(StageFailed, w.createStage.value)) && effects == LoadPlan(w)[..1]
      ensures forall i: nat :: FailsAtLoad(w, i) ==>
        err == w.loadError(i) && effects == LoadPlan(w)[..3 + i]
      ensures err.None? <==> LoadSucceeds(w)
      ensures Outcome(err, effects) == Execute(LoadSteps(w))
    {
      var stageName := "snapshot_stage_" + sourceTable;
      ghost var outcome := Execute(LoadSteps(w));
      LoadOutcome(w);
      LoadStepsFacts(w);
      LoadPlanSplit(w);
      effects := [CreateStage(stageName, storageWorkspacePath)];
      if w.createStage.Some? {
        assert outcome == Outcome(Some(Annotate(StageFailed, w.createStage.value)), effects);
        return Some(Annotate(StageFailed, w.createStage.value)), effects;
      }
      var parsedWorkspace := w.parse(storageWorkspacePath);
      if parsedWorkspace.Err? {
        assert outcome == Outcome(Some(parsedWorkspace.error), effects);
        return Some(parsedWorkspace.error), effects;
      }
      var workspacePrefix := TrimPrefix(parsedWorkspace.value.path, "/");
      var dumpFilePrefix := DumpFilePrefix(workspacePrefix, sourceDatabase, sourceTable);
      effects := [CreateStage(stageName, storageWorkspacePath), ListObjects(parsedWorkspace.value.host, workspacePrefix)];
      assert effects == LoadPlan(w)[..2];
      if w.listing.Err? {
        assert outcome == Outcome(Some(w.listing.error), effects);
        return Some(w.listing.error), effects;
      }
      if |w.listing.value| == 0 {
        assert outcome == Outcome(Some(NoSnapshotFiles), effects);
        return Some(NoSnapshotFiles), effects;
      }
      var dumpedSnapshots := SelectSnapshotFiles(w.listing.value, workspacePrefix, dumpFilePrefix);
      assert dumpedSnapshots == Files(w);
      var loadErr, loads := LoadFiles(sourceTable, stageName, dumpedSnapshots, w.loadError, w.dropStage);
      assert outcome == Outcome(loadErr, effects + loads);
      effects := effects + loads;
      err := loadErr;
    }

    /** The load steps end at the stage, the workspace URL, the listing or
        an empty listing, or else go on with the loads after the stage and
        the listing. */
    lemma LoadOutcome(w: RunEnv)
      ensures Execute(LoadSteps(w)) ==
        if w.createStage.Some? then Outcome(Some(Annotate(StageFailed, w.createStage.value)), LoadPlan(w)[..1])
        else if w.parse(storageWorkspacePath).Err? then Outcome(Some(w.parse(storageWorkspacePath).error), LoadPlan(w)[..1])
        else if w.listing.Err? then Outcome(Some(w.listing.error), LoadPlan(w)[..2])
        else if w.listing.value == [] then Outcome(Some(NoSnapshotFiles), LoadPlan(w)[..2])
        else Then(Outcome(None, LoadPlan(w)[..2]), Execute(FileSteps(sourceTable, StageName(), Files(w), w.loadError, w.dropStage)))
    {
      ExecuteAppend(ListSteps(w), FileSteps(sourceTable, StageName(), Files(w), w.loadError, w.dropStage));
      ListOutcome(w);
      LoadPlanSplit(w);
    }

    /** The stage, the workspace URL, the listing and the test that it is
        not empty: the first failure ends them. */
    lemma ListOutcome(w: RunEnv)
      ensures Execute(ListSteps(w)) ==
        if w.createStage.Some? then
          Outcome(Some(Annotate(StageFailed, w.createStage.value)), [CreateStage(StageName(), storageWorkspacePath)])
        else if w.parse(storageWorkspacePath).Err? then
          Outcome(Some(w.parse(storageWorkspacePath).error), [CreateStage(StageName(), storageWorkspacePath)])
        else Outcome(if w.listing.Err? then Some(w.listing.error) else if w.listing.value == [] then Some(NoSnapshotFiles) else None,
                     [CreateStage(StageName(), storageWorkspacePath),
                      ListObjects(w.parse(storageWorkspacePath).GetOr(Replication.NoUrl).host, WorkspacePrefix(w))])
      ensures Calls(ListSteps(w)) ==
        [CreateStage(StageName(), storageWorkspacePath),
         ListObjects(w.parse(storageWorkspacePath).GetOr(Replication.NoUrl).host, WorkspacePrefix(w))]
    {
      var head := ListSteps(w);
      assert head == [head[0], head[1]] + [head[2], head[3]];
      ExecuteAppend([head[0], head[1]], [head[2], head[3]]);
      ExecuteTwo(head[0], head[1]);
      ExecuteTwo(head[2], head[3]);
      CallsAppend([head[0], head[1]], [head[2], head[3]]);
      CallsTwo(head[0], head[1]);
      CallsTwo(head[2], head[3]);
    }

    /** The steps after the target table: the dump's error ends them after
        closing the dumper, else the load runs with its error annotated. */
    lemma TailOutcome(w: RunEnv)
      ensures Execute(TailSteps(w)) ==
        if w.dump.Some? then Outcome(Some(Annotate(DumpFailed, w.dump.value)), [Dump, CloseDumper])
        else Outcome(AnnotateError(LoadFailed, Execute(LoadSteps(w)).err),
                     [Dump, CloseDumper] + Execute(LoadSteps(w)).effects)
    {
      ExecuteAppend(DumpSteps(w), Annotated(LoadSteps(w), LoadFailed));
      ExecuteTwo(DumpSteps(w)[0], DumpSteps(w)[1]);
      assert DumpSteps(w) == [DumpSteps(w)[0], DumpSteps(w)[1]];
      ExecuteAnnotated(LoadSteps(w), LoadFailed);
    }

    /** What the steps after the target table come to: a prefix of the dump
        and the load plan, all of it on success, the dump's error, and a
        failing load's error with the stage left in place. */
    lemma TailStepsFacts(w: RunEnv)
      ensures Execute(TailSteps(w)).effects <= [Dump, CloseDumper] + LoadPlan(w)
      ensures Execute(TailSteps(w)).err.None? ==> Execute(TailSteps(w)).effects == [Dump, CloseDumper] + LoadPlan(w)
      ensures Execute(TailSteps(w)).err.None? <==> w.dump.None? && LoadSucceeds(w)
      ensures w.dump.Some? ==>
        Execute(TailSteps(w)) == Outcome(Some(Annotate(DumpFailed, w.dump.value)), [Dump, CloseDumper])
      ensures forall i: nat :: w.dump.None? && FailsAtLoad(w, i) ==>
        && Execute(TailSteps(w)).err == Some(Annotate(LoadFailed, w.loadError(i).value))
        && DropStage(StageName()) !in Execute(TailSteps(w)).effects
    {
      TailOutcome(w);
      LoadStepsFacts(w);
      PrefixAfter([Dump, CloseDumper], Execute(LoadSteps(w)).effects, LoadPlan(w));
      forall i: nat | w.dump.None? && FailsAtLoad(w, i)
        ensures DropStage(StageName()) !in Execute(TailSteps(w)).effects
      {
        DropIsLast(w, 3 + i);
      }
    }

    /** What the steps of `Run` come to: a prefix of the planned calls, all
        of them on success, success exactly when every step succeeds, and
        the error of the step that fails first. */
    lemma SessionStepsOutcome(w: RunEnv, createSql: string)
      ensures Execute(SessionSteps(w, createSql)).effects <= RunPlan(w, createSql)
      ensures Execute(SessionSteps(w, createSql)).err.None? ==> Execute(SessionSteps(w, createSql)).effects == RunPlan(w, createSql)
      ensures Execute(SessionSteps(w, createSql)).err.None? <==>
        DumperReady(w) && SchemaOk(w) && w.createTable.None? && w.dump.None? && LoadSucceeds(w)
      ensures DumperReady(w) && SchemaOk(w) && w.createTable.None? && w.dump.Some? ==>
        Execute(SessionSteps(w, createSql)).err == Some(Annotate(DumpFailed, w.dump.value))
      ensures forall i: nat :: DumperReady(w) && SchemaOk(w) && w.createTable.None? && w.dump.None? && FailsAtLoad(w, i) ==>
        && Execute(SessionSteps(w, createSql)).err == Some(Annotate(LoadFailed, w.loadError(i).value))
        && DropStage(StageName()) !in Execute(SessionSteps(w, createSql)).effects
      ensures w.snowflakePing.Some? ==>
        Execute(SessionSteps(w, createSql)) == Outcome(Some(Annotate(SnowflakePingFailed, w.snowflakePing.value)), [PingSnowflake])
      ensures w.snowflakePing.None? && w.tidbPing.Some? ==>
        Execute(SessionSteps(w, createSql)) == Outcome(Some(Annotate(TiDBPingFailed, w.tidbPing.value)), [PingSnowflake, PingTiDB])
      ensures w.snowflakePing.None? && w.tidbPing.None? && w.dumperConfig.None? && w.newDumper.None? && w.snapshot == "" ==>
        Execute(SessionSteps(w, createSql)).err == Some(SnapshotUnavailable) && |Execute(SessionSteps(w, createSql)).effects| == 3
    {
      ExecuteAppend(PrepareSteps(w, createSql), TailSteps(w));
      PrepareOutcome(w, createSql);
      PrepareStepsFollowPrelude(w, createSql);
      TailStepsFacts(w);
      var prelude := Prelude(w, createSql);
      assert RunPlan(w, createSql) == prelude + ([Dump, CloseDumper] + LoadPlan(w));
      PrefixAfter(prelude, Execute(TailSteps(w)).effects, [Dump, CloseDumper] + LoadPlan(w));
      assert DropStage(StageName()) !in prelude;
    }

    /** The steps of `Run` up to the target table: the pings, then the
        dumper, then the table. */
    lemma PrepareOutcome(w: RunEnv, createSql: string)
      ensures Execute(PrepareSteps(w, createSql)) ==
        if w.snowflakePing.Some? then Outcome(Some(Annotate(SnowflakePingFailed, w.snowflakePing.value)), [PingSnowflake])
        else if w.tidbPing.Some? then Outcome(Some(Annotate(TiDBPingFailed, w.tidbPing.value)), [PingSnowflake, PingTiDB])
        else Then(Outcome(None, [PingSnowflake, PingTiDB]), Then(Execute(DumperSteps(w)), Execute(TableSteps(w, createSql))))
    {
      var pings := PrepareSteps(w, createSql)[..2];
      assert PrepareSteps(w, createSql) == pings + (DumperSteps(w) + TableSteps(w, createSql));
      ExecuteAppend(pings, DumperSteps(w) + TableSteps(w, createSql));
      ExecuteAppend(DumperSteps(w), TableSteps(w, createSql));
      assert pings == [pings[0], pings[1]];
      ExecuteTwo(pings[0], pings[1]);
    }

    /** What the steps up to the target table come to: the calls of the
        prelude in order, the error of the first failing step, and success
        exactly when every step succeeds. */
    lemma PrepareStepsFollowPrelude(w: RunEnv, createSql: string)
      ensures Execute(PrepareSteps(w, createSql)).effects <= Prelude(w, createSql)
      ensures Execute(PrepareSteps(w, createSql)).err.None? ==> Execute(PrepareSteps(w, createSql)).effects == Prelude(w, createSql)
      ensures w.snowflakePing.None? && w.tidbPing.None? && w.dumperConfig.None? && w.newDumper.None?
              && w.snapshot == "" ==>
        Execute(PrepareSteps(w, createSql)) == Outcome(Some(SnapshotUnavailable), Prelude(w, createSql)[..3])
      ensures DumperReady(w) ==>
        Execute(PrepareSteps(w, createSql)) ==
          Outcome(if SchemaOk(w) then w.createTable else SchemaError(w), Prelude(w, createSql)[..if SchemaOk(w) then 5 else 4])
      ensures Execute(PrepareSteps(w, createSql)).err.None? <==> DumperReady(w) && SchemaOk(w) && w.createTable.None?
    {
      PrepareStepsMakePreludeCalls(w, createSql);
      ExecutePrefix(PrepareSteps(w, createSql));
      ExecuteSucceeds(PrepareSteps(w, createSql));
      PrepareOutcome(w, createSql);
      if w.snowflakePing.None? && w.tidbPing.None? && w.dumperConfig.None? && w.newDumper.None? {
        DumperOutcome(w);
        TableOutcome(w, createSql);
        var p := Prelude(w, createSql);
        assert p[..3] == [PingSnowflake, PingTiDB] + [p[2]];
        assert p[..4] == [PingSnowflake, PingTiDB] + [p[2], p[3]];
        assert p[..5] == p;
      }
    }

    /** The dumper steps end at the configuration, the dumper, an empty
        snapshot, or SET SESSION. */
    lemma DumperOutcome(w: RunEnv)
      ensures Execute(DumperSteps(w)) ==
        if w.dumperConfig.Some? then Outcome(Some(Annotate(DumperConfigFailed, w.dumperConfig.value)), [])
        else if w.newDumper.Some? then
          Outcome(Some(Annotate(DumperCreateFailed, w.newDumper.value)), [DumperSteps(w)[1].call.value])
        else if w.snapshot == "" then Outcome(Some(SnapshotUnavailable), [DumperSteps(w)[1].call.value])
        else Outcome(w.setSnapshot, [DumperSteps(w)[1].call.value, SetSnapshot(w.snapshot)])
    {
      var steps := DumperSteps(w);
      ExecuteBounds(steps, []);
      ExecuteFrom(steps, 0, []);
      ExecuteFrom(steps, 1, []);
      ExecuteFrom(steps, 2, Made(steps[1]));
      ExecuteFrom(steps, 3, Made(steps[1]));
      ExecuteBounds(steps, Made(steps[1]) + Made(steps[3]));
    }

    /** What the load steps come to: a prefix of the load plan, the whole
        plan on success, the error of the step that fails first, and success
        exactly when the loads are reached and every load and the drop
        succeed. */
    lemma LoadStepsFacts(w: RunEnv)
      ensures Execute(LoadSteps(w)).effects <= LoadPlan(w)
      ensures Execute(LoadSteps(w)).err.None? ==> Execute(LoadSteps(w)).effects == LoadPlan(w)
      ensures w.createStage.None? && w.parse(storageWorkspacePath).Ok? && w.listing == Ok([]) ==>
        Execute(LoadSteps(w)) == Outcome(Some(NoSnapshotFiles), LoadPlan(w)[..2])
      ensures Listed(w) && Files(w) == [] ==>
        Execute(LoadSteps(w)) == Outcome(w.dropStage, LoadPlan(w)[..2] + [DropStage(StageName())])
      ensures w.createStage.Some? ==>
        Execute(LoadSteps(w)) == Outcome(Some(Annotate(StageFailed, w.createStage.value)), LoadPlan(w)[..1])
      ensures forall i: nat :: FailsAtLoad(w, i) ==>
        Execute(LoadSteps(w)) == Outcome(w.loadError(i), LoadPlan(w)[..3 + i])
      ensures Execute(LoadSteps(w)).err.None? <==> LoadSucceeds(w)
    {
      LoadOutcome(w);
      LoadPlanSplit(w);
      var plan := LoadPlan(w);
      var rest := LoadCalls(sourceTable, StageName(), Files(w)) + [DropStage(StageName())];
      FileStepsOutcome(sourceTable, StageName(), Files(w), w.loadError, w.dropStage);
      var f := Execute(FileSteps(sourceTable, StageName(), Files(w), w.loadError, w.dropStage));
      if Listed(w) {
        PrefixAfter(plan[..2], f.effects, rest);
        forall i: nat | FirstFailure(w.loadError, |Files(w)|, i)
          ensures plan[..2] + LoadCalls(sourceTable, StageName(), Files(w))[..i + 1] == plan[..3 + i]
        {
        }
      }
    }

    /** The stage and the listing, then the loads and the drop. */
    lemma LoadPlanSplit(w: RunEnv)
      ensures LoadPlan(w)[..2] ==
        [CreateStage(StageName(), storageWorkspacePath),
         ListObjects(w.parse(storageWorkspacePath).GetOr(Replication.NoUrl).host, WorkspacePrefix(w))]
      ensures LoadPlan(w) ==
        LoadPlan(w)[..2] + (LoadCalls(sourceTable, StageName(), Files(w)) + [DropStage(StageName())])
      ensures Files(w) == [] ==>
        LoadCalls(sourceTable, StageName(), Files(w)) + [DropStage(StageName())] == [DropStage(StageName())]
    {
    }

    /** The steps of `Run` up to the target table: the two pings, the
        dumper and the CREATE TABLE statement. */
    method Prepare(w: RunEnv) returns (err: Option<string>, effects: seq<Call>, createSql: string)
      modifies this`resolvedTso
      ensures effects <= Prelude(w, createSql)
      ensures err.None? ==> effects == Prelude(w, createSql)
      ensures w.snowflakePing.Some? ==>
        err == Some(Annotate(SnowflakePingFailed, w.snowflakePing.value)) && effects == [PingSnowflake]
      ensures w.snowflakePing.None? && w.tidbPing.Some? ==>
        err == Some(Annotate(TiDBPingFailed, w.tidbPing.value)) && effects == [PingSnowflake, PingTiDB]
      ensures resolvedTso ==
        if w.snowflakePing.None? && w.tidbPing.None? && w.dumperConfig.None? && w.newDumper.None? then w.snapshot
        else old(resolvedTso)
      ensures w.snowflakePing.None? && w.tidbPing.None? && w.dumperConfig.None? && w.newDumper.None?
              && w.snapshot == "" ==>
        err == Some(SnapshotUnavailable) && |effects| == 3
      ensures DumperReady(w) && SchemaOk(w) ==>
        SnowSql.IsCreateStatement(createSql, sourceTable, w.columns.value, w.indexes.value, w.parsesAsFloat)
      ensures DumperReady(w) ==>
        && err == (if SchemaOk(w) then w.createTable else SchemaError(w))
        && effects == Prelude(w, createSql)[..if SchemaOk(w) then 5 else 4]
      ensures err.None? <==> DumperReady(w) && SchemaOk(w) && w.createTable.None?
      ensures Outcome(err, effects) == Execute(PrepareSteps(w, createSql))
    {
      createSql := "";
      effects := [PingSnowflake];
      if w.snowflakePing.Some? {
        PrepareOutcome(w, createSql);
        return Some(Annotate(SnowflakePingFailed, w.snowflakePing.value)), effects, createSql;
      }
      effects := effects + [PingTiDB];
      if w.tidbPing.Some? {
        PrepareOutcome(w, createSql);
        return Some(Annotate(TiDBPingFailed, w.tidbPing.value)), effects, createSql;
      }
      var restErr, restEffects;
      restErr, restEffects, createSql := DumperAndTable(w);
      PrepareOutcome(w, createSql);
      assert Outcome(restErr, effects + restEffects) == Execute(PrepareSteps(w, createSql));
      PrepareStepsFollowPrelude(w, createSql);
      effects := effects + restEffects;
      err := restErr;
    }

    /** `buildDumper`, then `dumpPrepareTargetTable` when the dumper is
        ready; `createSql` is the CREATE TABLE statement executed, if any. */
    method DumperAndTable(w: RunEnv) returns (err: Option<string>, effects: seq<Call>, createSql: string)
      modifies this`resolvedTso
      ensures resolvedTso == if w.dumperConfig.None? && w.newDumper.None? then w.snapshot else old(resolvedTso)
      ensures w.dumperConfig.None? && w.newDumper.None? && w.snapshot != "" && w.setSnapshot.None? && SchemaOk(w) ==>
        SnowSql.IsCreateStatement(createSql, sourceTable, w.columns.value, w.indexes.value, w.parsesAsFloat)
      ensures Outcome(err, effects) == Then(Execute(DumperSteps(w)), Execute(TableSteps(w, createSql)))
    {
      createSql := "";
      var dumperErr, dumperEffects := BuildDumper(w);
      if dumperErr.Some? {
        return dumperErr, dumperEffects, createSql;
      }
      var prepareErr, prepareEffects := DumpPrepareTargetTable(w);
      if |prepareEffects| == 1 {
        createSql := prepareEffects[0].sql;
      }
      TableOutcome(w, createSql);
      assert SchemaOk(w) ==> prepareEffects == [CreateTable(createSql)];
      effects := dumperEffects + prepareEffects;
      err := prepareErr;
    }

    /** `Run`: ping Snowflake, ping TiDB, build the dumper, create the
        target table, dump, load; the first failing step ends the run. */
    method Run(w: RunEnv) returns (err: Option<string>, effects: seq<Call>)
      modifies this`resolvedTso
      ensures exists createSql ::
        && (DumperReady(w) && SchemaOk(w) ==>
              SnowSql.IsCreateStatement(createSql, sourceTable, w.columns.value, w.indexes.value, w.parsesAsFloat))
        && effects <= RunPlan(w, createSql)
        && (err.None? ==> effects == RunPlan(w, createSql))
        && Outcome(err, effects) == Execute(SessionSteps(w, createSql))
      ensures err.None? <==> DumperReady(w) && SchemaOk(w) && w.createTable.None? && w.dump.None? && LoadSucceeds(w)
      ensures DumperReady(w) && SchemaOk(w) && w.createTable.None? && w.dump.Some? ==>
        err == Some(Annotate(DumpFailed, w.dump.value))
      ensures forall i: nat :: DumperReady(w) && SchemaOk(w) && w.createTable.None? && w.dump.None? && FailsAtLoad(w, i) ==>
        err == Some(Annotate(LoadFailed, w.loadError(i).value))
        && DropStage(StageName()) !in effects
      ensures w.snowflakePing.Some? ==>
        err == Some(Annotate(SnowflakePingFailed, w.snowflakePing.value)) && effects == [PingSnowflake]
      ensures w.snowflakePing.None? && w.tidbPing.Some? ==>
        err == Some(Annotate(TiDBPingFailed, w.tidbPing.value)) && effects == [PingSnowflake, PingTiDB]
      ensures w.snowflakePing.None? && w.tidbPing.None? && w.dumperConfig.None? && w.newDumper.None? ==>
        resolvedTso == w.snapshot
      ensures w.snowflakePing.None? && w.tidbPing.None? && w.dumperConfig.None? && w.newDumper.None?
              && w.snapshot == "" ==>
        err == Some(SnapshotUnavailable) && |effects| == 3
    {
      var createSql;
      err, effects, createSql := Prepare(w);
      ExecuteAppend(PrepareSteps(w, createSql), TailSteps(w));
      SessionStepsOutcome(w, createSql);
      if err.Some? {
        return err, effects;
      }

      var tailErr, tailEffects := DumpAndLoad(w);
      effects := effects + tailEffects;
      err := tailErr;
    }

    /** The steps of `Run` after the target table: the dump, then the
        loads; a failing load ends the run and leaves the stage in place. */
    method DumpAndLoad(w: RunEnv) returns (err: Option<string>, effects: seq<Call>)
      ensures effects <= [Dump, CloseDumper] + LoadPlan(w)
      ensures err.None? ==> effects == [Dump, CloseDumper] + LoadPlan(w)
      ensures err.None? <==> w.dump.None? && LoadSucceeds(w)
      ensures w.dump.Some? ==>
        err == Some(Annotate(DumpFailed, w.dump.value)) && effects == [Dump, CloseDumper]
      ensures forall i: nat :: w.dump.None? && FailsAtLoad(w, i) ==>
        err == Some(Annotate(LoadFailed, w.loadError(i).value))
        && DropStage(StageName()) !in effects
      ensures Outcome(err, effects) == Execute(TailSteps(w))
    {
      TailOutcome(w);
      TailStepsFacts(w);
      effects := [Dump, CloseDumper];
      if w.dump.Some? {
        return Some(Annotate(DumpFailed, w.dump.value)), effects;
      }
      var loadErr, loadEffects := LoadSnapshotDataIntoSnowflake(w);
      effects := effects + loadEffects;
      if loadErr.Some? {
        return Some(Annotate(LoadFailed, loadErr.value)), effects;
      }
      err := None;
    }
  }

  /** `NewReplicateSession`: the session is allocated first and given up
      when a step fails. */
  method NewReplicateSession(id: string, tableFqn: string, snapshotConcurrency: int, s3StoragePath: string,
                             env: SessionEnv)
    returns (sess: ReplicateSession?, err: Option<string>)
    ensures err == SetupError(tableFqn, s3StoragePath, env)
    ensures sess == null <==> err.Some?
    ensures sess != null ==>
      fresh(sess) && sess.id == id && sess.tableFqn == tableFqn && sess.snapshotConcurrency == snapshotConcurrency
      && sess.storageWorkspacePath == WorkspacePath(s3StoragePath, id)
      && SplitFirst(tableFqn, '.') == Some((sess.sourceDatabase, sess.sourceTable))
      && sess.awsCredential == env.credentials.value
      && sess.resolvedS3Region == env.bucketRegion.name && sess.resolvedTso == ""
  {
    var s := new ReplicateSession(id, tableFqn, snapshotConcurrency);
    s.storageWorkspacePath := s3StoragePath + "/" + s.id;
    var parts := SplitFirst(tableFqn, '.');
    if parts.None? {
      return null, Some(Replication.FqnError);
    }
    s.sourceDatabase := parts.value.0;
    s.sourceTable := parts.value.1;

    if env.awsSession.Some? {
      return null, Some(Annotate("Failed to establish AWS session", env.awsSession.value));
    }
    if env.credentials.Err? {
      return null, Some(Annotate("Failed to resolve AWS credential", env.credentials.error));
    }
    s.awsCredential := env.credentials.value;

    var parsed := env.parse(s3StoragePath);
    if parsed.Err? {
      return null, Some(Annotate("Failed to parse --storage value", parsed.error));
    }
    if parsed.value.scheme != "s3" {
      return null, Some(StorageSchemeError);
    }
    var bucket := parsed.value.host;
    match env.bucketRegion
    case BucketNotFound =>
      return null, Some("unable to find bucket " + bucket + "'s region not found");
    case RegionError(cause) =>
      return null, Some(Annotate("Failed to resolve --storage region", cause));
    case Region(name) =>
      s.resolvedS3Region := name;

    if env.snowflakeDsn.Some? {
      return null, Some(Annotate("Failed to generate Snowflake DSN", env.snowflakeDsn.value));
    }
    if env.snowflakeOpen.Some? {
      return null, Some(Annotate("Failed to open Snowflake connection", env.snowflakeOpen.value));
    }
    if env.tidbOpen.Some? {
      return null, Some(Annotate("Failed to open TiDB connection", env.tidbOpen.value));
    }
    return s, None;
  }
}
