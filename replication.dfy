/** The `snowflake` command's `run` closure: from the two marker files in
    the storage (`increment/metadata`, `snapshot/loadinfo`), the run mode and
    the optional `--sink-uri`, decide whether to fetch a TSO, create a
    change feed, replicate the snapshot and replicate increments, and run
    those steps in order until the first failure.

    The storage, TiDB, the TiCDC server, Snowflake and the process
    environment are not modelled: what each call returns is a field of
    `World`, and the calls made are returned as a list of `Effect`s. */
module Replication {
  import opened Wrappers
  import opened Text
  import opened Urls
  import opened Steps

  // ---------------------------------------------------------------------
  // Run mode

  datatype RunMode = Full | SnapshotOnly | IncrementalOnly

  /** `RunModeIds`: the flag value of each mode. */
  function ModeId(m: RunMode): string {
    match m
    case Full => "full"
    case SnapshotOnly => "snapshot-only"
    case IncrementalOnly => "incremental-only"
  }

  /** The mode a value of the mode flag selects, if any. The flag value
      is registered case-insensitively (root.go:293), so a value selects
      the mode whose id it equals up to ASCII case. (The flag itself is
      registered under the name `full`: the second argument of
      `Flags().Var` is its name.) */
  function ParseMode(s: string): (m: Option<RunMode>)
    ensures m.Some? ==> ToUpper(ModeId(m.value)) == ToUpper(s)
    ensures m.None? ==> forall mode: RunMode :: ToUpper(ModeId(mode)) != ToUpper(s)
  {
    var key := ToUpper(s);
    if key == ToUpper("full") then Some(Full)
    else if key == ToUpper("snapshot-only") then Some(SnapshotOnly)
    else if key == ToUpper("incremental-only") then Some(IncrementalOnly)
    else None
  }

  lemma ParseModeOfId(m: RunMode)
    ensures ParseMode(ModeId(m)) == Some(m)
  {
  }

  /** Case does not matter: a value and its upper-cased form select the
      same mode. */
  lemma ParseModeIgnoresCase(s: string)
    ensures ParseMode(ToUpper(s)) == ParseMode(s)
  {
    ToUpperIdempotent(s);
  }

  // ---------------------------------------------------------------------
  // genSinkURI

  /** `credentials.Value` as resolved from the environment. */
  datatype AwsCreds = AwsCreds(accessKeyId: string, secretAccessKey: string, sessionToken: string)

  const GcsCredentialError := "Failed to resolve GCS credential"

  /** The scheme-specific query parameters of the change feed's sink URI,
      or the reason there are none. */
  function SchemeParams(scheme: string, aws: Result<AwsCreds>, gcsCredentials: Option<string>)
    : (r: Result<seq<(string, string)>>)
    ensures r.Ok? <==> (scheme == "s3" && aws.Ok?) || (scheme == "gcs" && gcsCredentials.Some?)
    ensures scheme == "s3" && r.Ok? ==>
      && |r.value| >= 2
      && r.value[0] == ("access-key", aws.value.accessKeyId)
      && r.value[1] == ("secret-access-key", aws.value.secretAccessKey)
      && ((exists i :: 0 <= i < |r.value| && r.value[i].0 == "session-token") <==> aws.value.sessionToken != "")
    ensures scheme == "gcs" && r.Ok? ==> r.value == [("credentials-file", gcsCredentials.value)]
    ensures scheme == "s3" && aws.Err? ==> r == Err(Annotate("Failed to resolve AWS credential", aws.error))
    ensures scheme == "gcs" && gcsCredentials.None? ==> r == Err(GcsCredentialError)
    ensures scheme != "s3" && scheme != "gcs" ==> r == Err("get sink uri failed, unsupported uri schema: " + scheme)
  {
    if scheme == "s3" then
      if aws.Err? then Err(Annotate("Failed to resolve AWS credential", aws.error))
      else
        var c := aws.value;
        var ps := [("access-key", c.accessKeyId), ("secret-access-key", c.secretAccessKey)]
           + (if c.sessionToken != "" then [("session-token", c.sessionToken)] else []);
        assert ps[0].0 != "session-token" && ps[1].0 != "session-token";
        assert c.sessionToken != "" ==> ps[2].0 == "session-token";
        Ok(ps)
    else if scheme == "gcs" then
      if gcsCredentials.None? then Err(GcsCredentialError)
      else Ok([("credentials-file", gcsCredentials.value)])
    else Err("get sink uri failed, unsupported uri schema: " + scheme)
  }

  /** The parameters added for every scheme. */
  function CommonParams(flushInterval: string, fileSize: int): seq<(string, string)> {
    [("flush-interval", flushInterval), ("file-size", IntToString(fileSize)), ("protocol", "csv")]
  }

  /** The sink URI: the storage URL with the common and the scheme-specific
      parameters added to its query. */
  function SinkUri(base: Url, flushInterval: string, fileSize: int, aws: Result<AwsCreds>, gcsCredentials: Option<string>)
    : (r: Result<Url>)
    ensures r.Ok? <==> (base.scheme == "s3" && aws.Ok?) || (base.scheme == "gcs" && gcsCredentials.Some?)
    ensures r.Ok? ==> r.value.scheme == base.scheme && r.value.host == base.host && r.value.path == base.path
    ensures r.Ok? ==> |r.value.query| == |base.query| + 3 + |SchemeParams(base.scheme, aws, gcsCredentials).value|
    ensures r.Ok? ==> r.value.query[..|base.query|] == base.query
    ensures r.Ok? ==>
      && ("flush-interval", flushInterval) in r.value.query
      && ("file-size", IntToString(fileSize)) in r.value.query
      && ("protocol", "csv") in r.value.query
    ensures r.Ok? ==> r.value.query[|base.query| + 3..] == SchemeParams(base.scheme, aws, gcsCredentials).value
    ensures r.Err? ==> r.error == SchemeParams(base.scheme, aws, gcsCredentials).error
  {
    var params :- SchemeParams(base.scheme, aws, gcsCredentials);
    Ok(base.(query := base.query + CommonParams(flushInterval, fileSize) + params))
  }

  /** `genSinkURI`: the parameters added to `values` one call at a time. */
  method GenSinkUri(base: Url, flushInterval: string, fileSize: int, aws: Result<AwsCreds>, gcsCredentials: Option<string>)
    returns (r: Result<Url>)
    ensures r == SinkUri(base, flushInterval, fileSize, aws, gcsCredentials)
  {
    var values := base.query;
    values := values + [("flush-interval", flushInterval)];
    values := values + [("file-size", IntToString(fileSize))];
    values := values + [("protocol", "csv")];
    assert values == base.query + CommonParams(flushInterval, fileSize);
    ghost var common := values;
    if base.scheme == "s3" {
      if aws.Err? {
        return Err(Annotate("Failed to resolve AWS credential", aws.error));
      }
      var credValue := aws.value;
      values := values + [("access-key", credValue.accessKeyId)];
      values := values + [("secret-access-key", credValue.secretAccessKey)];
      if credValue.sessionToken != "" {
        values := values + [("session-token", credValue.sessionToken)];
      }
    } else if base.scheme == "gcs" {
      if gcsCredentials.None? {
        return Err(GcsCredentialError);
      }
      values := values + [("credentials-file", gcsCredentials.value)];
    } else {
      return Err("get sink uri failed, unsupported uri schema: " + base.scheme);
    }
    assert values == common + SchemeParams(base.scheme, aws, gcsCredentials).value;
    r := Ok(base.(query := values));
  }

  // ---------------------------------------------------------------------
  // createChangefeed

  /** The parts of `cdcv2.ChangefeedConfig` the command sets. */
  datatype ChangefeedConfig = ChangefeedConfig(
    sinkUri: Url,
    filterRules: seq<string>,
    includeCommitTs: bool,
    csvDelimiter: string,
    outputColumnId: bool,
    enableOldValue: bool,
    startTs: nat)

  /** What the TiCDC server answers: a transport error or a status code,
      and whether reading or decoding the body of a 200 answer fails. */
  datatype CdcOutcome = CdcOutcome(post: Result<int>, bodyError: Option<string>)

  const ChangefeedPath := "api/v2/changefeeds"

  /** `createChangefeed`: the request sent (endpoint and configuration), if
      any, and the error. */
  method CreateChangefeed(server: Result<Url>, sinkUri: Url, tableFqn: string, startTso: nat, outcome: CdcOutcome)
    returns (err: Option<string>, request: Option<(Url, ChangefeedConfig)>)
    ensures request.Some? <==> server.Ok?
    ensures request.Some? ==> request.value.0 == JoinPath(server.value, ChangefeedPath)
    ensures request.Some? ==> request.value.1 == ChangefeedConfig(sinkUri, [tableFqn], true, ",", true, false, startTso)
    ensures err.None? <==> server.Ok? && outcome.post == Ok(200) && outcome.bodyError.None?
    ensures server.Ok? && outcome.post.Ok? && outcome.post.value != 200 ==>
      err == Some("create changefeed failed, status code: " + IntToString(outcome.post.value))
    ensures server.Err? ==> err == Some(Annotate("join url failed", server.error))
    ensures server.Ok? ==> err == CdcError(outcome)
  {
    var cfCfg := ChangefeedConfig(sinkUri, [tableFqn], true, ",", true, false, 0);
    if startTso != 0 {
      cfCfg := cfCfg.(startTs := startTso);
    }
    if server.Err? {
      return Some(Annotate("join url failed", server.error)), None;
    }
    var url := JoinPath(server.value, ChangefeedPath);
    request := Some((url, cfCfg));
    if outcome.post.Err? {
      return Some(outcome.post.error), request;
    }
    if outcome.post.value != 200 {
      return Some("create changefeed failed, status code: " + IntToString(outcome.post.value)), request;
    }
    if outcome.bodyError.Some? {
      return Some(outcome.bodyError.value), request;
    }
    err := None;
  }

  // ---------------------------------------------------------------------
  // The phase decision

  /** Which steps a run takes, given the mode, `--sink-uri` and the two
      markers. */
  datatype Phases = Phases(
    fetchTso: bool,
    sinkFromStorage: bool,
    createChangefeed: bool,
    sinkFromFlag: bool,
    snapshot: bool,
    increment: bool)

  function Decide(mode: RunMode, sinkUriFlag: string, loadinfoExist: bool, metadataExist: bool): Phases {
    var fromStorage := mode == Full || (mode == IncrementalOnly && sinkUriFlag == "");
    Phases(
      !loadinfoExist,
      fromStorage,
      fromStorage && (!loadinfoExist || !metadataExist),
      !fromStorage && mode == IncrementalOnly && sinkUriFlag != "",
      (mode == Full || mode == SnapshotOnly) && !loadinfoExist,
      mode == Full || mode == IncrementalOnly)
  }

  /** Restart safety: once the snapshot is loaded and the change feed has
      written its metadata, a rerun neither fetches a TSO nor creates a
      change feed nor replicates the snapshot again. */
  lemma RerunAfterSetupOnlyReplicatesIncrements(mode: RunMode, sinkUriFlag: string)
    ensures
      var p := Decide(mode, sinkUriFlag, true, true);
      !p.fetchTso && !p.createChangefeed && !p.snapshot && (p.increment <==> mode != SnapshotOnly)
  {
  }

  /** The snapshot is only replicated in a run that fetched a TSO. */
  lemma SnapshotHasTso(mode: RunMode, sinkUriFlag: string, loadinfoExist: bool, metadataExist: bool)
    ensures Decide(mode, sinkUriFlag, loadinfoExist, metadataExist).snapshot ==>
      Decide(mode, sinkUriFlag, loadinfoExist, metadataExist).fetchTso
  {
  }

  /** The incremental phase always has a sink URI, from exactly one of the
      storage path and `--sink-uri`. */
  lemma IncrementHasOneSink(mode: RunMode, sinkUriFlag: string, loadinfoExist: bool, metadataExist: bool)
    ensures
      var p := Decide(mode, sinkUriFlag, loadinfoExist, metadataExist);
      p.increment <==> (p.sinkFromStorage || p.sinkFromFlag)
    ensures
      var p := Decide(mode, sinkUriFlag, loadinfoExist, metadataExist);
      !(p.sinkFromStorage && p.sinkFromFlag)
  {
  }

  /** A given `--sink-uri` is used as it is: no change feed is created. */
  lemma GivenSinkCreatesNoChangefeed(sinkUriFlag: string, loadinfoExist: bool, metadataExist: bool)
    requires sinkUriFlag != ""
    ensures !Decide(IncrementalOnly, sinkUriFlag, loadinfoExist, metadataExist).createChangefeed
    ensures Decide(IncrementalOnly, sinkUriFlag, loadinfoExist, metadataExist).sinkFromFlag
  {
  }

  /** Snapshot-only runs touch neither TiCDC nor the incremental phase. */
  lemma SnapshotOnlyLeavesCdcAlone(sinkUriFlag: string, loadinfoExist: bool, metadataExist: bool)
    ensures
      var p := Decide(SnapshotOnly, sinkUriFlag, loadinfoExist, metadataExist);
      !p.sinkFromStorage && !p.createChangefeed && !p.sinkFromFlag && !p.increment
      && (p.snapshot <==> !loadinfoExist)
  {
  }

  // ---------------------------------------------------------------------
  // The run

  /** The command-line settings `run` reads. `flushInterval` is a
      `time.Duration` in nanoseconds. */
  datatype Config = Config(
    mode: RunMode,
    tableFqn: string,
    storagePath: string,
    sinkUriFlag: string,
    cdcHost: string,
    cdcPort: int,
    flushInterval: int,
    fileSize: int,
    snapshotConcurrency: int,
    timezone: string)

  /** What every external call returns. `parse` is `url.Parse`,
      `formatDuration` is `time.Duration.String`; an `Option<string>` is
      the error of a call that returns nothing else. */
  datatype World = World(
    parse: string -> Result<Url>,
    formatDuration: int -> string,
    openStorage: Option<string>,
    metadataExist: Result<bool>,
    loadinfoExist: Result<bool>,
    currentTso: Result<nat>,
    aws: Result<AwsCreds>,
    gcsCredentials: Option<string>,
    changefeed: CdcOutcome,
    snapshotDb: Option<string>,
    snapshotConnector: Option<string>,
    snapshotReplication: Option<string>,
    incrementDb: Option<string>,
    incrementConnector: Option<string>,
    incrementReplication: Option<string>)

  /** The calls that act on other systems, in the order made. */
  datatype Effect =
    | FetchTso
    | PostChangefeed(endpoint: Url, config: ChangefeedConfig)
    | OpenDb
    | NewConnector(stageName: string, uri: Url)
    | ReplicateSnapshot(database: string, table: string, concurrency: int, uri: Url, startTs: string)
    | ReplicateIncrement(uri: Url, checkInterval: int, timezone: string)

  const FqnError := "table must be a full-qualified name like mydb.mytable"

  const NoUrl := Url("", "", "", [])

  /** Go's integer division of a duration, truncating toward zero. */
  function DivTowardZero(a: int, b: nat): int
    requires b > 0
  {
    if a >= 0 then a / b else -((-a) / b)
  }

  /** Database and table of a table name, or the empty pair when none is
      given. */
  function SourceNames(tableFqn: string): (string, string) {
    match SplitFirst(tableFqn, '.')
    case Some(parts) => parts
    case None => ("", "")
  }

  function CdcServer(cfg: Config): string {
    "http://" + cfg.cdcHost + ":" + IntToString(cfg.cdcPort)
  }

  /** The TSO the run works from: the current one when fetched, else 0. */
  function StartTso(w: World, p: Phases): nat {
    if p.fetchTso then w.currentTso.GetOr(0) else 0
  }

  /** The sink URI of the incremental phase (`NoUrl` stands for nil). */
  function SinkUrl(cfg: Config, w: World, p: Phases): Url {
    if p.sinkFromStorage then
      SinkUri(JoinPath(w.parse(cfg.storagePath).GetOr(NoUrl), "increment"),
              w.formatDuration(cfg.flushInterval), cfg.fileSize, w.aws, w.gcsCredentials).GetOr(NoUrl)
    else if p.sinkFromFlag then w.parse(cfg.sinkUriFlag).GetOr(NoUrl)
    else NoUrl
  }

  /** The request that creates the change feed. */
  function ChangefeedRequest(cfg: Config, w: World, p: Phases): Effect {
    PostChangefeed(JoinPath(w.parse(CdcServer(cfg)).GetOr(NoUrl), ChangefeedPath),
                   ChangefeedConfig(SinkUrl(cfg, w, p), [cfg.tableFqn], true, ",", true, false, StartTso(w, p)))
  }

  function ChangefeedEffects(cfg: Config, w: World, p: Phases): seq<Effect> {
    if p.createChangefeed then [ChangefeedRequest(cfg, w, p)] else []
  }

  /** The calls of the snapshot phase. */
  function SnapshotCalls(db: string, table: string, concurrency: int, uri: Url, startTso: nat): seq<Effect> {
    [OpenDb, NewConnector("snapshot_stage_" + table, uri), ReplicateSnapshot(db, table, concurrency, uri, IntToString(startTso))]
  }

  function SnapshotEffects(cfg: Config, w: World, p: Phases): seq<Effect> {
    if p.snapshot then
      var (db, table) := SourceNames(cfg.tableFqn);
      SnapshotCalls(db, table, cfg.snapshotConcurrency, JoinPath(w.parse(cfg.storagePath).GetOr(NoUrl), "snapshot"),
                    StartTso(w, p))
    else []
  }

  /** The calls of the incremental phase. */
  function IncrementCalls(table: string, sink: Url, checkInterval: int, timezone: string): seq<Effect> {
    [OpenDb, NewConnector("increment_stage_" + table, sink), ReplicateIncrement(sink, checkInterval, timezone)]
  }

  function IncrementEffects(cfg: Config, w: World, p: Phases): seq<Effect> {
    if p.increment then
      IncrementCalls(SourceNames(cfg.tableFqn).1, SinkUrl(cfg, w, p), DivTowardZero(cfg.flushInterval, 5), cfg.timezone)
    else []
  }

  /** Every call a run makes when none fails, in order. */
  function PlannedEffects(cfg: Config, w: World, loadinfoExist: bool, metadataExist: bool): seq<Effect> {
    var p := Decide(cfg.mode, cfg.sinkUriFlag, loadinfoExist, metadataExist);
    (if p.fetchTso then [FetchTso] else [])
    + ChangefeedEffects(cfg, w, p) + SnapshotEffects(cfg, w, p) + IncrementEffects(cfg, w, p)
  }

  /** A change feed created in the same run as the snapshot starts at the
      snapshot's TSO; one created after the snapshot was loaded starts at
      0, which TiCDC takes as the current time. */
  lemma ChangefeedStartsAtSnapshotTso(cfg: Config, w: World, loadinfoExist: bool, metadataExist: bool)
    requires w.currentTso.Ok?
    ensures
      var p := Decide(cfg.mode, cfg.sinkUriFlag, loadinfoExist, metadataExist);
      p.createChangefeed ==>
        ChangefeedEffects(cfg, w, p)[0].config.startTs == (if loadinfoExist then 0 else w.currentTso.value)
    ensures
      var p := Decide(cfg.mode, cfg.sinkUriFlag, loadinfoExist, metadataExist);
      p.createChangefeed && p.snapshot ==>
        SnapshotEffects(cfg, w, p)[2].startTs == IntToString(ChangefeedEffects(cfg, w, p)[0].config.startTs)
  {
  }

  predicate ProbesOk(w: World) {
    w.openStorage.None? && w.metadataExist.Ok? && w.loadinfoExist.Ok?
  }

  // ---------------------------------------------------------------------
  // The run as a list of steps

  /** Step 0 of `run`: open the storage and look for the two markers. */
  function ProbeSteps(w: World): seq<Step<Effect>> {
    [Check(w.openStorage), Check(ErrorOf(w.metadataExist)), Check(ErrorOf(w.loadinfoExist))]
  }

  /** Step 1: fetch the current TSO unless the snapshot is loaded. */
  function TsoSteps(w: World, p: Phases): seq<Step<Effect>> {
    if p.fetchTso then [Step(Some(FetchTso), AnnotateError("Failed to get current TSO", ErrorOf(w.currentTso)))]
    else []
  }

  /** `createChangefeed`'s error for the server's answer to the request. */
  function CdcError(outcome: CdcOutcome): (e: Option<string>)
    ensures e.None? <==> outcome.post == Ok(200) && outcome.bodyError.None?
  {
    if outcome.post.Err? then Some(outcome.post.error)
    else if outcome.post.value != 200 then
      Some("create changefeed failed, status code: " + IntToString(outcome.post.value))
    else outcome.bodyError
  }

  /** The sink URI generated from the storage path. */
  function GeneratedSink(cfg: Config, w: World): Result<Url> {
    SinkUri(JoinPath(w.parse(cfg.storagePath).GetOr(NoUrl), "increment"),
            w.formatDuration(cfg.flushInterval), cfg.fileSize, w.aws, w.gcsCredentials)
  }

  /** Step 2: the sink URI and, when due, the change feed. */
  function ChangefeedSteps(cfg: Config, w: World, p: Phases): seq<Step<Effect>> {
    if p.sinkFromStorage then
      [Check(ErrorOf(w.parse(cfg.storagePath))), Check(ErrorOf(GeneratedSink(cfg, w)))]
      + (if p.createChangefeed then
           [Check(AnnotateError("Failed to create changefeed",
                                AnnotateError("join url failed", ErrorOf(w.parse(CdcServer(cfg)))))),
            Step(Some(ChangefeedRequest(cfg, w, p)), AnnotateError("Failed to create changefeed", CdcError(w.changefeed)))]
         else [])
    else if p.sinkFromFlag then [Check(ErrorOf(w.parse(cfg.sinkUriFlag)))]
    else []
  }

  function SnapshotErrors(w: World): seq<Option<string>> {
    [w.snapshotDb, w.snapshotConnector, AnnotateError("Failed to replicate snapshot", w.snapshotReplication)]
  }

  function IncrementErrors(w: World): seq<Option<string>> {
    [w.incrementDb, w.incrementConnector, AnnotateError("Failed to replicate incremental", w.incrementReplication)]
  }

  /** The table name check of `run`. */
  function FqnCheck(tableFqn: string): Option<string> {
    if tableFqn != "" && '.' !in tableFqn then Some(FqnError) else None
  }

  /** Steps 3 and 4: the table name, the snapshot and the increments. */
  function DataSteps(cfg: Config, w: World, p: Phases): seq<Step<Effect>> {
    [Check(FqnCheck(cfg.tableFqn))]
    + (if p.snapshot then
         [Check(ErrorOf(w.parse(cfg.storagePath)))] + CallSteps(SnapshotEffects(cfg, w, p), SnapshotErrors(w))
       else [])
    + (if p.increment then CallSteps(IncrementEffects(cfg, w, p), IncrementErrors(w)) else [])
  }

  /** Every step of `run`, in order. */
  function RunSteps(cfg: Config, w: World): seq<Step<Effect>> {
    ProbeSteps(w)
    + if ProbesOk(w) then
        var p := Decide(cfg.mode, cfg.sinkUriFlag, w.loadinfoExist.value, w.metadataExist.value);
        TsoSteps(w, p) + ChangefeedSteps(cfg, w, p) + DataSteps(cfg, w, p)
      else []
  }

  /** The storage scheme is one a sink URI can be made for, and its
      credentials resolve. */
  predicate HasCredentials(scheme: string, w: World) {
    (scheme == "s3" && w.aws.Ok?) || (scheme == "gcs" && w.gcsCredentials.Some?)
  }

  /** When step 2 succeeds: the storage path parses, its scheme has its
      credentials, and a due change feed is accepted; or `--sink-uri`
      parses. */
  predicate ChangefeedSucceeds(cfg: Config, w: World, p: Phases) {
    && (p.sinkFromStorage ==>
          && w.parse(cfg.storagePath).Ok?
          && HasCredentials(w.parse(cfg.storagePath).value.scheme, w)
          && (p.createChangefeed ==>
                w.parse(CdcServer(cfg)).Ok? && w.changefeed.post == Ok(200) && w.changefeed.bodyError.None?))
    && (p.sinkFromFlag ==> w.parse(cfg.sinkUriFlag).Ok?)
  }

  /** When steps 3 and 4 succeed: the table name is empty or qualified, and
      every call of the phases taken succeeds. */
  predicate DataSucceeds(cfg: Config, w: World, p: Phases) {
    && (cfg.tableFqn == "" || '.' in cfg.tableFqn)
    && (p.snapshot ==>
          w.parse(cfg.storagePath).Ok? && w.snapshotDb.None? && w.snapshotConnector.None? && w.snapshotReplication.None?)
    && (p.increment ==> w.incrementDb.None? && w.incrementConnector.None? && w.incrementReplication.None?)
  }

  /** When `run` succeeds. */
  predicate RunSucceeds(cfg: Config, w: World) {
    && ProbesOk(w)
    && var p := Decide(cfg.mode, cfg.sinkUriFlag, w.loadinfoExist.value, w.metadataExist.value);
       (p.fetchTso ==> w.currentTso.Ok?) && ChangefeedSucceeds(cfg, w, p) && DataSucceeds(cfg, w, p)
  }

  /** The steps make the planned calls: those of the TSO, the change feed,
      the snapshot and the increments, in that order. */
  lemma RunStepsMakePlannedCalls(cfg: Config, w: World)
    requires ProbesOk(w)
    ensures Calls(RunSteps(cfg, w)) == PlannedEffects(cfg, w, w.loadinfoExist.value, w.metadataExist.value)
  {
    var p := Decide(cfg.mode, cfg.sinkUriFlag, w.loadinfoExist.value, w.metadataExist.value);
    var probes, tso, cf, data := ProbeSteps(w), TsoSteps(w, p), ChangefeedSteps(cfg, w, p), DataSteps(cfg, w, p);
    assert RunSteps(cfg, w) == probes + (tso + cf + data);
    CallsAppend(probes, tso + cf + data);
    ProbeCalls(w);
    EmptyHead(Calls(probes), Calls(tso + cf + data));
    CallsAppend(tso + cf, data);
    CallsAppend(tso, cf);
    TsoCalls(w, p);
    ChangefeedCalls(cfg, w, p);
    DataCalls(cfg, w, p);
    var tsoPart := if p.fetchTso then [FetchTso] else [];
    AppendAssociative(tsoPart + ChangefeedEffects(cfg, w, p), SnapshotEffects(cfg, w, p), IncrementEffects(cfg, w, p));
  }

  lemma ProbeCalls(w: World)
    ensures Calls(ProbeSteps(w)) == []
  {
    var s := ProbeSteps(w);
    assert s == [s[0]] + ([s[1]] + [s[2]]);
    CallsAppend([s[0]], [s[1]] + [s[2]]);
    CallsAppend([s[1]], [s[2]]);
    ExecuteOne(s[0]);
    ExecuteOne(s[1]);
    ExecuteOne(s[2]);
  }

  lemma TsoCalls(w: World, p: Phases)
    ensures Calls(TsoSteps(w, p)) == if p.fetchTso then [FetchTso] else []
  {
    if p.fetchTso {
      ExecuteOne(TsoSteps(w, p)[0]);
      assert TsoSteps(w, p) == [TsoSteps(w, p)[0]];
    }
  }

  lemma ChangefeedCalls(cfg: Config, w: World, p: Phases)
    requires p.createChangefeed ==> p.sinkFromStorage
    ensures Calls(ChangefeedSteps(cfg, w, p)) == ChangefeedEffects(cfg, w, p)
  {
    if p.sinkFromStorage {
      var head := [Check(ErrorOf(w.parse(cfg.storagePath))), Check(ErrorOf(GeneratedSink(cfg, w)))];
      assert head[1..] == [head[1]];
      ExecuteOne(head[1]);
      var tail := ChangefeedSteps(cfg, w, p)[2..];
      assert ChangefeedSteps(cfg, w, p) == head + tail;
      CallsAppend(head, tail);
      if p.createChangefeed {
        assert tail[1..] == [tail[1]];
        ExecuteOne(tail[1]);
      }
    } else if p.sinkFromFlag {
      var check := Check<Effect>(ErrorOf(w.parse(cfg.sinkUriFlag)));
      assert ChangefeedSteps(cfg, w, p) == [check];
      ExecuteOne(check);
    }
  }

  lemma DataCalls(cfg: Config, w: World, p: Phases)
    ensures Calls(DataSteps(cfg, w, p)) == SnapshotEffects(cfg, w, p) + IncrementEffects(cfg, w, p)
  {
    var fqn: seq<Step<Effect>> := [Check(FqnCheck(cfg.tableFqn))];
    var snap: seq<Step<Effect>> :=
      if p.snapshot then [Check(ErrorOf(w.parse(cfg.storagePath)))] + CallSteps(SnapshotEffects(cfg, w, p), SnapshotErrors(w))
      else [];
    var inc: seq<Step<Effect>> := if p.increment then CallSteps(IncrementEffects(cfg, w, p), IncrementErrors(w)) else [];
    assert DataSteps(cfg, w, p) == fqn + snap + inc;
    CallsAppend(fqn + snap, inc);
    CallsAppend(fqn, snap);
    ExecuteOne(fqn[0]);
    EmptyHead(Calls(fqn), Calls(snap));
    if p.snapshot {
      CallsAppend([Check(ErrorOf(w.parse(cfg.storagePath)))], CallSteps(SnapshotEffects(cfg, w, p), SnapshotErrors(w)));
      ExecuteOne(Check<Effect>(ErrorOf(w.parse(cfg.storagePath))));
      CallsOfCallSteps(SnapshotEffects(cfg, w, p), SnapshotErrors(w));
      EmptyHead([], SnapshotEffects(cfg, w, p));
    }
    if p.increment {
      CallsOfCallSteps(IncrementEffects(cfg, w, p), IncrementErrors(w));
    }
  }

  /** The probes end the run with the first of their errors. */
  lemma ProbeOutcome(w: World)
    ensures Execute(ProbeSteps(w)) ==
      if w.openStorage.Some? then Outcome(w.openStorage, [])
      else if w.metadataExist.Err? then Outcome(Some(w.metadataExist.error), [])
      else if w.loadinfoExist.Err? then Outcome(Some(w.loadinfoExist.error), [])
      else Outcome(None, [])
  {
    var s := ProbeSteps(w);
    assert s == [s[0]] + [s[1], s[2]];
    ExecuteAppend([s[0]], [s[1], s[2]]);
    ExecuteOne(s[0]);
    ExecuteTwo(s[1], s[2]);
  }

  /** Step 2 of `run`: the sink URI, from the storage path or from
      `--sink-uri`, and the change feed when one is due. */
  method ChangefeedPhase(cfg: Config, w: World, loadinfoExist: bool, metadataExist: bool, startTso: nat)
    returns (err: Option<string>, effects: seq<Effect>, sinkUri: Option<Url>)
    requires startTso == StartTso(w, Decide(cfg.mode, cfg.sinkUriFlag, loadinfoExist, metadataExist))
    ensures effects <= ChangefeedEffects(cfg, w, Decide(cfg.mode, cfg.sinkUriFlag, loadinfoExist, metadataExist))
    ensures forall e :: e in effects ==> e.PostChangefeed?
    ensures err.None? ==>
      var p := Decide(cfg.mode, cfg.sinkUriFlag, loadinfoExist, metadataExist);
      effects == ChangefeedEffects(cfg, w, p) && (p.increment ==> sinkUri == Some(SinkUrl(cfg, w, p)))
    ensures err.None? <==> ChangefeedSucceeds(cfg, w, Decide(cfg.mode, cfg.sinkUriFlag, loadinfoExist, metadataExist))
    ensures Outcome(err, effects) == Execute(ChangefeedSteps(cfg, w, Decide(cfg.mode, cfg.sinkUriFlag, loadinfoExist, metadataExist)))
  {
    ghost var p := Decide(cfg.mode, cfg.sinkUriFlag, loadinfoExist, metadataExist);
    ghost var steps := ChangefeedSteps(cfg, w, p);
    if cfg.mode == Full || (cfg.mode == IncrementalOnly && cfg.sinkUriFlag == "") {
      err, effects, sinkUri := StorageSink(cfg, w, loadinfoExist, metadataExist, startTso);
    } else {
      effects, sinkUri, err := [], None, None;
      if cfg.mode == IncrementalOnly && cfg.sinkUriFlag != "" {
        assert steps == [steps[0]];
        ExecuteOne(steps[0]);
        var uri := w.parse(cfg.sinkUriFlag);
        if uri.Err? {
          err := Some(uri.error);
        } else {
          sinkUri := Some(uri.value);
        }
      }
    }
    ChangefeedOutcomeIsPlanned(cfg, w, p);
  }

  /** What step 2 does is a prefix of its planned calls, all of them when
      it succeeds; those calls are change feed requests. */
  lemma ChangefeedOutcomeIsPlanned(cfg: Config, w: World, p: Phases)
    requires p.createChangefeed ==> p.sinkFromStorage
    ensures var o := Execute(ChangefeedSteps(cfg, w, p));
      && o.effects <= ChangefeedEffects(cfg, w, p)
      && (o.err.None? ==> o.effects == ChangefeedEffects(cfg, w, p))
      && forall e :: e in o.effects ==> e.PostChangefeed?
  {
    var steps := ChangefeedSteps(cfg, w, p);
    ExecutePrefix(steps);
    ExecuteSucceeds(steps);
    ChangefeedCalls(cfg, w, p);
    var o := Execute(steps);
    forall e: Effect | e in o.effects
      ensures e.PostChangefeed?
    {
      var k :| 0 <= k < |o.effects| && o.effects[k] == e;
      assert e == ChangefeedEffects(cfg, w, p)[k];
    }
  }

  /** Step 2 when the sink URI is generated from the storage path. */
  method StorageSink(cfg: Config, w: World, loadinfoExist: bool, metadataExist: bool, startTso: nat)
    returns (err: Option<string>, effects: seq<Effect>, sinkUri: Option<Url>)
    requires Decide(cfg.mode, cfg.sinkUriFlag, loadinfoExist, metadataExist).sinkFromStorage
    requires startTso == StartTso(w, Decide(cfg.mode, cfg.sinkUriFlag, loadinfoExist, metadataExist))
    ensures err.None? ==> sinkUri == Some(SinkUrl(cfg, w, Decide(cfg.mode, cfg.sinkUriFlag, loadinfoExist, metadataExist)))
    ensures err.None? <==> ChangefeedSucceeds(cfg, w, Decide(cfg.mode, cfg.sinkUriFlag, loadinfoExist, metadataExist))
    ensures Outcome(err, effects) == Execute(ChangefeedSteps(cfg, w, Decide(cfg.mode, cfg.sinkUriFlag, loadinfoExist, metadataExist)))
  {
    var p := Decide(cfg.mode, cfg.sinkUriFlag, loadinfoExist, metadataExist);
    StorageSinkSteps(cfg, w, p);
    effects, sinkUri := [], None;
    var storage := w.parse(cfg.storagePath);
    if storage.Err? {
      return Some(storage.error), effects, sinkUri;
    }
    var increStoragePath := JoinPath(storage.value, "increment");
    var sink := GenSinkUri(increStoragePath, w.formatDuration(cfg.flushInterval), cfg.fileSize, w.aws, w.gcsCredentials);
    if sink.Err? {
      return Some(sink.error), effects, sinkUri;
    }
    sinkUri := Some(sink.value);
    if !loadinfoExist || !metadataExist {
      err, effects := RequestChangefeed(cfg, w, p, sink.value, startTso);
    } else {
      err := None;
    }
  }

  /** The outcome of step 2 with a generated sink URI, and when it
      succeeds. */
  lemma StorageSinkSteps(cfg: Config, w: World, p: Phases)
    requires p.sinkFromStorage && !p.sinkFromFlag
    ensures Execute(ChangefeedSteps(cfg, w, p)) ==
      if w.parse(cfg.storagePath).Err? then Outcome(Some(w.parse(cfg.storagePath).error), [])
      else if GeneratedSink(cfg, w).Err? then Outcome(Some(GeneratedSink(cfg, w).error), [])
      else if p.createChangefeed then Execute(ChangefeedSteps(cfg, w, p)[2..])
      else Outcome(None, [])
    ensures ChangefeedSucceeds(cfg, w, p) <==>
      && w.parse(cfg.storagePath).Ok? && GeneratedSink(cfg, w).Ok?
      && (p.createChangefeed ==>
            w.parse(CdcServer(cfg)).Ok? && w.changefeed.post == Ok(200) && w.changefeed.bodyError.None?)
  {
    var steps := ChangefeedSteps(cfg, w, p);
    var head := [Check(ErrorOf(w.parse(cfg.storagePath))), Check(ErrorOf(GeneratedSink(cfg, w)))];
    var tail := steps[2..];
    assert steps == head + tail;
    ExecuteAppend(head, tail);
    ExecuteTwo(head[0], head[1]);
    if !p.createChangefeed {
      assert tail == [];
    }
    if w.parse(cfg.storagePath).Ok? {
      var base := JoinPath(w.parse(cfg.storagePath).value, "increment");
      assert base.scheme == w.parse(cfg.storagePath).value.scheme;
    }
  }

  /** The change feed request of step 2, for the generated sink URI. */
  method RequestChangefeed(cfg: Config, w: World, p: Phases, sink: Url, startTso: nat)
    returns (err: Option<string>, effects: seq<Effect>)
    requires p.sinkFromStorage && p.createChangefeed
    requires sink == SinkUrl(cfg, w, p) && startTso == StartTso(w, p)
    ensures err.None? <==> w.parse(CdcServer(cfg)).Ok? && w.changefeed.post == Ok(200) && w.changefeed.bodyError.None?
    ensures Outcome(err, effects) == Execute(ChangefeedSteps(cfg, w, p)[2..])
  {
    ghost var tail := ChangefeedSteps(cfg, w, p)[2..];
    assert tail == [tail[0], tail[1]];
    ExecuteTwo(tail[0], tail[1]);
    var cfErr, request := CreateChangefeed(w.parse(CdcServer(cfg)), sink, cfg.tableFqn, startTso, w.changefeed);
    effects := [];
    if request.Some? {
      effects := [PostChangefeed(request.value.0, request.value.1)];
    }
    err := None;
    if cfErr.Some? {
      err := Some(Annotate("Failed to create changefeed", cfErr.value));
    }
  }

  /** Step 3 of `run`: open Snowflake, create the connector (and its
      stage), replicate the snapshot. */
  method SnapshotPhase(w: World, db: string, table: string, concurrency: int, uri: Url, startTso: nat)
    returns (err: Option<string>, effects: seq<Effect>)
    ensures effects <= SnapshotCalls(db, table, concurrency, uri, startTso)
    ensures err.None? ==> effects == SnapshotCalls(db, table, concurrency, uri, startTso)
    ensures err.None? <==> w.snapshotDb.None? && w.snapshotConnector.None? && w.snapshotReplication.None?
    ensures Outcome(err, effects) == Execute(CallSteps(SnapshotCalls(db, table, concurrency, uri, startTso), SnapshotErrors(w)))
  {
    ExecuteThreeCalls(SnapshotCalls(db, table, concurrency, uri, startTso), SnapshotErrors(w));
    effects := [OpenDb];
    if w.snapshotDb.Some? {
      return Some(w.snapshotDb.value), effects;
    }
    effects := effects + [NewConnector("snapshot_stage_" + table, uri)];
    if w.snapshotConnector.Some? {
      return Some(w.snapshotConnector.value), effects;
    }
    effects := effects + [ReplicateSnapshot(db, table, concurrency, uri, IntToString(startTso))];
    if w.snapshotReplication.Some? {
      return Some(Annotate("Failed to replicate snapshot", w.snapshotReplication.value)), effects;
    }
    err := None;
  }

  /** Step 4 of `run`: open Snowflake, create the connector, replicate the
      increments. */
  method IncrementPhase(w: World, table: string, sink: Url, checkInterval: int, timezone: string)
    returns (err: Option<string>, effects: seq<Effect>)
    ensures effects <= IncrementCalls(table, sink, checkInterval, timezone)
    ensures err.None? ==> effects == IncrementCalls(table, sink, checkInterval, timezone)
    ensures err.None? <==> w.incrementDb.None? && w.incrementConnector.None? && w.incrementReplication.None?
    ensures Outcome(err, effects) == Execute(CallSteps(IncrementCalls(table, sink, checkInterval, timezone), IncrementErrors(w)))
  {
    ExecuteThreeCalls(IncrementCalls(table, sink, checkInterval, timezone), IncrementErrors(w));
    effects := [OpenDb];
    if w.incrementDb.Some? {
      return Some(w.incrementDb.value), effects;
    }
    effects := effects + [NewConnector("increment_stage_" + table, sink)];
    if w.incrementConnector.Some? {
      return Some(w.incrementConnector.value), effects;
    }
    effects := effects + [ReplicateIncrement(sink, checkInterval, timezone)];
    if w.incrementReplication.Some? {
      return Some(Annotate("Failed to replicate incremental", w.incrementReplication.value)), effects;
    }
    err := None;
  }

  /** The `run` closure: it runs the steps of `RunSteps` until the first
      that fails, so the calls made are always a prefix of the planned
      ones, and all of them when the run succeeds. */
  method Run(cfg: Config, w: World) returns (err: Option<string>, effects: seq<Effect>)
    ensures Outcome(err, effects) == Execute(RunSteps(cfg, w))
    ensures err.None? <==> RunSucceeds(cfg, w)
    ensures !ProbesOk(w) ==> err.Some? && effects == []
    ensures ProbesOk(w) ==> effects <= PlannedEffects(cfg, w, w.loadinfoExist.value, w.metadataExist.value)
    ensures err.None? ==> ProbesOk(w) && effects == PlannedEffects(cfg, w, w.loadinfoExist.value, w.metadataExist.value)
    ensures ProbesOk(w) && !w.loadinfoExist.value && w.currentTso.Err? ==>
      err == Some(Annotate("Failed to get current TSO", w.currentTso.error)) && effects == [FetchTso]
    ensures cfg.tableFqn != "" && '.' !in cfg.tableFqn ==>
      err.Some? && forall e :: e in effects ==> e.FetchTso? || e.PostChangefeed?
  {
    RunOutcome(cfg, w);
    ProbeOutcome(w);
    RunOutcomeIsPlanned(cfg, w);
    if cfg.tableFqn != "" && '.' !in cfg.tableFqn {
      RunFailsOnUnqualifiedTable(cfg, w);
    }
    if w.openStorage.Some? {
      return Some(w.openStorage.value), [];
    }
    if w.metadataExist.Err? {
      return Some(w.metadataExist.error), [];
    }
    if w.loadinfoExist.Err? {
      return Some(w.loadinfoExist.error), [];
    }
    err, effects := Replicate(cfg, w);
  }

  /** Steps 1 to 4 of `run`, once the probes have passed. */
  method Replicate(cfg: Config, w: World) returns (err: Option<string>, effects: seq<Effect>)
    requires ProbesOk(w)
    ensures Outcome(err, effects) == Execute(RunSteps(cfg, w))
    ensures err.None? <==> RunSucceeds(cfg, w)
  {
    var metadataExist := w.metadataExist.value;
    var loadinfoExist := w.loadinfoExist.value;
    ghost var p := Decide(cfg.mode, cfg.sinkUriFlag, loadinfoExist, metadataExist);
    ghost var tso, cf, data := Execute(TsoSteps(w, p)), Execute(ChangefeedSteps(cfg, w, p)), Execute(DataSteps(cfg, w, p));
    RunOutcome(cfg, w);
    assert Execute(RunSteps(cfg, w)) == Then(Then(tso, cf), data);
    TsoOutcome(w, p);

    // 1. the current TSO
    effects := [];
    var startTso: nat := 0;
    if !loadinfoExist {
      effects := effects + [FetchTso];
      if w.currentTso.Err? {
        assert Then(Then(tso, cf), data) == tso;
        return Some(Annotate("Failed to get current TSO", w.currentTso.error)), effects;
      }
      startTso := w.currentTso.value;
    }
    assert startTso == StartTso(w, p) && tso == Outcome(None, effects);

    // 2. the change feed
    var cfErr, cfEffects, sinkUri := ChangefeedPhase(cfg, w, loadinfoExist, metadataExist, startTso);
    assert Outcome(cfErr, cfEffects) == cf;
    effects := effects + cfEffects;
    assert Then(tso, cf) == Outcome(cfErr, effects);
    if cfErr.Some? {
      return cfErr, effects;
    }

    // 3. and 4. the snapshot and the increments
    var dataErr, dataEffects := DataPhases(cfg, w, loadinfoExist, metadataExist, startTso, sinkUri);
    assert Outcome(dataErr, dataEffects) == data;
    effects := effects + dataEffects;
    err := dataErr;
    assert Then(Then(tso, cf), data) == Outcome(err, effects);
  }

  /** `run` is its probes and, when they pass, its TSO, change feed and
      data steps one after the other. */
  lemma RunOutcome(cfg: Config, w: World)
    ensures Execute(RunSteps(cfg, w)) ==
      if !ProbesOk(w) then Execute(ProbeSteps(w))
      else
        var p := Decide(cfg.mode, cfg.sinkUriFlag, w.loadinfoExist.value, w.metadataExist.value);
        Then(Then(Execute(TsoSteps(w, p)), Execute(ChangefeedSteps(cfg, w, p))), Execute(DataSteps(cfg, w, p)))
  {
    var rest := RunSteps(cfg, w)[|ProbeSteps(w)|..];
    assert RunSteps(cfg, w) == ProbeSteps(w) + rest;
    ExecuteAppend(ProbeSteps(w), rest);
    ProbeOutcome(w);
    if ProbesOk(w) {
      var p := Decide(cfg.mode, cfg.sinkUriFlag, w.loadinfoExist.value, w.metadataExist.value);
      assert rest == TsoSteps(w, p) + ChangefeedSteps(cfg, w, p) + DataSteps(cfg, w, p);
      ThenNothing(Execute(rest));
      ExecuteAppend(TsoSteps(w, p) + ChangefeedSteps(cfg, w, p), DataSteps(cfg, w, p));
      ExecuteAppend(TsoSteps(w, p), ChangefeedSteps(cfg, w, p));
    }
  }

  /** Step 1 fails with the annotated error of the TSO query, after
      making it. */
  lemma TsoOutcome(w: World, p: Phases)
    ensures Execute(TsoSteps(w, p)) ==
      if !p.fetchTso then Outcome(None, [])
      else if w.currentTso.Err? then Outcome(Some(Annotate("Failed to get current TSO", w.currentTso.error)), [FetchTso])
      else Outcome(None, [FetchTso])
  {
    if p.fetchTso {
      ExecuteOne(TsoSteps(w, p)[0]);
    }
  }

  /** What `run` does: nothing when a probe fails; a prefix of its
      planned calls otherwise, all of them when it succeeds; and only the
      TSO query when that fails. */
  lemma RunOutcomeIsPlanned(cfg: Config, w: World)
    ensures var o := Execute(RunSteps(cfg, w));
      && (!ProbesOk(w) ==> o.err.Some? && o.effects == [])
      && (ProbesOk(w) ==> o.effects <= PlannedEffects(cfg, w, w.loadinfoExist.value, w.metadataExist.value))
      && (o.err.None? ==> ProbesOk(w) && o.effects == PlannedEffects(cfg, w, w.loadinfoExist.value, w.metadataExist.value))
      && (ProbesOk(w) && !w.loadinfoExist.value && w.currentTso.Err? ==>
            o == Outcome(Some(Annotate("Failed to get current TSO", w.currentTso.error)), [FetchTso]))
  {
    RunOutcome(cfg, w);
    ProbeOutcome(w);
    if ProbesOk(w) {
      ExecutePrefix(RunSteps(cfg, w));
      ExecuteSucceeds(RunSteps(cfg, w));
      RunStepsMakePlannedCalls(cfg, w);
      TsoOutcome(w, Decide(cfg.mode, cfg.sinkUriFlag, w.loadinfoExist.value, w.metadataExist.value));
    }
  }

  /** A table name without a dot fails `run` after at most the TSO query
      and the change feed request. */
  lemma RunFailsOnUnqualifiedTable(cfg: Config, w: World)
    requires cfg.tableFqn != "" && '.' !in cfg.tableFqn
    ensures var o := Execute(RunSteps(cfg, w));
      o.err.Some? && forall e :: e in o.effects ==> e.FetchTso? || e.PostChangefeed?
  {
    RunOutcome(cfg, w);
    ProbeOutcome(w);
    if ProbesOk(w) {
      var p := Decide(cfg.mode, cfg.sinkUriFlag, w.loadinfoExist.value, w.metadataExist.value);
      TsoOutcome(w, p);
      ChangefeedOutcomeIsPlanned(cfg, w, p);
      DataOutcome(cfg, w, p);
      var o := Execute(RunSteps(cfg, w));
      var head := Then(Execute(TsoSteps(w, p)), Execute(ChangefeedSteps(cfg, w, p)));
      assert o == head || o == Outcome(Some(FqnError), head.effects + []);
      forall e: Effect | e in o.effects
        ensures e.FetchTso? || e.PostChangefeed?
      {
        assert e in Execute(TsoSteps(w, p)).effects || e in Execute(ChangefeedSteps(cfg, w, p)).effects;
      }
    }
  }

  /** Steps 3 and 4 of `run`: the table name, then the snapshot and the
      incremental replication when the mode asks for them. */
  method DataPhases(cfg: Config, w: World, loadinfoExist: bool, metadataExist: bool, startTso: nat, sinkUri: Option<Url>)
    returns (err: Option<string>, effects: seq<Effect>)
    requires startTso == StartTso(w, Decide(cfg.mode, cfg.sinkUriFlag, loadinfoExist, metadataExist))
    requires var p := Decide(cfg.mode, cfg.sinkUriFlag, loadinfoExist, metadataExist);
      p.increment ==> sinkUri == Some(SinkUrl(cfg, w, p))
    ensures Outcome(err, effects) == Execute(DataSteps(cfg, w, Decide(cfg.mode, cfg.sinkUriFlag, loadinfoExist, metadataExist)))
    ensures err.None? <==> DataSucceeds(cfg, w, Decide(cfg.mode, cfg.sinkUriFlag, loadinfoExist, metadataExist))
    ensures var p := Decide(cfg.mode, cfg.sinkUriFlag, loadinfoExist, metadataExist);
      effects <= SnapshotEffects(cfg, w, p) + IncrementEffects(cfg, w, p)
    ensures var p := Decide(cfg.mode, cfg.sinkUriFlag, loadinfoExist, metadataExist);
      err.None? ==> effects == SnapshotEffects(cfg, w, p) + IncrementEffects(cfg, w, p)
    ensures cfg.tableFqn != "" && '.' !in cfg.tableFqn ==> err == Some(FqnError) && effects == []
  {
    ghost var p := Decide(cfg.mode, cfg.sinkUriFlag, loadinfoExist, metadataExist);
    DataOutcome(cfg, w, p);
    DataOutcomeIsPlanned(cfg, w, p);
    effects := [];
    var sourceDatabase, sourceTable := "", "";
    if cfg.tableFqn != "" {
      var parts := SplitFirst(cfg.tableFqn, '.');
      if parts.None? {
        return Some(FqnError), effects;
      }
      sourceDatabase, sourceTable := parts.value.0, parts.value.1;
    }
    assert (sourceDatabase, sourceTable) == SourceNames(cfg.tableFqn);

    // 3. the snapshot
    if (cfg.mode == Full || cfg.mode == SnapshotOnly) && !loadinfoExist {
      var storage := w.parse(cfg.storagePath);
      if storage.Err? {
        return Some(storage.error), effects;
      }
      var snapshotUri := JoinPath(storage.value, "snapshot");
      assert SnapshotEffects(cfg, w, p) == SnapshotCalls(sourceDatabase, sourceTable, cfg.snapshotConcurrency, snapshotUri, startTso);
      var snapErr, snapEffects :=
        SnapshotPhase(w, sourceDatabase, sourceTable, cfg.snapshotConcurrency, snapshotUri, startTso);
      effects := snapEffects;
      if snapErr.Some? {
        return snapErr, effects;
      }
    }

    // 4. the increments
    if cfg.mode == Full || cfg.mode == IncrementalOnly {
      var incErr, incEffects :=
        IncrementPhase(w, sourceTable, sinkUri.value, DivTowardZero(cfg.flushInterval, 5), cfg.timezone);
      effects := effects + incEffects;
      if incErr.Some? {
        return incErr, effects;
      }
    } else {
      ThenNothing(Outcome(None, effects));
    }
    err := None;
  }

  /** Steps 3 and 4 are the table name check, then the snapshot's steps,
      then the increments'. */
  lemma DataOutcome(cfg: Config, w: World, p: Phases)
    ensures
      var snap :=
        if !p.snapshot then Outcome(None, [])
        else if w.parse(cfg.storagePath).Err? then Outcome(Some(w.parse(cfg.storagePath).error), [])
        else Execute(CallSteps(SnapshotEffects(cfg, w, p), SnapshotErrors(w)));
      var inc :=
        if p.increment then Execute(CallSteps(IncrementEffects(cfg, w, p), IncrementErrors(w)))
        else Outcome(None, []);
      Execute(DataSteps(cfg, w, p)) ==
        if FqnCheck(cfg.tableFqn).Some? then Outcome(FqnCheck(cfg.tableFqn), []) else Then(snap, inc)
  {
    var fqn: seq<Step<Effect>> := [Check(FqnCheck(cfg.tableFqn))];
    var storageCheck: Step<Effect> := Check(ErrorOf(w.parse(cfg.storagePath)));
    var snap: seq<Step<Effect>> :=
      if p.snapshot then [storageCheck] + CallSteps(SnapshotEffects(cfg, w, p), SnapshotErrors(w)) else [];
    var inc: seq<Step<Effect>> := if p.increment then CallSteps(IncrementEffects(cfg, w, p), IncrementErrors(w)) else [];
    assert DataSteps(cfg, w, p) == fqn + snap + inc;
    ExecuteAppend(fqn + snap, inc);
    ExecuteAppend(fqn, snap);
    ExecuteOne(fqn[0]);
    ThenNothing(Execute(snap));
    if p.snapshot {
      ExecuteAppend([storageCheck], CallSteps(SnapshotEffects(cfg, w, p), SnapshotErrors(w)));
      ExecuteOne(storageCheck);
      ThenNothing(Execute(CallSteps(SnapshotEffects(cfg, w, p), SnapshotErrors(w))));
    }
  }

  /** What steps 3 and 4 do is a prefix of their planned calls, and all
      of them when they succeed. */
  lemma DataOutcomeIsPlanned(cfg: Config, w: World, p: Phases)
    ensures var o := Execute(DataSteps(cfg, w, p));
      && o.effects <= SnapshotEffects(cfg, w, p) + IncrementEffects(cfg, w, p)
      && (o.err.None? ==> o.effects == SnapshotEffects(cfg, w, p) + IncrementEffects(cfg, w, p))
  {
    ExecutePrefix(DataSteps(cfg, w, p));
    ExecuteSucceeds(DataSteps(cfg, w, p));
    DataCalls(cfg, w, p);
  }
}
