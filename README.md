# tidb2dw core, modelled in Dafny

tidb2dw replicates one TiDB table into a cloud data warehouse. A snapshot
of the table is dumped as CSV files into S3 and loaded into Snowflake. A
TiCDC change feed then writes change files into the same storage, and each
batch of them is applied with a MERGE statement. This project models the
parts of that pipeline that decide what happens, and proves properties of
the model:

- **Redshift DDL translation** (`pkg/redshiftsql/ddl.go`), in `redshift_ddl.dfy`.
  A table-change event becomes an ordered list of TRUNCATE, DROP and ALTER
  statements, or an error. Column definitions are rendered as
  `<type> [NOT NULL] [DEFAULT ...]`. A MODIFY entry builds its ALTER
  clauses, and `information_schema` rows become column descriptors.
- **Snowflake SQL generation** (`snowsql/sql.go`), in `snow_sql.dfy` and
  `snow_merge.dfy`.
  - The CREATE TABLE statement is built from the `information_schema`
    rows and the sorted `SHOW INDEX` rows.
  - The MERGE statement deduplicates a staged change file per primary key
    and applies it through three WHEN arms.
  - `merge_semantics.dfy` reads that MERGE as a function on tables (maps
    from primary key to row). It proves that one MERGE of a batch whose
    changes are in commit order leaves the table as replaying the changes
    one by one would, and that a second MERGE changes nothing.
- **The replication driver** (`cmd/snowflake/root.go`), in `replication.dfy`.
  - The run-mode enum and the sink URI's query parameters per storage scheme.
  - The change feed request and its StartTs.
  - The restart-safe phase decision, driven by the two marker files, and
    the `run` closure, which takes those phases in order until the first
    failure.
- **The snapshot session** (`cmd/snowflake/snapshot.go`), in `snapshot_session.dfy`.
  - Setting up the session: the table-name split, the workspace path and
    the storage checks.
  - The step order of `Run`.
  - The key filter that selects the table's dumped CSV files from the
    bucket listing, and the load-per-file loop that is followed by the
    stage drop.

`wrappers.dfy` holds `Option`, `Result` and Go's `errors.Annotate`.
`text.dfy` holds the `strings`/`fmt` primitives the code relies on: Join,
prefix and suffix tests, SplitN into two, ASCII upper-casing, decimal
rendering with its read-back, and Go's string order. `urls.dfy` holds the
URL value and `URL.JoinPath`. `table_defs.dfy` holds the column
descriptors and the default-value literal shared by both SQL dialects.

Outside calls are not modelled, only their outcomes:

- AWS, dumpling, TiDB, TiCDC and Snowflake calls, the storage probes and
  environment variables become fields of an environment value (`World`,
  `SessionEnv`, `RunEnv`).
- `url.Parse`, `time.Duration.String` and `strconv.ParseFloat` become
  arrow-typed oracles.
- `tidbsql.GetColumnDiff` and `GetRedshiftTypeString` become the
  `Callees` value of the DDL module.

The imperative code stays imperative, and each method is proved against a
specification function:

- Append loops are methods with loop invariants.
- The index sort is an in-place insertion sort on an `array`.
- `ReplicateSession` is a class whose `Run` updates `resolvedTso` in place.
- The driver and session methods return the ordered list of outside calls
  they make. Their contracts state that this list is always a prefix of
  the planned calls, and all of them when the run succeeds. They also
  state exactly when each method succeeds.
- `steps.dfy` gives the drivers' reference behaviour. A run is a list of
  steps, each of which may make one outside call and may fail, executed
  until the first failure (`Steps.Execute`). `Replication.Run` and its
  phases are proved equal to executing their step lists. So are the
  snapshot session's `Run`, `Prepare`, `BuildDumper`, `DumpAndLoad`,
  `LoadSnapshotDataIntoSnowflake` and `LoadFiles`. On every path, this
  fixes the error a method returns and the calls it has made. The error
  is that of the first failing step, and the calls are those of the steps
  up to and including it.

Where the code does something other than its surroundings suggest, the
model follows the code:

- The UPDATE arm of `GenMergeInto` assigns every column, primary-key
  columns included, not only the non-key columns a MERGE usually updates.
- A table without primary-key columns is not rejected. The MERGE gets an
  empty `partition by` list and an empty ON condition
  (`SnowMerge.NoPrimaryKeyEmptyJoin`).
- "No snapshot files found" is raised only when the unfiltered listing is
  empty. A listing with no matching file issues no load and still drops
  the stage.
- `GenCreateSchema` wraps the default literal in a second pair of quotes,
  so a non-numeric default becomes `''v''`
  (`SnowSql.NonNumericDefaultQuotedTwice`).
- It tests IS_NULLABLE against "true"/"false", which information_schema
  never returns ("YES"/"NO"). No NOT NULL and no DEFAULT NULL is written
  for such a column (`SnowSql.YesNoNullabilityWritesNothing`).
- Default literals are not escaped. A default with a quote in it renders
  as text that does not read back as that default
  (`TableDefs.DefaultLiteralWithQuoteIsMalformed`).
- The index listing is sorted with SEQ_IN_INDEX compared as text, not as a
  number. In a primary key of ten or more columns the tenth column is
  listed before the second, as `PRIMARY KEY (k1, k10, k11, k2, …)`
  (`SnowSql.TenthKeyColumnBeforeSecond`).

## Model

| member | source | states |
|---|---|---|
| Steps.ExecuteSucceeds | cmd/snowflake/root.go:144-258 | a run of steps succeeds iff every step does, and then it has made every step's call |
| Steps.ExecuteStopsAtFirstFailure | cmd/snowflake/root.go:144-258 | the first failing step's error is the run's error, and the calls made are those of the steps up to and including it |
| Steps.ExecutePrefix | cmd/snowflake/root.go:144-258 | the calls made are always a prefix of all the steps' calls |
| Steps.ExecuteAppend | cmd/snowflake/root.go:144-258 | running two step lists one after the other is running their concatenation |
| Steps.ExecuteAnnotated | cmd/snowflake/snapshot.go:205-208 | annotating every step's error annotates the run's error and leaves its calls unchanged |
| Wrappers.AllOk | snowsql/sql.go:262-311 | the values of all results in order exactly when every one succeeds |
| Wrappers.AllOkSnoc | snowsql/sql.go:262-311 | one more column row appends its value, or makes its error the one returned |
| Wrappers.AllOkErrPrefix | snowsql/sql.go:262-311 | once a column row fails, the rows after it do not change the error returned |
| Text.TrimPrefix | cmd/snowflake/snapshot.go:300 | the prefix plus the result is the input when the prefix is there; the input unchanged otherwise |
| Text.SplitFirst | cmd/snowflake/snapshot.go:66-71 | `SplitN(s, ".", 2)` has two parts iff the separator occurs; the first part holds no separator, and the parts joined by it give the input back |
| Text.SplitFirstOfJoined | cmd/snowflake/root.go:200-204 | splitting `db + "." + table`, for a db without a dot, gives back db and table |
| Text.ToUpper | snowsql/sql.go:285-286 | the type name upper-cased character by character, same length |
| Text.IntToString | snowsql/sql.go:362 | `%d` renders a non-empty text that is all digits exactly for non-negative numbers |
| Text.IntToStringRoundTrip | snowsql/sql.go:362 | the decimal rendering reads back as the number it came from |
| Text.LessIrreflexive | snowsql/sql.go:325-330 | no string sorts before itself under Go's `<` |
| Text.LessTransitive | snowsql/sql.go:325-330 | Go's `<` on strings is transitive |
| Text.LessTotal | snowsql/sql.go:325-330 | two distinct strings are always ordered one way or the other |
| Text.LessAsymmetric | snowsql/sql.go:325-330 | no two strings are each before the other |
| Urls.JoinPath | cmd/snowflake/root.go:175 | `JoinPath` keeps scheme, host and query, and the path gains the element at its end after the old path |
| TableDefs.DefaultLiteral | snowsql/sql.go:243-249 | a float-parseable default stays bare; anything else is exactly the value between single quotes |
| TableDefs.UnescapeQuoteFree | snowsql/sql.go:246 | a literal body without quotes reads as itself |
| TableDefs.DefaultLiteralRoundTrip | pkg/redshiftsql/ddl.go:100-106 | a quoted default without inner quotes reads back as the default |
| TableDefs.UnescapeShortens | snowsql/sql.go:246 | reading a literal body never lengthens it, and a body holding a quote reads as something strictly shorter |
| TableDefs.DefaultLiteralWithQuoteIsMalformed | pkg/redshiftsql/ddl.go:100-106 | with no escaping, every non-numeric default holding a quote renders as text that does not read back as that default |
| RedshiftDdl.ColumnSuffix | pkg/redshiftsql/ddl.go:119-127 | NOT NULL iff nullable is "false"; a present default ends in its literal; with no default, DEFAULT NULL iff nullable is "true" |
| RedshiftDdl.ColumnString | pkg/redshiftsql/ddl.go:113-129 | fails exactly when the type mapping fails, with its error; otherwise the type followed by the suffix |
| RedshiftDdl.GetRedshiftColumnString | pkg/redshiftsql/ddl.go:113-129 | the builder's text equals `ColumnString` |
| RedshiftDdl.ModifyClauses | pkg/redshiftsql/ddl.go:17-41 | at most three `COLUMN ...` clauses; none exactly when type, nullability and a dropped default are all unchanged; a nullability change comes last, DROP NOT NULL iff now "true" |
| RedshiftDdl.JoinNonEmptyParts | pkg/redshiftsql/ddl.go:40 | joining non-empty clauses is empty iff there are none |
| RedshiftDdl.GetColumnModifyString | pkg/redshiftsql/ddl.go:17-41 | a failing type mapping is returned only when the type changed; otherwise the clauses joined by ", "; a warning exactly for a changed non-nil default |
| RedshiftDdl.DiffStatementsOkIff | pkg/redshiftsql/ddl.go:65-94 | the diff translates iff no entry is a MODIFY and every added column's type renders |
| RedshiftDdl.ModifyEntryFails | pkg/redshiftsql/ddl.go:83-84 | one MODIFY entry anywhere makes the whole translation fail |
| RedshiftDdl.DiffStatementsInOrder | pkg/redshiftsql/ddl.go:69-94 | on success the k-th statement is that of the k-th ADD/DROP/RENAME entry: order kept, UNCHANGED skipped |
| RedshiftDdl.GenDDLViaColumnsDiff | pkg/redshiftsql/ddl.go:43-98 | the exact statement or error of each structural action, returned before the diff is computed; otherwise the diff's error or its translation |
| RedshiftDdl.EntryDdl | pkg/redshiftsql/ddl.go:71-93 | one diff entry yields the statement of `EntryStatements` without its semicolon, nothing for an unchanged column, or the same error |
| RedshiftDdl.TranslateDiff | pkg/redshiftsql/ddl.go:69-97 | the append loop over the diff yields `DiffStatements` |
| RedshiftDdl.OptionalIntStringRoundTrip | pkg/redshiftsql/ddl.go:168-178 | an optional number rendered with `%d` (empty when absent) reads back as itself |
| RedshiftDdl.TableColOfRowFields | pkg/redshiftsql/ddl.go:168-195 | the descriptor keeps name, type and default; precision reads back as numeric, else datetime precision, else length; nullable is "true" iff IS_NULLABLE is "YES" |
| RedshiftDdl.ColumnOfRow | pkg/redshiftsql/ddl.go:168-195 | the loop body builds `TableColOfRow` of the row |
| RedshiftDdl.GetRedshiftTableColumn | pkg/redshiftsql/ddl.go:143-198 | one descriptor per row, in row order |
| SnowSql.RowLessAsymmetric | snowsql/sql.go:325-330 | the index-row comparator never orders two rows both ways |
| SnowSql.RowNotLessTransitive | snowsql/sql.go:325-330 | "not before" under the comparator is transitive |
| SnowSql.SortIndexRows | snowsql/sql.go:325-330 | after the in-place sort the rows are ordered by key name, then by SEQ_IN_INDEX compared as text, and are a permutation of the input |
| SnowSql.InsertLast | snowsql/sql.go:325-330 | one insertion step extends the ordered prefix by one row, leaves the rows after it alone and permutes the array |
| SnowSql.PrimaryRows | snowsql/sql.go:331-336 | only PRIMARY rows of the listing are kept |
| SnowSql.PrimaryRowsCount | snowsql/sql.go:331-336 | every PRIMARY row is kept as often as it occurs |
| SnowSql.PrimaryRowsOfPermutation | snowsql/sql.go:325-336 | sorting first does not change which PRIMARY rows are kept |
| SnowSql.PrimaryRowsSorted | snowsql/sql.go:331-336 | filtering a sorted listing leaves it sorted |
| SnowSql.PrimaryRowsAppend | snowsql/sql.go:331-336 | one more listed row adds itself iff it is a PRIMARY row |
| SnowSql.ColumnNames | snowsql/sql.go:332-334 | the column name of each row, in order |
| SnowSql.PrimaryKeyColumns | snowsql/sql.go:323-336 | the PRIMARY KEY columns are the PRIMARY rows' column names, ordered by SEQ_IN_INDEX compared as text |
| SnowSql.TwoRowsInOrder | snowsql/sql.go:325-330 | two rows the comparator orders strictly are sorted in that order and no other |
| SnowSql.TenthKeyColumnBeforeSecond | snowsql/sql.go:323-336 | for PRIMARY rows with SEQ_IN_INDEX "2" and "10", the key order is exactly the "10" column, then the "2" column |
| SnowSql.ColumnTypeClause | snowsql/sql.go:281-301 | a rendered clause starts with the column name and a space |
| SnowSql.UnsupportedExactlyUnmapped | snowsql/sql.go:281-301 | a column is reported unsupported iff its type is outside the mapping |
| SnowSql.NilFieldExactlyMissingParameter | snowsql/sql.go:281-301 | a nil field is dereferenced iff a length, decimal or time type lacks its parameter |
| SnowSql.FamilyRenderings | snowsql/sql.go:282-288 | the text types as TEXT, int and mediumint as INT, the length types upper-cased with their length |
| SnowSql.NumericRenderings | snowsql/sql.go:289-292 | bigint, tinyint, smallint, float and double under their own name, upper-cased; DECIMAL/NUMERIC with precision and scale |
| SnowSql.TimeRenderings | snowsql/sql.go:293-298 | BOOLEAN, DATE, and the date-time types upper-cased with their precision |
| SnowSql.CreateColumnSuffixClauses | snowsql/sql.go:302-309 | NOT NULL iff IS_NULLABLE is "false"; a default ends in the literal inside quotes; with no default, DEFAULT NULL iff "true" |
| SnowSql.NonNumericDefaultQuotedTwice | snowsql/sql.go:305-306 | a non-numeric default ends up between two pairs of quotes |
| SnowSql.YesNoNullabilityWritesNothing | snowsql/sql.go:302-309 | with "YES"/"NO" nullability and no default, nothing follows the type |
| SnowSql.ColumnRow | snowsql/sql.go:277-310 | fails iff a nil field is dereferenced; otherwise type clause then suffix, or only the suffix for an unsupported type |
| SnowSql.ColumnRowResults | snowsql/sql.go:262-311 | one column row per column, in order |
| SnowSql.UnsupportedTypesAppend | snowsql/sql.go:299-300 | the unsupported types are reported in column order |
| SnowSql.SqlRows | snowsql/sql.go:340-344 | the column rows, then a PRIMARY KEY row with the key columns joined by ", " exactly when there are key columns |
| SnowSql.Indented | snowsql/sql.go:346-348 | every row prefixed with four spaces |
| SnowSql.CreateTableStatement | snowsql/sql.go:350-355 | starts with `CREATE OR REPLACE TABLE <table> (` and a newline, ends with a newline and `)` |
| SnowSql.AppendColumnSuffix | snowsql/sql.go:302-309 | the NOT NULL and DEFAULT appends leave the definition followed by exactly `CreateColumnSuffix` |
| SnowSql.ColumnDefinition | snowsql/sql.go:277-310 | the scanning loop's body builds `ColumnRow` and reports the column's type iff it is unsupported |
| SnowSql.ColumnDefinitions | snowsql/sql.go:262-311 | the loop yields every column row or the first failure, and reports the unsupported types in order |
| SnowSql.IndentRows | snowsql/sql.go:346-348 | the array is indented in place |
| SnowSql.GenCreateSchema | snowsql/sql.go:251-356 | fails with the column query's error, else with the first column's error, else with the SHOW INDEX query's error; succeeds iff both queries succeed and every column renders; the unsupported types are reported once every column renders; the statement is built from the column rows and the PRIMARY rows ordered by SEQ_IN_INDEX compared as text |
| SnowMerge.PkPositions | snowsql/sql.go:365-372 | the ascending positions of exactly the columns with IsPK "true" |
| SnowMerge.SelectList | snowsql/sql.go:359-363 | the select loop yields the flag projection, then one projection per column |
| SnowMerge.PrimaryKeyLists | snowsql/sql.go:365-372 | the key loop yields the partition list and the ON conditions |
| SnowMerge.GenMergeInto | snowsql/sql.go:358-416 | the statement is the template over the six lists of the table's columns |
| SnowMerge.SelectListNumbering | snowsql/sql.go:359-363 | the flag first, then column i projected from CSV column i + 5, in column order |
| SnowMerge.PkNamesExactly | snowsql/sql.go:365-372 | a name is in the key list iff a column of that name has IsPK "true" |
| SnowMerge.NoPrimaryKeyEmptyJoin | snowsql/sql.go:365-372 | the key list is empty iff no column is a key column, and then the partition list and ON condition are empty text |
| SnowMerge.OnMatchesPrimaryKey | snowsql/sql.go:370 | one `T.k = S.k` condition per key column, in key order |
| SnowMerge.AssignmentListsAligned | snowsql/sql.go:374-387 | UPDATE SET, INSERT and VALUES hold one entry per column, in column order |
| SnowMerge.PrimaryKeyColumnsUpdated | snowsql/sql.go:374-377 | the UPDATE arm assigns every key column too |
| SnowMerge.ArmFor | snowsql/sql.go:402-404 | no action iff no arm applies; otherwise the action of an arm that applies |
| SnowMerge.MergeArmsChoice | snowsql/sql.go:402-404 | matched rows update or delete by flag; unmatched rows are inserted unless flagged D, which no arm handles |
| MergeSemantics.Apply | snowsql/sql.go:402-404 | after the arms a key holds the staged row unless the flag is D, whatever it held before |
| MergeSemantics.Merge | snowsql/sql.go:390-404 | a key is present iff its surviving change is not a delete (or, without one, it was present), with the staged row or its old row |
| MergeSemantics.MergeIdempotent | snowsql/sql.go:390-404 | running the same MERGE twice leaves the table as running it once |
| MergeSemantics.Dedup | snowsql/sql.go:396 | each surviving change is filed under its own key |
| MergeSemantics.DedupKeepsLatest | snowsql/sql.go:396 | every key of the batch survives with a change of the batch whose commit ts is the greatest for that key; no other key survives |
| MergeSemantics.DedupLastWins | snowsql/sql.go:396 | in a commit-ordered batch the last change survives for its key, in place of what the window kept before |
| MergeSemantics.MergeThenOne | snowsql/sql.go:390-404 | merging one more change is merging with that change in place of the key's old one |
| MergeSemantics.MergeConvergesToReplay | snowsql/sql.go:390-404 | one MERGE of a commit-ordered batch equals applying its changes one by one |
| Replication.ParseMode | cmd/snowflake/root.go:110-122 | a flag value selects the mode whose id it is, ignoring case; no mode when no id matches in any case |
| Replication.ParseModeIgnoresCase | cmd/snowflake/root.go:293 | an upper-cased flag value selects the same mode as the value itself |
| Replication.ParseModeOfId | cmd/snowflake/root.go:118-122 | each mode's id selects that mode |
| Replication.SchemeParams | cmd/snowflake/root.go:38-58 | s3 adds access key and secret, and a session token iff one is set; gcs adds the credentials file; the exact error of a missing credential or another scheme |
| Replication.SinkUri | cmd/snowflake/root.go:29-61 | succeeds iff the scheme's credentials exist; scheme, host and path kept; the old query, then flush-interval, file-size and protocol=csv, then the scheme's parameters |
| Replication.GenSinkUri | cmd/snowflake/root.go:29-61 | the `Add` calls build `SinkUri` |
| Replication.CreateChangefeed | cmd/snowflake/root.go:63-108 | a request iff the server URL joins; posted to `api/v2/changefeeds` with the table filter, CSV settings and the given StartTs; success iff status 200 and a readable body; the status-code error |
| Replication.RerunAfterSetupOnlyReplicatesIncrements | cmd/snowflake/root.go:160-238 | with both markers present a rerun fetches no TSO, creates no change feed and replays no snapshot |
| Replication.SnapshotHasTso | cmd/snowflake/root.go:160-208 | the snapshot is replicated only in a run that fetched a TSO |
| Replication.IncrementHasOneSink | cmd/snowflake/root.go:173-238 | the incremental phase runs iff a sink URI is chosen, from exactly one source |
| Replication.GivenSinkCreatesNoChangefeed | cmd/snowflake/root.go:190-196 | a given `--sink-uri` is used as it is, with no change feed created |
| Replication.SnapshotOnlyLeavesCdcAlone | cmd/snowflake/root.go:173-255 | snapshot-only runs touch neither TiCDC nor the incremental phase, and replay the snapshot iff it is not loaded yet |
| Replication.ChangefeedStartsAtSnapshotTso | cmd/snowflake/root.go:160-230 | a change feed starts at the TSO the snapshot uses, or at 0 once the snapshot is loaded |
| Replication.CdcError | cmd/snowflake/root.go:86-101 | `createChangefeed` fails on the server's answer iff the post fails, the status is not 200 or the body is unreadable |
| Replication.RunStepsMakePlannedCalls | cmd/snowflake/root.go:144-258 | the steps of `run` make the planned calls: TSO, change feed, snapshot and increments, in that order |
| Replication.ProbeOutcome | cmd/snowflake/root.go:145-158 | the storage, metadata and loadinfo probes end the run with the first of their errors, having made no call |
| Replication.TsoOutcome | cmd/snowflake/root.go:160-169 | the TSO is fetched only when the snapshot is not loaded; its failure ends the run with "Failed to get current TSO" |
| Replication.RunOutcome | cmd/snowflake/root.go:144-258 | `run` is its probes and, when they pass, its TSO, change feed and data steps one after the other |
| Replication.RunOutcomeIsPlanned | cmd/snowflake/root.go:144-258 | a failing probe makes no call; otherwise the calls are a prefix of the plan, all of it on success; a failing TSO query is the only call made |
| Replication.RunFailsOnUnqualifiedTable | cmd/snowflake/root.go:198-205 | a table name without a dot fails the run after at most the TSO query and the change feed request |
| Replication.ChangefeedPhase | cmd/snowflake/root.go:171-196 | equals executing the change feed steps: succeeds iff the storage path parses, its scheme's credentials exist and a due change feed is accepted, or `--sink-uri` parses; makes only change-feed posts, all the planned ones on success, and gives the sink URI the incremental phase needs |
| Replication.ChangefeedOutcomeIsPlanned | cmd/snowflake/root.go:171-196 | the change feed steps make a prefix of the planned posts, all of them on success, and nothing else |
| Replication.StorageSink | cmd/snowflake/root.go:174-189 | with a generated sink URI: the storage path's and the sink URI's errors first, then the change feed request's; success iff none fails, and the sink URI is the generated one |
| Replication.StorageSinkSteps | cmd/snowflake/root.go:174-189 | the exact outcome of the generated-sink steps, and when they succeed |
| Replication.RequestChangefeed | cmd/snowflake/root.go:183-186 | the request succeeds iff the server URL joins and the server accepts it; its error is annotated "Failed to create changefeed" |
| Replication.SnapshotPhase | cmd/snowflake/root.go:207-232 | open, connector with stage `snapshot_stage_<table>`, snapshot replication at the TSO, in order; success iff none fails |
| Replication.IncrementPhase | cmd/snowflake/root.go:237-255 | open, connector with stage `increment_stage_<table>`, incremental replication at a fifth of the flush interval; success iff none fails |
| Replication.DataPhases | cmd/snowflake/root.go:198-255 | equals executing the data steps: succeeds iff the table name is empty or qualified and every call of the phases taken succeeds; the calls are a prefix of the planned ones, all of them on success; a table name without a dot fails before either phase |
| Replication.DataOutcome | cmd/snowflake/root.go:198-255 | the table name check, then the snapshot's steps, then the increments', each ending the run at its first failure |
| Replication.DataOutcomeIsPlanned | cmd/snowflake/root.go:198-255 | the data steps make a prefix of the snapshot and incremental calls, all of them on success |
| Replication.Run | cmd/snowflake/root.go:144-258 | equals executing the steps of `run`, so the first failing step's error is returned after the calls up to it; succeeds iff every probe and every step taken succeeds; a failing probe makes no call; a failing TSO query returns "Failed to get current TSO" after that one call; the calls are a prefix of the plan, all of it on success; a table name without a dot fails before any snapshot or increment call |
| Replication.Replicate | cmd/snowflake/root.go:160-258 | once the probes pass, the TSO, change feed and data steps are executed in order until the first failure; success iff `run` succeeds |
| SnapshotSession.WorkspacePath | cmd/snowflake/snapshot.go:64 | the workspace is the storage path, a slash, and the session id |
| SnapshotSession.SetupError | cmd/snowflake/snapshot.go:51-163 | a table name without a dot is rejected first; a non-s3 storage is rejected; success needs credentials, a parsed s3 URL and the bucket region |
| SnapshotSession.NewReplicateSession | cmd/snowflake/snapshot.go:51-163 | a session iff no step fails, with the workspace path, database and table from the first dot, credentials and region; otherwise the first failing step's error |
| SnapshotSession.ReplicateSession.constructor | cmd/snowflake/snapshot.go:57-63 | the id, table name and concurrency set, everything else empty |
| SnapshotSession.SelectedFilesAppend | cmd/snowflake/snapshot.go:316-323 | selection keeps listing order |
| SnapshotSession.SelectedFilesExactly | cmd/snowflake/snapshot.go:316-323 | a path is selected iff it is a listed key with the dump-file prefix and `.csv` suffix, with the workspace prefix taken off |
| SnapshotSession.SelectedFilesAreTableCsv | cmd/snowflake/snapshot.go:300-323 | each selected path starts with `/snapshot/<db>.<table>.`, ends with `.csv`, and with the workspace prefix is a listed key |
| SnapshotSession.SelectSnapshotFiles | cmd/snowflake/snapshot.go:316-323 | the filter loop yields `SelectedFiles` |
| SnapshotSession.LoadCalls | cmd/snowflake/snapshot.go:325-337 | one load per selected file, in order |
| SnapshotSession.LoadErrors | cmd/snowflake/snapshot.go:325-337 | one load outcome per file, the i-th being the i-th load's error |
| SnapshotSession.FileStepsMakeLoadCalls | cmd/snowflake/snapshot.go:325-342 | the steps of the load loop call one load per file, in order, then the stage drop |
| SnapshotSession.FirstFailingLoad | cmd/snowflake/snapshot.go:325-337 | the first failing load ends the load steps with its error, after the loads up to and including it |
| SnapshotSession.FileStepsOutcome | cmd/snowflake/snapshot.go:325-342 | running the load steps makes a prefix of the loads and the drop, all of them on success; with no failing load the drop's error; the first failing load's error with no drop; success iff every load and the drop succeed |
| SnapshotSession.LoadFiles | cmd/snowflake/snapshot.go:325-342 | equals executing the load steps, so with no failing load every file is loaded in order and the stage is dropped; the first failing load ends the loop with its error and no drop; success iff every load and the drop succeed |
| SnapshotSession.TableOutcome | cmd/snowflake/snapshot.go:264-276 | the table steps fail at the schema with no call, or make the CREATE TABLE call and return its error |
| SnapshotSession.ReplicateSession.DumperStepsCalls | cmd/snowflake/snapshot.go:213-235 | the dumper steps create the dumper over `<workspace>/snapshot` and then set the snapshot |
| SnapshotSession.ReplicateSession.DumperOutcome | cmd/snowflake/snapshot.go:213-235 | the dumper steps end at the annotated configuration error, the annotated NewDumper error, "Snapshot is not available" for an empty snapshot, or SET SESSION's error |
| SnapshotSession.ReplicateSession.BuildDumper | cmd/snowflake/snapshot.go:213-235 | equals executing the dumper steps; the resolved TSO is recorded once the dumper exists, even when empty; an empty one fails with "Snapshot is not available" before the SET SESSION; success iff every step succeeds |
| SnowSql.IsCreateStatement | snowsql/sql.go:251-356 | the statement `GenCreateSchema` makes: the column definitions, then the PRIMARY KEY columns ordered by SEQ_IN_INDEX compared as text |
| SnapshotSession.SchemaError | snowsql/sql.go:251-321 | no error iff both schema queries succeed and every column has a definition; otherwise the column query's error, else the first column's error, else the SHOW INDEX query's error, in the order `GenCreateSchema` meets them |
| SnapshotSession.ReplicateSession.DropIsLast | cmd/snowflake/snapshot.go:278-345 | only the last call of the load plan drops the stage |
| SnapshotSession.ReplicateSession.DumpPrepareTargetTable | cmd/snowflake/snapshot.go:264-276 | when the schema can be rendered, exactly one statement, the CREATE OR REPLACE TABLE `GenCreateSchema` makes from the column and index rows, and the execution's error; otherwise the schema error and nothing executed; success iff the schema renders and the statement runs |
| SnapshotSession.ReplicateSession.ListOutcome | cmd/snowflake/snapshot.go:279-314 | the stage, the workspace URL, the listing and the empty-listing check: the first failure ends them, after the stage alone or after the stage and the listing |
| SnapshotSession.ReplicateSession.LoadStepsMakePlannedCalls | cmd/snowflake/snapshot.go:278-345 | the load steps' calls are the load plan: stage, listing, one load per selected file, drop |
| SnapshotSession.ReplicateSession.LoadOutcome | cmd/snowflake/snapshot.go:278-345 | the load steps end at the stage, the URL, the listing or an empty listing, with their errors, or else run the loads after the stage and the listing |
| SnapshotSession.ReplicateSession.LoadStepsFacts | cmd/snowflake/snapshot.go:278-345 | running the load steps makes a prefix of the load plan, all of it on success; success iff the stage is created, the listing is non-empty, every load and the drop succeed; the stage error is annotated; the i-th load failing first ends them with its error after 3+i calls, so no drop; an empty listing fails with "No snapshot files found"; a listing with no match drops the stage |
| SnapshotSession.ReplicateSession.LoadSnapshotDataIntoSnowflake | cmd/snowflake/snapshot.go:278-345 | equals executing the load steps; so the calls are a prefix of stage, listing, loads, drop; success iff the stage is created, the listing is non-empty, every load and the drop succeed; the first failing load ends with its error and no drop; an empty listing fails with "No snapshot files found" without a drop; a listing with no match loads nothing and drops the stage |
| SnapshotSession.ReplicateSession.PrepareStepsMakePreludeCalls | cmd/snowflake/snapshot.go:170-195 | the calls of the steps up to the target table are the prelude: both pings, NewDumper, SET SESSION, CREATE TABLE |
| SnapshotSession.ReplicateSession.PrepareOutcome | cmd/snowflake/snapshot.go:170-195 | the steps up to the target table end at a failing ping with its annotated error, or else run the dumper steps and then the table steps |
| SnapshotSession.ReplicateSession.PrepareStepsFollowPrelude | cmd/snowflake/snapshot.go:170-195 | those steps make a prefix of the prelude, all of it on success; an empty snapshot fails with "Snapshot is not available" after three calls; once the dumper is ready the schema error with four calls or the CREATE TABLE error with five; success iff every step succeeds |
| SnapshotSession.ReplicateSession.DumperAndTable | cmd/snowflake/snapshot.go:187-195 | equals executing the dumper steps and then, if they succeed, the table steps; the resolved TSO is recorded once the dumper exists; once the dumper is ready and the schema renders, the CREATE TABLE statement is the one `GenCreateSchema` makes |
| SnapshotSession.ReplicateSession.Prepare | cmd/snowflake/snapshot.go:170-195 | equals executing the pings, the dumper steps and the table steps, so the first failing step's error is returned after the calls up to it; a failing ping's error is annotated; once the dumper is ready, the CREATE TABLE statement is the one `GenCreateSchema` makes; success iff every step succeeds |
| SnapshotSession.ReplicateSession.TailStepsMakePlannedCalls | cmd/snowflake/snapshot.go:196-210 | the calls of the steps after the target table are the dump, the close and the load plan |
| SnapshotSession.ReplicateSession.TailOutcome | cmd/snowflake/snapshot.go:196-210 | a failing dump ends with its annotated error after the dump and the close; otherwise the load runs with its error annotated "Failed to load snapshot data into Snowflake" and its calls unchanged |
| SnapshotSession.ReplicateSession.TailStepsFacts | cmd/snowflake/snapshot.go:196-210 | running the steps after the target table makes a prefix of dump, close and load plan, all of it on success; success iff the dump and the load succeed; a failing dump's annotated error; a failing load's annotated error with the stage left in place |
| SnapshotSession.ReplicateSession.DumpAndLoad | cmd/snowflake/snapshot.go:196-210 | equals executing the steps after the target table: the dump, then the loads; success iff the dump and the load phase succeed; a failing load is annotated and leaves the stage in place |
| SnapshotSession.ReplicateSession.SessionStepsMakePlannedCalls | cmd/snowflake/snapshot.go:170-211 | the calls of the steps of `Run` are its plan: ping Snowflake, ping TiDB, build dumper, create table, dump, load |
| SnapshotSession.ReplicateSession.SessionStepsOutcome | cmd/snowflake/snapshot.go:170-211 | running the steps of `Run` makes a prefix of the plan, all of it on success; success iff every step succeeds; the annotated ping errors; "Snapshot is not available" after three calls; the annotated dump error; a failing load's annotated error with the stage left in place |
| SnapshotSession.ReplicateSession.Run | cmd/snowflake/snapshot.go:170-211 | equals executing the steps of `Run` for the CREATE TABLE statement `GenCreateSchema` makes, so the first failing step's error is returned after the calls up to it; the calls are a prefix of the plan, all of it on success; success iff every step succeeds; a failing dump or load returns its annotated error, and a failing load leaves the stage in place; the connection errors are annotated |

## Left out

- The progress-polling goroutine of `LoadSnapshotFromStage` (ticker, channel, WaitGroup) is not modelled; the load is one call in the session's trace. It is concurrency and timers.
- Stage and storage-integration create/drop statements, `GetGCSServiceAccount` and `storage/gcs.go` are not modelled. They are thin SQL or cloud-client wrappers; only the stage name and the calls' order are kept.
- AWS session and credential resolution, the bucket-region lookup, DSN building, the TLS/x509 setup and the dumpling configuration are outcomes in `SessionEnv`/`RunEnv`. The CA-file branch ends the process with `log.Fatal`, which is not modelled.
- The HTTP POST, body reading and JSON decoding of `createChangefeed` are one `CdcOutcome`. The type assertions on `respData` are not modelled; they panic on a malformed answer.
- Cobra flag definitions, logging and environment setup are not modelled.
- `tidbsql.GetColumnDiff`, `GetRedshiftTypeString`, `GenLoadSnapshotFromStage`, `replicate.StartReplicateSnapshot`/`StartReplicateIncrement` and `tidbsql.GetCurrentTSO` are not part of this model. They are given as functions or outcomes.
- `strconv.ParseFloat` is the oracle `parsesAsFloat`; floating-point parsing is not modelled.
- Replication.SinkUri: `Values.Encode` sorting and escaping is not modelled: the query is the ordered list of `Add` calls. `url.Parse` is an oracle.
- Urls.JoinPath: models a single plain path element; the cleaning of `.`/`..` segments is not modelled.
- Replication.Run: the URL re-parse after `url.JoinPath` is taken to give back the joined URL. The "Failed to parse workspace path" error of the snapshot phase therefore never arises in the model.
- `time.Duration.String` is the oracle `formatDuration`.
- Replication.CreateChangefeed: StartTs is a `nat`; the 64-bit width of the TSO is not modelled.
- `interface{}` defaults are modelled as optional strings; other dynamic types printed with `%v` are not modelled.
- Text.ToUpper: upper-cases ASCII only; Unicode case mapping is not modelled.
- Replication.ParseMode: ignores case by ASCII upper-casing; the Unicode case folding of the enum flag library (a Kelvin sign matching `k`, say) is not modelled.
- SnowSql.SortIndexRows: an insertion sort stands in for `slices.SortFunc`. Only the result's order and permutation are stated, not the algorithm.
- SnowSql.GenCreateSchema: the information_schema and SHOW INDEX queries and the row scan are not modelled; their rows are parameters. In the session, a query failure is one outcome.
- SnapshotSession.ReplicateSession.LoadSnapshotDataIntoSnowflake: only the first page of `ListObjectsV2` (at most 1000 keys) is read, as in the code; paging is not modelled.
- SnapshotSession.ReplicateSession.LoadSnapshotDataIntoSnowflake: the `err` test right after `GenLoadSnapshotFromStage` tests an error that is always nil there, so it is left out.
- MergeSemantics.Dedup: of several staged changes with the same key and commit timestamp, the first one met is kept. Snowflake's `row_number()` picks an arbitrary one, so the convergence result assumes strictly increasing timestamps per key (`CommitOrdered`).
- MergeSemantics.MergeConvergesToReplay: a row is the list of column values. The CSV decoding and the column types are not modelled. The MERGE picks the latest change per key with `order by $4 desc` over the fourth CSV column, which is text, so it compares commit timestamps as strings. The model compares them as integers, which agrees with the text order only while the timestamps have the same number of digits.
- Replication.Run: `cdcFlushInterval/5` is Go's truncating division (`DivTowardZero`).
- Replication.Run: the sink URI used by the incremental phase is `NoUrl` when none was chosen. The code would pass nil, and that case cannot arise for the modes that run the phase.
- SnowSql.ColumnDefinitions: the reported unsupported types are stated only when every column renders; on a nil dereference the Go code panics and reports nothing further.
- SnapshotSession.SchemaError: a column whose CHARACTER_MAXIMUM_LENGTH, NUMERIC_PRECISION, NUMERIC_SCALE or DATETIME_PRECISION is NULL makes the Go code dereference a nil pointer and panic, so `Run` never returns. The model returns that case as an error value, and `DumpPrepareTargetTable`, `Prepare` and `Run` return it as they return any other error. It comes after a failing column query and before the SHOW INDEX query, which is where the panic happens.
