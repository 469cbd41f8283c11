/** `GenMergeInto`: the MERGE statement that applies one staged CSV file of
    change rows to the Snowflake table. The rows are deduplicated per primary
    key (latest commit timestamp, column `$4`), joined to the target on the
    primary key, and applied through three WHEN arms. */
module SnowMerge {
  import opened Wrappers
  import opened Text
  import opened TableDefs

  /** The first projection: the change flag (`I`, `U` or `D`) in column 1. */
  const FlagColumn := "$1 AS \"METADATA$FLAG\""

  /** The projection of the column at 0-based index `i`: the data columns
      start at CSV column 5, after flag, table, schema and commit-ts. */
  function SelectItem(i: nat, name: string): string {
    "$" + IntToString(i + 5) + " AS " + name
  }

  function OnCondition(name: string): string {
    "T." + name + " = S." + name
  }

  function UpdateItem(name: string): string {
    name + " = S." + name
  }

  function ValueItem(name: string): string {
    "S." + name
  }

  /** The positions of the primary-key columns (`IsPK == "true"`), ascending. */
  function PkPositions(cols: seq<TableCol>): (ps: seq<nat>)
    decreases |cols|
    ensures forall j :: 0 <= j < |ps| ==> ps[j] < |cols| && cols[ps[j]].isPK == "true"
    ensures forall j, k :: 0 <= j < k < |ps| ==> ps[j] < ps[k]
    ensures forall i :: 0 <= i < |cols| && cols[i].isPK == "true" ==> i in ps
  {
    if cols == [] then []
    else
      var n := |cols| - 1;
      PkPositions(cols[..n]) + (if cols[n].isPK == "true" then [n] else [])
  }

  /** The primary-key column names, in column order. */
  function PkNames(cols: seq<TableCol>): seq<string> {
    var ps := PkPositions(cols);
    seq(|ps|, j requires 0 <= j < |ps| => cols[ps[j]].name)
  }

  /** The six lists `GenMergeInto` splices into its template. */
  datatype MergeLists = MergeLists(
    selectList: seq<string>,
    pkColumns: seq<string>,
    onConds: seq<string>,
    updateSet: seq<string>,
    insertCols: seq<string>,
    valuesList: seq<string>)

  /** What each list holds for a table's columns. */
  function MergeListsOf(cols: seq<TableCol>): MergeLists {
    var pk := PkNames(cols);
    MergeLists(
      [FlagColumn] + seq(|cols|, i requires 0 <= i < |cols| => SelectItem(i, cols[i].name)),
      pk,
      seq(|pk|, j requires 0 <= j < |pk| => OnCondition(pk[j])),
      seq(|cols|, i requires 0 <= i < |cols| => UpdateItem(cols[i].name)),
      seq(|cols|, i requires 0 <= i < |cols| => cols[i].name),
      seq(|cols|, i requires 0 <= i < |cols| => ValueItem(cols[i].name)))
  }

  /** The statement up to the WHEN arms: the deduplicating subquery and the
      join condition. */
  function MergeHead(table: string, stageName: string, filePath: string, l: MergeLists): string {
    "MERGE INTO " + table + " AS T USING\n\t\t(\n\t\t\tSELECT\n\t\t\t\t" + Join(l.selectList, ",\n")
    + "\n\t\t\tFROM '@" + stageName + "/" + filePath
    + "'\n\t\t\tQUALIFY row_number() over (partition by " + Join(l.pkColumns, ", ")
    + " order by $4 desc) = 1\n\t\t) AS S\n\t\tON\n\t\t(\n\t\t\t" + Join(l.onConds, " AND ")
    + "\n\t\t)\n\t\t"
  }

  /** The select loop of `GenMergeInto`. */
  method SelectList(cols: seq<TableCol>) returns (selectStat: seq<string>)
    ensures selectStat == MergeListsOf(cols).selectList
  {
    selectStat := [FlagColumn];
    for i := 0 to |cols|
      invariant |selectStat| == i + 1 && selectStat[0] == FlagColumn
      invariant forall k :: 0 <= k < i ==> selectStat[k + 1] == SelectItem(k, cols[k].name)
    {
      selectStat := selectStat + [SelectItem(i, cols[i].name)];
    }
  }

  /** The primary-key loop of `GenMergeInto`: the partition list and the ON
      conditions. */
  method PrimaryKeyLists(cols: seq<TableCol>) returns (pkColumn: seq<string>, onStat: seq<string>)
    ensures pkColumn == MergeListsOf(cols).pkColumns
    ensures onStat == MergeListsOf(cols).onConds
  {
    pkColumn, onStat := [], [];
    for i := 0 to |cols|
      invariant pkColumn == PkNames(cols[..i])
      invariant |onStat| == |pkColumn|
      invariant forall j :: 0 <= j < |pkColumn| ==> onStat[j] == OnCondition(pkColumn[j])
    {
      PkNamesSnoc(cols, i);
      if cols[i].isPK == "true" {
        pkColumn := pkColumn + [cols[i].name];
        onStat := onStat + [OnCondition(cols[i].name)];
      }
    }
    assert cols[..|cols|] == cols;
  }

  /** One more column adds its name when it is part of the key. */
  lemma PkNamesSnoc(cols: seq<TableCol>, i: nat)
    requires i < |cols|
    ensures PkNames(cols[..i + 1]) == PkNames(cols[..i]) + (if cols[i].isPK == "true" then [cols[i].name] else [])
  {
    var longer := cols[..i + 1];
    assert longer[..i] == cols[..i];
    var ps := PkPositions(cols[..i]);
    assert PkPositions(longer) == ps + (if cols[i].isPK == "true" then [i] else []);
    assert forall j :: 0 <= j < |ps| ==> longer[ps[j]] == cols[..i][ps[j]];
  }

  /** `GenMergeInto`: the select, primary-key/ON, update, insert and values
      lists built by append loops, then spliced into the template. */
  method GenMergeInto(tableDef: TableDefinition, filePath: string, stageName: string) returns (mergeQuery: string)
    ensures mergeQuery == MergeSql(tableDef.table, stageName, filePath, MergeListsOf(tableDef.columns))
  {
    var cols := tableDef.columns;
    var selectStat := SelectList(cols);
    var pkColumn, onStat := PrimaryKeyLists(cols);

    var updateStat: seq<string> := [];
    for i := 0 to |cols|
      invariant |updateStat| == i
      invariant forall k :: 0 <= k < i ==> updateStat[k] == UpdateItem(cols[k].name)
    {
      updateStat := updateStat + [UpdateItem(cols[i].name)];
    }

    var insertStat: seq<string> := [];
    for i := 0 to |cols|
      invariant |insertStat| == i
      invariant forall k :: 0 <= k < i ==> insertStat[k] == cols[k].name
    {
      insertStat := insertStat + [cols[i].name];
    }

    var valuesStat: seq<string> := [];
    for i := 0 to |cols|
      invariant |valuesStat| == i
      invariant forall k :: 0 <= k < i ==> valuesStat[k] == ValueItem(cols[k].name)
    {
      valuesStat := valuesStat + [ValueItem(cols[i].name)];
    }

    var lists := MergeLists(selectStat, pkColumn, onStat, updateStat, insertStat, valuesStat);
    ghost var spec := MergeListsOf(cols);
    assert updateStat == spec.updateSet;
    assert insertStat == spec.insertCols;
    assert valuesStat == spec.valuesList;
    mergeQuery := MergeSql(tableDef.table, stageName, filePath, lists);
  }

  // ---------------------------------------------------------------------
  // Properties of the lists

  /** The select list starts with the flag, then projects column `i` from
      CSV column `i + 5`, in column order. */
  lemma SelectListNumbering(cols: seq<TableCol>)
    ensures |MergeListsOf(cols).selectList| == |cols| + 1
    ensures MergeListsOf(cols).selectList[0] == FlagColumn
    ensures forall i :: 0 <= i < |cols| ==>
      exists d :: MergeListsOf(cols).selectList[i + 1] == "$" + d + " AS " + cols[i].name && ParseInt(d) == Some(i + 5)
  {
    var l := MergeListsOf(cols);
    forall i | 0 <= i < |cols|
      ensures exists d :: l.selectList[i + 1] == "$" + d + " AS " + cols[i].name && ParseInt(d) == Some(i + 5)
    {
      IntToStringRoundTrip(i + 5);
      var d := IntToString(i + 5);
      assert l.selectList[i + 1] == "$" + d + " AS " + cols[i].name;
    }
  }

  /** The primary-key list holds exactly the names of the columns flagged
      `IsPK == "true"`. */
  lemma PkNamesExactly(cols: seq<TableCol>, name: string)
    ensures name in PkNames(cols) <==> exists i :: 0 <= i < |cols| && cols[i].isPK == "true" && cols[i].name == name
  {
    var ps := PkPositions(cols);
    var pk := PkNames(cols);
    if name in pk {
      var j :| 0 <= j < |pk| && pk[j] == name;
      assert cols[ps[j]].isPK == "true" && cols[ps[j]].name == name;
    }
    if i :| 0 <= i < |cols| && cols[i].isPK == "true" && cols[i].name == name {
      var j :| 0 <= j < |ps| && ps[j] == i;
      assert pk[j] == name;
    }
  }

  /** With no primary-key column the partition list and the ON condition
      are both empty: the table is not rejected. */
  lemma NoPrimaryKeyEmptyJoin(cols: seq<TableCol>)
    ensures MergeListsOf(cols).pkColumns == [] <==> forall i :: 0 <= i < |cols| ==> cols[i].isPK != "true"
    ensures MergeListsOf(cols).pkColumns == [] ==>
      Join(MergeListsOf(cols).pkColumns, ", ") == "" && Join(MergeListsOf(cols).onConds, " AND ") == ""
  {
    var ps := PkPositions(cols);
    if |ps| > 0 {
      assert cols[ps[0]].isPK == "true";
    }
  }

  /** The ON clause compares target and staged row on every primary-key
      column, in primary-key order. */
  lemma OnMatchesPrimaryKey(cols: seq<TableCol>)
    ensures |MergeListsOf(cols).onConds| == |MergeListsOf(cols).pkColumns|
    ensures forall j :: 0 <= j < |MergeListsOf(cols).pkColumns| ==>
      MergeListsOf(cols).onConds[j] == "T." + MergeListsOf(cols).pkColumns[j] + " = S." + MergeListsOf(cols).pkColumns[j]
  {
  }

  /** UPDATE SET, INSERT and VALUES each hold one entry per column, in
      column order, primary-key columns included. */
  lemma AssignmentListsAligned(cols: seq<TableCol>)
    ensures |MergeListsOf(cols).updateSet| == |MergeListsOf(cols).insertCols| == |MergeListsOf(cols).valuesList| == |cols|
    ensures forall i :: 0 <= i < |cols| ==>
      MergeListsOf(cols).insertCols[i] == cols[i].name
      && MergeListsOf(cols).valuesList[i] == "S." + cols[i].name
      && MergeListsOf(cols).updateSet[i] == cols[i].name + " = S." + cols[i].name
  {
  }

  /** The UPDATE arm rewrites the primary-key columns too. */
  lemma PrimaryKeyColumnsUpdated(cols: seq<TableCol>, name: string)
    requires name in PkNames(cols)
    ensures name + " = S." + name in MergeListsOf(cols).updateSet
  {
    PkNamesExactly(cols, name);
    var i :| 0 <= i < |cols| && cols[i].isPK == "true" && cols[i].name == name;
    assert MergeListsOf(cols).updateSet[i] == name + " = S." + name;
  }

  // ---------------------------------------------------------------------
  // The WHEN arms

  datatype MergeAction = UpdateSet | DeleteRow | InsertRow

  /** `WHEN [NOT] MATCHED AND S.METADATA$FLAG (=|!=) 'D' THEN action`. */
  datatype WhenArm = WhenArm(matched: bool, deleteFlag: bool, action: MergeAction)

  /** The arms of the statement, in order. */
  const MergeArms: seq<WhenArm> :=
    [WhenArm(true, false, UpdateSet), WhenArm(true, true, DeleteRow), WhenArm(false, false, InsertRow)]

  predicate ArmApplies(arm: WhenArm, matched: bool, flag: string) {
    arm.matched == matched && arm.deleteFlag == (flag == "D")
  }

  /** The action of the first arm whose condition holds, if any. */
  function ArmFor(arms: seq<WhenArm>, matched: bool, flag: string): (r: Option<MergeAction>)
    ensures r.None? <==> forall k :: 0 <= k < |arms| ==> !ArmApplies(arms[k], matched, flag)
    ensures r.Some? ==> exists k :: 0 <= k < |arms| && ArmApplies(arms[k], matched, flag) && arms[k].action == r.value
  {
    if arms == [] then None
    else if ArmApplies(arms[0], matched, flag) then Some(arms[0].action)
    else
      var r := ArmFor(arms[1..], matched, flag);
      assert forall k :: 1 <= k < |arms| ==> arms[k] == arms[1..][k - 1];
      r
  }

  /** A matched staged row updates or deletes by its flag; an unmatched one
      is inserted unless it is a delete, which no arm handles. */
  lemma {:induction false} MergeArmsChoice(matched: bool, flag: string)
    ensures ArmFor(MergeArms, matched, flag) ==
      if matched then Some(if flag == "D" then DeleteRow else UpdateSet)
      else if flag != "D" then Some(InsertRow)
      else None
  {
    var tail := [WhenArm(true, true, DeleteRow), WhenArm(false, false, InsertRow)];
    var last := [WhenArm(false, false, InsertRow)];
    assert MergeArms[1..] == tail && tail[1..] == last && last[1..] == [];
    assert ArmFor(last, matched, flag) == if !matched && flag != "D" then Some(InsertRow) else None;
    assert ArmFor(tail, matched, flag) == if matched && flag == "D" then Some(DeleteRow) else ArmFor(last, matched, flag);
  }

  function ActionText(action: MergeAction, l: MergeLists): string {
    match action
    case UpdateSet => "UPDATE SET " + Join(l.updateSet, ", ")
    case DeleteRow => "DELETE"
    case InsertRow => "INSERT (" + Join(l.insertCols, ", ") + ") VALUES (" + Join(l.valuesList, ", ") + ")"
  }

  function ArmText(arm: WhenArm, l: MergeLists): string {
    "WHEN " + (if arm.matched then "MATCHED" else "NOT MATCHED") + " AND S.METADATA$FLAG "
    + (if arm.deleteFlag then "=" else "!=") + " 'D' THEN " + ActionText(arm.action, l)
  }

  /** The statement text of the format string in `GenMergeInto`: the head,
      then the arms of `MergeArms`, one per line, in order. */
  function MergeSql(table: string, stageName: string, filePath: string, l: MergeLists): string {
    MergeHead(table, stageName, filePath, l)
    + Join([ArmText(MergeArms[0], l), ArmText(MergeArms[1], l), ArmText(MergeArms[2], l)], "\n\t\t") + ";"
  }
}
