/** Redshift DDL translation (pkg/redshiftsql/ddl.go): a table-change event
    becomes an ordered list of TRUNCATE / DROP / ALTER statements, or an error. */
module RedshiftDdl {
  import opened Wrappers
  import opened Text
  import opened TableDefs

  /** One entry of the column diff computed by `tidbsql.GetColumnDiff`; each
      action carries exactly the descriptors the Go code dereferences. */
  datatype ColumnDiff =
    | AddColumn(after: TableCol)
    | DropColumn(before: TableCol)
    | ModifyColumn(before: TableCol, after: TableCol)
    | RenameColumn(before: TableCol, after: TableCol)
    | Unchanged(before: TableCol, after: TableCol)

  /** The functions this file calls but that are not part of the model:
      `tidbsql.GetColumnDiff`, `GetRedshiftTypeString` and whether
      `strconv.ParseFloat` accepts a text. */
  datatype Callees = Callees(
    columnDiff: (seq<TableCol>, seq<TableCol>) -> Result<seq<ColumnDiff>>,
    typeString: TableCol -> Result<string>,
    parsesAsFloat: string -> bool)

  const CreateTableError := "Received create table ddl, which should not happen"
  const RenameTablesError := "Received rename table ddl, new change data can not be capture by TiCDC any more."
    + "If you want to rename table, please start a new task to capture the new table"
  const CreateSchemaError := "Received create schema ddl, which should not happen"
  const ModifyColumnError := "Received modify column ddl, which is not supported by redshift yet"

  /** The actions answered without looking at the columns. */
  predicate IsStructural(action: ActionType) {
    action.ActionTruncateTable? || action.ActionDropTable? || action.ActionCreateTable?
    || action.ActionRenameTables? || action.ActionDropSchema? || action.ActionCreateSchema?
  }

  // ---------------------------------------------------------------------
  // Column rendering: `<type> [NOT NULL] [DEFAULT ...]`

  /** What follows the type in a column definition. */
  function ColumnSuffix(col: TableCol, parsesAsFloat: string -> bool): (s: string)
    ensures col.nullable == "false" <==> HasPrefix(s, " NOT NULL")
    ensures col.default.Some? ==>
      HasSuffix(s, " DEFAULT " + DefaultLiteral(col.default.value, parsesAsFloat))
    ensures col.default.None? ==> (HasSuffix(s, " DEFAULT NULL") <==> col.nullable == "true")
    ensures col.default.None? && col.nullable != "true" && col.nullable != "false" ==> s == ""
  {
    var nullPart := if col.nullable == "false" then " NOT NULL" else "";
    var defaultPart :=
      if col.default.Some? then " DEFAULT " + DefaultLiteral(col.default.value, parsesAsFloat)
      else if col.nullable == "true" then " DEFAULT NULL"
      else "";
    assert defaultPart != "" ==> defaultPart[1] == 'D';
    assert HasPrefix(nullPart + defaultPart, " NOT NULL") ==> (nullPart + defaultPart)[1] == 'N';
    nullPart + defaultPart
  }

  /** The column text `GetRedshiftColumnString` produces. */
  function ColumnString(col: TableCol, callees: Callees): (r: Result<string>)
    ensures callees.typeString(col).Err? <==> r.Err?
    ensures r.Err? ==> r.error == callees.typeString(col).error
    ensures r.Ok? ==> r.value == callees.typeString(col).value + ColumnSuffix(col, callees.parsesAsFloat)
  {
    match callees.typeString(col)
    case Err(e) => Err(e)
    case Ok(t) => Ok(t + ColumnSuffix(col, callees.parsesAsFloat))
  }

  /** `GetRedshiftColumnString`: writes the type, then the NOT NULL and
      DEFAULT parts, into a builder. */
  method GetRedshiftColumnString(col: TableCol, callees: Callees) returns (r: Result<string>)
    ensures r == ColumnString(col, callees)
  {
    var typeStr := callees.typeString(col);
    if typeStr.Err? {
      return Err(typeStr.error);
    }
    var sb := typeStr.value;
    if col.nullable == "false" {
      sb := sb + " NOT NULL";
    }
    if col.default.Some? {
      sb := sb + " DEFAULT " + DefaultLiteral(col.default.value, callees.parsesAsFloat);
    } else if col.nullable == "true" {
      sb := sb + " DEFAULT NULL";
    }
    assert sb == typeStr.value + ColumnSuffix(col, callees.parsesAsFloat);
    return Ok(sb);
  }

  // ---------------------------------------------------------------------
  // Column modification clauses

  predicate TypeChanged(before: TableCol, after: TableCol) {
    before.tp != after.tp || before.precision != after.precision || before.scale != after.scale
  }

  /** The clauses `GetColumnModifyString` joins, once the new type rendered. */
  function ModifyClauses(before: TableCol, after: TableCol, typeStr: string): (r: seq<string>)
    ensures |r| <= 3
    ensures forall i :: 0 <= i < |r| ==> HasPrefix(r[i], "COLUMN ")
    ensures r == [] <==>
      !TypeChanged(before, after)
      && (before.default == after.default || after.default.Some?)
      && before.nullable == after.nullable
    ensures before.nullable != after.nullable ==>
      r[|r| - 1] == "COLUMN " + after.name + (if after.nullable == "true" then " DROP NOT NULL" else " SET NOT NULL")
  {
    (if TypeChanged(before, after) then ["COLUMN " + typeStr] else [])
    + (if before.default != after.default && after.default.None? then ["COLUMN " + after.name + " DROP DEFAULT"] else [])
    + (if before.nullable != after.nullable then
         ["COLUMN " + after.name + (if after.nullable == "true" then " DROP NOT NULL" else " SET NOT NULL")]
       else [])
  }

  lemma JoinNonEmptyParts(parts: seq<string>, sep: string)
    requires forall i :: 0 <= i < |parts| ==> |parts[i]| > 0
    ensures Join(parts, sep) == "" <==> parts == []
  {
  }

  /** `GetColumnModifyString`: the ALTER clauses for a MODIFY entry, joined by
      ", ". A changed non-nil default only raises the warning `warned`. */
  method GetColumnModifyString(before: TableCol, after: TableCol, typeString: TableCol -> Result<string>)
    returns (r: Result<string>, warned: bool)
    ensures TypeChanged(before, after) && typeString(after).Err? ==>
      r == Err(typeString(after).error) && !warned
    ensures !(TypeChanged(before, after) && typeString(after).Err?) ==>
      r.Ok? && r.value == Join(ModifyClauses(before, after, typeString(after).GetOr("")), ", ")
    ensures r.Ok? ==> (warned <==> before.default != after.default && after.default.Some?)
    ensures r.Ok? ==> (r.value == "" <==>
      !TypeChanged(before, after)
      && (before.default == after.default || after.default.Some?)
      && before.nullable == after.nullable)
  {
    var strs: seq<string> := [];
    warned := false;
    var typeStr := typeString(after);
    if TypeChanged(before, after) {
      if typeStr.Err? {
        return Err(typeStr.error), false;
      }
      strs := strs + ["COLUMN " + typeStr.value];
    }
    if before.default != after.default {
      if after.default.None? {
        strs := strs + ["COLUMN " + after.name + " DROP DEFAULT"];
      } else {
        warned := true;
      }
    }
    if before.nullable != after.nullable {
      if after.nullable == "true" {
        strs := strs + ["COLUMN " + after.name + " DROP NOT NULL"];
      } else {
        strs := strs + ["COLUMN " + after.name + " SET NOT NULL"];
      }
    }
    assert strs == ModifyClauses(before, after, typeStr.GetOr(""));
    JoinNonEmptyParts(strs, ", ");
    r := Ok(Join(strs, ", "));
  }

  // ---------------------------------------------------------------------
  // DDL for a table-change event

  /** The statements one diff entry yields: one ALTER for ADD, DROP and
      RENAME, none for UNCHANGED, an error for MODIFY. */
  function EntryStatements(table: string, d: ColumnDiff, callees: Callees): Result<seq<string>> {
    match d
    case AddColumn(after) =>
      (match ColumnString(after, callees)
       case Err(e) => Err(e)
       case Ok(colStr) => Ok(["ALTER TABLE " + table + " ADD COLUMN " + colStr + ";"]))
    case DropColumn(before) => Ok(["ALTER TABLE " + table + " DROP COLUMN " + before.name + ";"])
    case ModifyColumn(_, _) => Err(ModifyColumnError)
    case RenameColumn(before, after) =>
      Ok(["ALTER TABLE " + table + " RENAME COLUMN " + before.name + " TO " + after.name + ";"])
    case Unchanged(_, _) => Ok([])
  }

  /** The statements of a whole diff: the first failing entry's error, or
      every entry's statements in diff order. */
  function DiffStatements(table: string, diffs: seq<ColumnDiff>, callees: Callees): Result<seq<string>>
    decreases |diffs|
  {
    if diffs == [] then Ok([])
    else
      match EntryStatements(table, diffs[0], callees)
      case Err(e) => Err(e)
      case Ok(first) =>
        match DiffStatements(table, diffs[1..], callees)
        case Err(e) => Err(e)
        case Ok(rest) => Ok(first + rest)
  }

  /** `done` followed by the statements of a successful rest. */
  function PrependOk(done: seq<string>, r: Result<seq<string>>): Result<seq<string>> {
    match r
    case Err(e) => Err(e)
    case Ok(rest) => Ok(done + rest)
  }

  lemma PrependOkNothing(r: Result<seq<string>>)
    ensures PrependOk([], r) == r
  {
    if r.Ok? {
      assert [] + r.value == r.value;
    }
  }

  lemma PrependOkTwice(a: seq<string>, b: seq<string>, r: Result<seq<string>>)
    ensures PrependOk(a, PrependOk(b, r)) == PrependOk(a + b, r)
  {
    if r.Ok? {
      assert a + (b + r.value) == (a + b) + r.value;
    }
  }

  /** The statements from entry `i` on: those of entry `i`, then the rest's. */
  lemma DiffStatementsUnfold(table: string, diffs: seq<ColumnDiff>, i: nat, callees: Callees)
    requires i < |diffs|
    ensures var entry := EntryStatements(table, diffs[i], callees);
      DiffStatements(table, diffs[i..], callees) ==
        if entry.Err? then Err(entry.error) else PrependOk(entry.value, DiffStatements(table, diffs[i + 1..], callees))
  {
    assert diffs[i..][1..] == diffs[i + 1..];
  }

  /** The entries that yield a statement. */
  function Emitting(diffs: seq<ColumnDiff>): (r: seq<ColumnDiff>)
    ensures |r| <= |diffs|
  {
    if diffs == [] then []
    else if diffs[0].Unchanged? || diffs[0].ModifyColumn? then Emitting(diffs[1..])
    else [diffs[0]] + Emitting(diffs[1..])
  }

  lemma EmittingUnfold(diffs: seq<ColumnDiff>)
    requires diffs != []
    ensures Emitting(diffs) ==
      if diffs[0].Unchanged? || diffs[0].ModifyColumn? then Emitting(diffs[1..])
      else [diffs[0]] + Emitting(diffs[1..])
  {
  }

  /** An entry that renders: no MODIFY, and every added column's type known. */
  predicate Renders(d: ColumnDiff, callees: Callees) {
    !d.ModifyColumn? && (d.AddColumn? ==> callees.typeString(d.after).Ok?)
  }

  /** The whole diff translates iff every entry renders; in particular one
      MODIFY entry anywhere makes the whole call fail. */
  lemma {:induction false} DiffStatementsOkIff(table: string, diffs: seq<ColumnDiff>, callees: Callees)
    ensures DiffStatements(table, diffs, callees).Ok? <==>
      forall i :: 0 <= i < |diffs| ==> Renders(diffs[i], callees)
  {
    if diffs != [] {
      DiffStatementsOkIff(table, diffs[1..], callees);
      assert forall i :: 1 <= i < |diffs| ==> diffs[i] == diffs[1..][i - 1];
    }
  }

  /** A MODIFY entry makes the translation fail, whatever precedes it. */
  lemma ModifyEntryFails(table: string, diffs: seq<ColumnDiff>, callees: Callees, i: nat)
    requires i < |diffs| && diffs[i].ModifyColumn?
    ensures DiffStatements(table, diffs, callees).Err?
  {
    DiffStatementsOkIff(table, diffs, callees);
  }

  /** On success, the k-th statement is the one of the k-th entry that yields
      a statement: diff order is kept and UNCHANGED entries are skipped. */
  lemma {:induction false} DiffStatementsInOrder(table: string, diffs: seq<ColumnDiff>, callees: Callees)
    requires DiffStatements(table, diffs, callees).Ok?
    ensures var ds := DiffStatements(table, diffs, callees).value;
      |ds| == |Emitting(diffs)| <= |diffs|
      && forall k :: 0 <= k < |ds| ==> EntryStatements(table, Emitting(diffs)[k], callees) == Ok([ds[k]])
  {
    if diffs != [] {
      DiffStatementsInOrder(table, diffs[1..], callees);
      var ds := DiffStatements(table, diffs, callees).value;
      var first := EntryStatements(table, diffs[0], callees).value;
      var rest := DiffStatements(table, diffs[1..], callees).value;
      assert ds == first + rest;
      EmittingUnfold(diffs);
      if diffs[0].Unchanged? {
        assert first == [];
        EmptyHead(first, rest);
      } else {
        assert first == [ds[0]];
        var emitting, emittingRest := Emitting(diffs), Emitting(diffs[1..]);
        assert emitting == [diffs[0]] + emittingRest;
        assert |ds| == 1 + |rest|;
        forall k | 1 <= k < |ds| {
          ConsIndexPair(first, rest, [diffs[0]], emittingRest, k);
        }
      }
    }
  }

  /** `GenDDLViaColumnsDiff`. Structural actions are answered before the
      column diff is computed; otherwise the diff's entries are translated in
      order, and a MODIFY entry discards what was built so far. */
  method GenDDLViaColumnsDiff(prevColumns: seq<TableCol>, curTableDef: TableDefinition, callees: Callees)
    returns (r: Result<seq<string>>)
    ensures curTableDef.action.ActionTruncateTable? ==> r == Ok(["TRUNCATE TABLE " + curTableDef.table])
    ensures curTableDef.action.ActionDropTable? ==> r == Ok(["DROP TABLE " + curTableDef.table])
    ensures curTableDef.action.ActionCreateTable? ==> r == Err(CreateTableError)
    ensures curTableDef.action.ActionRenameTables? ==> r == Err(RenameTablesError)
    ensures curTableDef.action.ActionDropSchema? ==> r == Ok(["DROP SCHEMA " + curTableDef.schema + " CASCADE"])
    ensures curTableDef.action.ActionCreateSchema? ==> r == Err(CreateSchemaError)
    ensures !IsStructural(curTableDef.action) ==>
      var columnDiff := callees.columnDiff(prevColumns, curTableDef.columns);
      r == (if columnDiff.Err? then Err(columnDiff.error) else DiffStatements(curTableDef.table, columnDiff.value, callees))
  {
    var table := curTableDef.table;
    match curTableDef.action {
      case ActionTruncateTable => return Ok(["TRUNCATE TABLE " + table]);
      case ActionDropTable => return Ok(["DROP TABLE " + table]);
      case ActionCreateTable => return Err(CreateTableError);
      case ActionRenameTables => return Err(RenameTablesError);
      case ActionDropSchema => return Ok(["DROP SCHEMA " + curTableDef.schema + " CASCADE"]);
      case ActionCreateSchema => return Err(CreateSchemaError);
      case _ =>
    }
    var columnDiff := callees.columnDiff(prevColumns, curTableDef.columns);
    if columnDiff.Err? {
      return Err(columnDiff.error);
    }
    r := TranslateDiff(table, columnDiff.value, callees);
  }

  /** The body of the loop of `GenDDLViaColumnsDiff` for one entry: the
      statement before its `;`, empty for UNCHANGED. */
  method EntryDdl(table: string, item: ColumnDiff, callees: Callees) returns (r: Result<string>)
    ensures r.Err? <==> EntryStatements(table, item, callees).Err?
    ensures r.Err? ==> r.error == EntryStatements(table, item, callees).error
    ensures r.Ok? ==> EntryStatements(table, item, callees) == (if r.value == "" then Ok([]) else Ok([r.value + ";"]))
  {
    var ddl := "";
    EmptyAppend("ALTER TABLE ");
    match item {
      case AddColumn(after) =>
        ddl := ddl + "ALTER TABLE " + table + " ADD COLUMN ";
        var colStr := GetRedshiftColumnString(after, callees);
        if colStr.Err? {
          return Err(colStr.error);
        }
        ddl := ddl + colStr.value;
        assert ddl + ";" == "ALTER TABLE " + table + " ADD COLUMN " + colStr.value + ";";
      case DropColumn(before) =>
        ddl := ddl + "ALTER TABLE " + table + " DROP COLUMN " + before.name;
        assert ddl + ";" == "ALTER TABLE " + table + " DROP COLUMN " + before.name + ";";
      case ModifyColumn(_, _) =>
        return Err(ModifyColumnError);
      case RenameColumn(before, after) =>
        ddl := ddl + "ALTER TABLE " + table + " RENAME COLUMN " + before.name + " TO " + after.name;
        assert ddl + ";" == "ALTER TABLE " + table + " RENAME COLUMN " + before.name + " TO " + after.name + ";";
      case Unchanged(_, _) =>
    }
    r := Ok(ddl);
  }

  /** The loop of `GenDDLViaColumnsDiff` over the column diff: one statement
      appended per ADD, DROP or RENAME entry, in diff order. */
  method TranslateDiff(table: string, diffs: seq<ColumnDiff>, callees: Callees) returns (r: Result<seq<string>>)
    ensures r == DiffStatements(table, diffs, callees)
  {
    var ddls: seq<string> := [];
    var i := 0;
    assert diffs[0..] == diffs;
    PrependOkNothing(DiffStatements(table, diffs, callees));
    while i < |diffs|
      invariant 0 <= i <= |diffs|
      invariant DiffStatements(table, diffs, callees) == PrependOk(ddls, DiffStatements(table, diffs[i..], callees))
    {
      DiffStatementsUnfold(table, diffs, i, callees);
      var ddl := EntryDdl(table, diffs[i], callees);
      if ddl.Err? {
        return Err(ddl.error);
      }
      var stmts := if ddl.value != "" then [ddl.value + ";"] else [];
      PrependOkTwice(ddls, stmts, DiffStatements(table, diffs[i + 1..], callees));
      ddls := ddls + stmts;
      i := i + 1;
    }
    assert diffs[i..] == [];
    assert ddls + [] == ddls;
    return Ok(ddls);
  }

  // ---------------------------------------------------------------------
  // information_schema row to column descriptor

  /** The first present value among numeric precision, datetime precision
      and character length. */
  function PrecisionSource(row: ColumnInfo): Option<int> {
    if row.numPrecision.Some? then row.numPrecision
    else if row.dateTimePrec.Some? then row.dateTimePrec
    else row.charMaxLength
  }

  function OptionalIntString(v: Option<int>): string {
    if v.Some? then IntToString(v.value) else ""
  }

  lemma OptionalIntStringRoundTrip(v: Option<int>)
    ensures ParseInt(OptionalIntString(v)) == v
  {
    if v.Some? {
      IntToStringRoundTrip(v.value);
    }
  }

  /** The descriptor `GetRedshiftTableColumn` builds from one row. */
  function TableColOfRow(row: ColumnInfo): TableCol {
    TableCol(
      row.columnName,
      row.dataType,
      row.columnDefault,
      OptionalIntString(PrecisionSource(row)),
      OptionalIntString(row.numScale),
      if row.isNullable == "YES" then "true" else "false",
      "")
  }

  /** Precision and scale read back as the numbers they came from,
      nullability is "true" exactly for IS_NULLABLE = "YES". */
  lemma TableColOfRowFields(row: ColumnInfo)
    ensures var c := TableColOfRow(row);
      && c.name == row.columnName && c.tp == row.dataType && c.default == row.columnDefault
      && ParseInt(c.precision) == PrecisionSource(row)
      && ParseInt(c.scale) == row.numScale
      && (c.nullable == "true" <==> row.isNullable == "YES")
      && (c.nullable == "true" || c.nullable == "false")
      && c.isPK == ""
  {
    OptionalIntStringRoundTrip(PrecisionSource(row));
    OptionalIntStringRoundTrip(row.numScale);
  }

  /** The body of the scanning loop of `GetRedshiftTableColumn` for one row. */
  method ColumnOfRow(column: ColumnInfo) returns (tableCol: TableCol)
    ensures tableCol == TableColOfRow(column)
  {
    var precision, scale, nullable := "", "", "";
    if column.numPrecision.Some? {
      precision := IntToString(column.numPrecision.value);
    } else if column.dateTimePrec.Some? {
      precision := IntToString(column.dateTimePrec.value);
    } else if column.charMaxLength.Some? {
      precision := IntToString(column.charMaxLength.value);
    }
    if column.numScale.Some? {
      scale := IntToString(column.numScale.value);
    }
    if column.isNullable == "YES" {
      nullable := "true";
    } else {
      nullable := "false";
    }
    tableCol := TableCol(column.columnName, column.dataType, column.columnDefault, precision, scale, nullable, "");
  }

  /** `GetRedshiftTableColumn` once the query's rows are scanned: one
      descriptor per row, in row order. */
  method GetRedshiftTableColumn(rows: seq<ColumnInfo>) returns (tableColumns: seq<TableCol>)
    ensures |tableColumns| == |rows|
    ensures forall i :: 0 <= i < |rows| ==> tableColumns[i] == TableColOfRow(rows[i])
  {
    tableColumns := [];
    for i := 0 to |rows|
      invariant |tableColumns| == i
      invariant forall j :: 0 <= j < i ==> tableColumns[j] == TableColOfRow(rows[j])
    {
      var tableCol := ColumnOfRow(rows[i]);
      tableColumns := tableColumns + [tableCol];
    }
  }
}
