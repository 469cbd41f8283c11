/** Snowflake SQL generation (snowsql/sql.go): the CREATE TABLE statement
    built from `information_schema` and `SHOW INDEX` rows, and the
    dedup-then-merge statement applied to each batch of change files. */
module SnowSql {
  import opened Wrappers
  import opened Text
  import opened TableDefs

  // ---------------------------------------------------------------------
  // Primary-key columns from SHOW INDEX

  /** One `SHOW INDEX` row, reduced to KEY_NAME, COLUMN_NAME and SEQ_IN_INDEX,
      all as strings. */
  datatype IndexRow = IndexRow(keyName: string, columnName: string, seqInIndex: string)

  /** The comparator handed to `slices.SortFunc`: by key name, then by
      sequence in index, both compared as strings. */
  predicate RowLess(a: IndexRow, b: IndexRow) {
    if a.keyName == b.keyName then Less(a.seqInIndex, b.seqInIndex) else Less(a.keyName, b.keyName)
  }

  /** No row is followed by one the comparator puts strictly before it. */
  ghost predicate SortedRows(s: seq<IndexRow>) {
    forall i, j :: 0 <= i < j < |s| ==> !RowLess(s[j], s[i])
  }

  lemma RowLessAsymmetric(a: IndexRow, b: IndexRow)
    ensures !(RowLess(a, b) && RowLess(b, a))
  {
    LessAsymmetric(a.seqInIndex, b.seqInIndex);
    LessAsymmetric(a.keyName, b.keyName);
  }

  /** "Not before" is transitive: the comparator is a strict weak order. */
  lemma RowNotLessTransitive(a: IndexRow, b: IndexRow, c: IndexRow)
    requires !RowLess(b, a) && !RowLess(c, b)
    ensures !RowLess(c, a)
  {
    LessTotal(a.keyName, b.keyName);
    LessTotal(b.keyName, c.keyName);
    LessTotal(a.seqInIndex, b.seqInIndex);
    LessTotal(b.seqInIndex, c.seqInIndex);
    if RowLess(c, a) {
      if c.keyName == a.keyName {
        if b.keyName == a.keyName {
          LessTransitive(c.seqInIndex, a.seqInIndex, b.seqInIndex);
        } else {
          LessTransitive(a.keyName, b.keyName, c.keyName);
          LessIrreflexive(a.keyName);
        }
      } else {
        if b.keyName == a.keyName {
          LessIrreflexive(b.keyName);
        } else if b.keyName == c.keyName {
          LessIrreflexive(b.keyName);
        } else {
          LessTransitive(c.keyName, a.keyName, b.keyName);
        }
      }
    }
  }

  /** `slices.SortFunc(indexResults, ...)`: sorts the rows in place. */
  method SortIndexRows(a: array<IndexRow>)
    modifies a
    ensures SortedRows(a[..])
    ensures multiset(a[..]) == old(multiset(a[..]))
  {
    if a.Length == 0 {
      return;
    }
    for i := 1 to a.Length
      invariant forall k, l :: 0 <= k < l < i ==> !RowLess(a[l], a[k])
      invariant multiset(a[..]) == old(multiset(a[..]))
    {
      InsertLast(a, i);
    }
  }

  /** One step of the sort: the row at `i` moves down past every row the
      comparator puts after it, so the first `i + 1` rows are in order. */
  method InsertLast(a: array<IndexRow>, i: nat)
    requires i < a.Length
    requires forall k, l :: 0 <= k < l < i ==> !RowLess(a[l], a[k])
    modifies a
    ensures forall k, l :: 0 <= k < l <= i ==> !RowLess(a[l], a[k])
    ensures forall k :: i < k < a.Length ==> a[k] == old(a[k])
    ensures multiset(a[..]) == old(multiset(a[..]))
  {
    var j := i;
    while j > 0 && RowLess(a[j], a[j - 1])
      invariant 0 <= j <= i
      invariant forall k, l :: 0 <= k < l <= i && k != j && l != j ==> !RowLess(a[l], a[k])
      invariant forall l :: j < l <= i ==> !RowLess(a[l], a[j])
      invariant forall k :: i < k < a.Length ==> a[k] == old(a[k])
      invariant multiset(a[..]) == old(multiset(a[..]))
    {
      RowLessAsymmetric(a[j], a[j - 1]);
      SwapAdjacent(a, j);
      j := j - 1;
    }
    forall k, l | 0 <= k < l <= i
      ensures !RowLess(a[l], a[k])
    {
      if l == j && k < j - 1 {
        RowNotLessTransitive(a[k], a[j - 1], a[j]);
      }
    }
  }

  /** Exchanges the rows at `j - 1` and `j`, leaving the others alone. */
  method SwapAdjacent(a: array<IndexRow>, j: nat)
    requires 0 < j < a.Length
    modifies a
    ensures a[j - 1] == old(a[j]) && a[j] == old(a[j - 1])
    ensures forall k :: 0 <= k < a.Length && k != j - 1 && k != j ==> a[k] == old(a[k])
    ensures multiset(a[..]) == old(multiset(a[..]))
  {
    a[j - 1], a[j] := a[j], a[j - 1];
  }

  /** The rows of the PRIMARY key, in the order given. */
  function PrimaryRows(s: seq<IndexRow>): (r: seq<IndexRow>)
    ensures forall i :: 0 <= i < |r| ==> r[i].keyName == "PRIMARY" && r[i] in s
  {
    if s == [] then []
    else if s[0].keyName == "PRIMARY" then [s[0]] + PrimaryRows(s[1..])
    else PrimaryRows(s[1..])
  }

  /** Filtering keeps every PRIMARY row as often as it occurs, and no other. */
  lemma {:induction false} PrimaryRowsCount(s: seq<IndexRow>, x: IndexRow)
    ensures multiset(PrimaryRows(s))[x] == if x.keyName == "PRIMARY" then multiset(s)[x] else 0
  {
    if s != [] {
      PrimaryRowsCount(s[1..], x);
      assert s == [s[0]] + s[1..];
    }
  }

  lemma PrimaryRowsOfPermutation(s: seq<IndexRow>, t: seq<IndexRow>)
    requires multiset(s) == multiset(t)
    ensures multiset(PrimaryRows(s)) == multiset(PrimaryRows(t))
  {
    forall x
      ensures multiset(PrimaryRows(s))[x] == multiset(PrimaryRows(t))[x]
    {
      PrimaryRowsCount(s, x);
      PrimaryRowsCount(t, x);
    }
  }

  /** Filtering a sorted sequence leaves it sorted. */
  lemma {:induction false} PrimaryRowsSorted(s: seq<IndexRow>)
    requires SortedRows(s)
    ensures SortedRows(PrimaryRows(s))
  {
    if s != [] {
      PrimaryRowsSorted(s[1..]);
      var rest := PrimaryRows(s[1..]);
      forall j | 0 <= j < |rest|
        ensures !RowLess(rest[j], s[0])
      {
        var m :| 0 <= m < |s[1..]| && s[1..][m] == rest[j];
        assert s[m + 1] == rest[j];
      }
    }
  }

  function ColumnNames(rows: seq<IndexRow>): (names: seq<string>)
    ensures |names| == |rows|
    ensures forall i :: 0 <= i < |rows| ==> names[i] == rows[i].columnName
  {
    seq(|rows|, i requires 0 <= i < |rows| => rows[i].columnName)
  }

  /** `pkRows` are exactly the PRIMARY rows of the index listing, in the
      comparator's order: SEQ_IN_INDEX compared as text. */
  ghost predicate PrimaryKeyOrder(indexResults: seq<IndexRow>, pkRows: seq<IndexRow>) {
    multiset(pkRows) == multiset(PrimaryRows(indexResults)) && SortedRows(pkRows)
  }

  /** SEQ_IN_INDEX is compared as text, so in a key of ten or more columns
      the tenth column comes before the second: "10" sorts before "2". */
  lemma TenthKeyColumnBeforeSecond(pkRows: seq<IndexRow>)
    ensures PrimaryKeyOrder([IndexRow("PRIMARY", "k2", "2"), IndexRow("PRIMARY", "k10", "10")], pkRows)
            <==> pkRows == [IndexRow("PRIMARY", "k10", "10"), IndexRow("PRIMARY", "k2", "2")]
  {
    var second, tenth := IndexRow("PRIMARY", "k2", "2"), IndexRow("PRIMARY", "k10", "10");
    var listing := [second, tenth];
    assert listing[1..] == [tenth] && [tenth][1..] == [];
    assert PrimaryRows([tenth]) == [tenth];
    assert PrimaryRows(listing) == [second] + PrimaryRows([tenth]);
    assert RowLess(tenth, second);
    TwoRowsInOrder(pkRows, tenth, second);
  }

  /** Two distinct rows, the first strictly before the second, are sorted
      in one way only. */
  lemma TwoRowsInOrder(pkRows: seq<IndexRow>, a: IndexRow, b: IndexRow)
    requires RowLess(a, b)
    ensures multiset(pkRows) == multiset{b, a} && SortedRows(pkRows) <==> pkRows == [a, b]
  {
    RowLessAsymmetric(a, b);
    if multiset(pkRows) == multiset{b, a} && SortedRows(pkRows) {
      assert |pkRows| == 2;
      assert pkRows == [pkRows[0], pkRows[1]];
      assert pkRows[0] in multiset{b, a} && pkRows[1] in multiset{b, a};
      assert !RowLess(pkRows[1], pkRows[0]);
      assert multiset{pkRows[0], pkRows[1]} - multiset{a} == multiset{b};
    }
    if pkRows == [a, b] {
      assert multiset(pkRows) == multiset{a, b};
    }
  }

  /** The PRIMARY KEY columns of `GenCreateSchema`: sort the listing, then
      keep the column names of the PRIMARY rows. */
  method PrimaryKeyColumns(indexResults: seq<IndexRow>) returns (pkColumns: seq<string>, ghost pkRows: seq<IndexRow>)
    ensures PrimaryKeyOrder(indexResults, pkRows)
    ensures pkColumns == ColumnNames(pkRows)
  {
    var a := new IndexRow[|indexResults|](i requires 0 <= i < |indexResults| => indexResults[i]);
    assert a[..] == indexResults;
    SortIndexRows(a);
    ghost var sorted := a[..];
    pkColumns := [];
    pkRows := [];
    for i := 0 to a.Length
      invariant a[..] == sorted
      invariant pkRows == PrimaryRows(a[..i])
      invariant pkColumns == ColumnNames(pkRows)
    {
      PrimaryRowsAppend(a[..i], a[i]);
      assert a[..i + 1] == a[..i] + [a[i]];
      var keyName, columnName := a[i].keyName, a[i].columnName;
      if keyName == "PRIMARY" {
        pkColumns := pkColumns + [columnName];
        pkRows := pkRows + [a[i]];
      }
    }
    assert a[..a.Length] == a[..];
    PrimaryRowsOfPermutation(a[..], indexResults);
    PrimaryRowsSorted(a[..]);
  }

  lemma {:induction false} PrimaryRowsAppend(s: seq<IndexRow>, x: IndexRow)
    ensures PrimaryRows(s + [x]) == PrimaryRows(s) + (if x.keyName == "PRIMARY" then [x] else [])
  {
    if s == [] {
      assert [] + [x] == [x];
    } else {
      assert (s + [x])[1..] == s[1..] + [x];
      PrimaryRowsAppend(s[1..], x);
    }
  }

  // ---------------------------------------------------------------------
  // Column definitions of CREATE TABLE

  const TextTypes: set<string> :=
    {"text", "longtext", "mediumtext", "tinytext", "blob", "longblob", "mediumblob", "tinyblob"}
  const LengthTypes: set<string> := {"varchar", "char", "binary", "varbinary"}
  const IntTypes: set<string> := {"int", "mediumint"}
  const SameNameTypes: set<string> := {"bigint", "tinyint", "smallint", "float", "double"}
  const DecimalTypes: set<string> := {"decimal", "numeric"}
  const BoolTypes: set<string> := {"bool", "boolean"}
  const TimeTypes: set<string> := {"datetime", "timestamp", "time"}
  const SupportedTypes: set<string> :=
    TextTypes + LengthTypes + IntTypes + SameNameTypes + DecimalTypes + BoolTypes + {"date"} + TimeTypes

  /** The `name TYPE` part of a column definition, the report of an
      unsupported type (which leaves it empty), or the nil pointer a
      parameterised type would dereference. */
  datatype TypeClause = Rendered(text: string) | Unsupported | NilField(field: string)

  function Parenthesised(n: int): string {
    "(" + IntToString(n) + ")"
  }

  /** The MySQL to Snowflake type mapping of `GenCreateSchema`. */
  function ColumnTypeClause(col: ColumnInfo): (r: TypeClause)
    ensures r.Rendered? ==> HasPrefix(r.text, col.columnName + " ")
  {
    var name, dt := col.columnName, col.dataType;
    if dt in TextTypes then Rendered(name + " " + "TEXT")
    else if dt in LengthTypes then
      (if col.charMaxLength.None? then NilField("CHARACTER_MAXIMUM_LENGTH")
       else Rendered(name + " " + ToUpper(dt) + Parenthesised(col.charMaxLength.value)))
    else if dt in IntTypes then Rendered(name + " " + "INT")
    else if dt in SameNameTypes then Rendered(name + " " + ToUpper(dt))
    else if dt in DecimalTypes then
      (if col.numPrecision.None? then NilField("NUMERIC_PRECISION")
       else if col.numScale.None? then NilField("NUMERIC_SCALE")
       else Rendered(name + " " + ToUpper(dt) + "(" + IntToString(col.numPrecision.value) + ", "
                     + IntToString(col.numScale.value) + ")"))
    else if dt in BoolTypes then Rendered(name + " " + "BOOLEAN")
    else if dt == "date" then Rendered(name + " " + "DATE")
    else if dt in TimeTypes then
      (if col.dateTimePrec.None? then NilField("DATETIME_PRECISION")
       else Rendered(name + " " + ToUpper(dt) + Parenthesised(col.dateTimePrec.value)))
    else Unsupported
  }

  /** A data type is rejected exactly when the mapping does not name it. */
  lemma UnsupportedExactlyUnmapped(col: ColumnInfo)
    ensures ColumnTypeClause(col).Unsupported? <==> col.dataType !in SupportedTypes
  {
    var dt := col.dataType;
    var mapped := dt in TextTypes || dt in LengthTypes || dt in IntTypes || dt in SameNameTypes
      || dt in DecimalTypes || dt in BoolTypes || dt == "date" || dt in TimeTypes;
    assert ColumnTypeClause(col).Unsupported? <==> !mapped;
    assert dt in SupportedTypes <==> mapped;
  }

  /** A missing field is dereferenced exactly when a parameterised type
      lacks its parameter. */
  lemma NilFieldExactlyMissingParameter(col: ColumnInfo)
    ensures ColumnTypeClause(col).NilField? <==>
      (col.dataType in LengthTypes && col.charMaxLength.None?)
      || (col.dataType in DecimalTypes && (col.numPrecision.None? || col.numScale.None?))
      || (col.dataType in TimeTypes && col.dateTimePrec.None?)
  {
  }

  /** How the text, integer and length families are written. */
  lemma FamilyRenderings(col: ColumnInfo)
    ensures col.dataType in TextTypes ==> ColumnTypeClause(col) == Rendered(col.columnName + " TEXT")
    ensures col.dataType in IntTypes ==> ColumnTypeClause(col) == Rendered(col.columnName + " INT")
    ensures col.dataType in LengthTypes && col.charMaxLength.Some? ==>
      ColumnTypeClause(col)
      == Rendered(col.columnName + " " + ToUpper(col.dataType) + Parenthesised(col.charMaxLength.value))
  {
  }

  /** How the numeric families are written. */
  lemma NumericRenderings(col: ColumnInfo)
    ensures col.dataType in SameNameTypes ==>
      ColumnTypeClause(col) == Rendered(col.columnName + " " + ToUpper(col.dataType))
    ensures col.dataType in DecimalTypes && col.numPrecision.Some? && col.numScale.Some? ==>
      ColumnTypeClause(col)
      == Rendered(col.columnName + " " + ToUpper(col.dataType) + "(" + IntToString(col.numPrecision.value) + ", "
                  + IntToString(col.numScale.value) + ")")
  {
    var dt := col.dataType;
    if dt in SameNameTypes || dt in DecimalTypes {
      assert dt !in TextTypes && dt !in LengthTypes && dt !in IntTypes;
    }
  }

  /** How the boolean, date and time families are written. */
  lemma TimeRenderings(col: ColumnInfo)
    ensures col.dataType in BoolTypes ==> ColumnTypeClause(col) == Rendered(col.columnName + " BOOLEAN")
    ensures col.dataType == "date" ==> ColumnTypeClause(col) == Rendered(col.columnName + " DATE")
    ensures col.dataType in TimeTypes && col.dateTimePrec.Some? ==>
      ColumnTypeClause(col)
      == Rendered(col.columnName + " " + ToUpper(col.dataType) + Parenthesised(col.dateTimePrec.value))
  {
    var dt := col.dataType;
    if dt in BoolTypes || dt == "date" || dt in TimeTypes {
      assert dt !in TextTypes && dt !in LengthTypes && dt !in IntTypes && dt !in SameNameTypes && dt !in DecimalTypes;
    }
  }

  /** What follows the type in a CREATE TABLE column definition. The default
      literal is put inside a second pair of quotes. */
  function CreateColumnSuffix(col: ColumnInfo, parsesAsFloat: string -> bool): string {
    NullClause(col) + DefaultClause(col, parsesAsFloat)
  }

  function NullClause(col: ColumnInfo): string {
    if col.isNullable == "false" then " NOT NULL" else ""
  }

  function DefaultClause(col: ColumnInfo, parsesAsFloat: string -> bool): string {
    if col.columnDefault.Some? then " DEFAULT '" + DefaultLiteral(col.columnDefault.value, parsesAsFloat) + "'"
    else if col.isNullable == "true" then " DEFAULT NULL"
    else ""
  }

  /** NOT NULL iff IS_NULLABLE is "false"; the default, or DEFAULT NULL for
      a nullable column without one, closes the suffix. */
  lemma CreateColumnSuffixClauses(col: ColumnInfo, parsesAsFloat: string -> bool)
    ensures col.isNullable == "false" <==> HasPrefix(CreateColumnSuffix(col, parsesAsFloat), " NOT NULL")
    ensures col.columnDefault.Some? ==>
      HasSuffix(CreateColumnSuffix(col, parsesAsFloat),
                " DEFAULT '" + DefaultLiteral(col.columnDefault.value, parsesAsFloat) + "'")
    ensures col.columnDefault.None? ==>
      (HasSuffix(CreateColumnSuffix(col, parsesAsFloat), " DEFAULT NULL") <==> col.isNullable == "true")
  {
    var nullPart, defaultPart := NullClause(col), DefaultClause(col, parsesAsFloat);
    var s := nullPart + defaultPart;
    assert defaultPart != "" ==> defaultPart[1] == 'D';
    assert HasPrefix(s, " NOT NULL") ==> s[1] == 'N';
    assert s[|s| - |defaultPart|..] == defaultPart;
  }

  /** A non-numeric default ends up between two pairs of quotes. */
  lemma NonNumericDefaultQuotedTwice(col: ColumnInfo, parsesAsFloat: string -> bool)
    requires col.columnDefault.Some? && !parsesAsFloat(col.columnDefault.value)
    ensures HasSuffix(CreateColumnSuffix(col, parsesAsFloat), " DEFAULT ''" + col.columnDefault.value + "''")
  {
    var v := col.columnDefault.value;
    assert " DEFAULT '" + DefaultLiteral(v, parsesAsFloat) + "'" == " DEFAULT ''" + v + "''";
  }

  /** With IS_NULLABLE as information_schema spells it ("YES"/"NO") and no
      default, neither NOT NULL nor DEFAULT NULL is written. */
  lemma YesNoNullabilityWritesNothing(col: ColumnInfo, parsesAsFloat: string -> bool)
    requires col.isNullable == "YES" || col.isNullable == "NO"
    requires col.columnDefault.None?
    ensures CreateColumnSuffix(col, parsesAsFloat) == ""
  {
  }

  const NilDereference := "runtime error: invalid memory address or nil pointer dereference"

  /** One column definition of the CREATE TABLE statement. */
  function ColumnRow(col: ColumnInfo, parsesAsFloat: string -> bool): (r: Result<string>)
    ensures r.Err? <==> ColumnTypeClause(col).NilField?
    ensures ColumnTypeClause(col).Rendered? ==>
      r == Ok(ColumnTypeClause(col).text + CreateColumnSuffix(col, parsesAsFloat))
    ensures ColumnTypeClause(col).Unsupported? ==> r == Ok(CreateColumnSuffix(col, parsesAsFloat))
  {
    match ColumnTypeClause(col)
    case NilField(f) => Err(NilDereference + " (" + f + ")")
    case Rendered(t) => Ok(t + CreateColumnSuffix(col, parsesAsFloat))
    case Unsupported => Ok(CreateColumnSuffix(col, parsesAsFloat))
  }

  /** Each column's definition, in column order. */
  function ColumnRowResults(cols: seq<ColumnInfo>, parsesAsFloat: string -> bool): (rs: seq<Result<string>>)
    ensures |rs| == |cols|
    ensures forall i :: 0 <= i < |cols| ==> rs[i] == ColumnRow(cols[i], parsesAsFloat)
  {
    seq(|cols|, i requires 0 <= i < |cols| => ColumnRow(cols[i], parsesAsFloat))
  }

  /** All column definitions, in column order, or the first failure. */
  function ColumnRows(cols: seq<ColumnInfo>, parsesAsFloat: string -> bool): Result<seq<string>> {
    AllOk(ColumnRowResults(cols, parsesAsFloat))
  }

  /** The data types reported as unsupported, in column order. */
  function UnsupportedTypes(cols: seq<ColumnInfo>): seq<string> {
    if cols == [] then []
    else (if ColumnTypeClause(cols[0]).Unsupported? then [cols[0].dataType] else []) + UnsupportedTypes(cols[1..])
  }

  lemma {:induction false} UnsupportedTypesAppend(cols: seq<ColumnInfo>, c: ColumnInfo)
    ensures UnsupportedTypes(cols + [c]) == UnsupportedTypes(cols) + UnsupportedTypes([c])
  {
    if cols == [] {
      assert [] + [c] == [c];
    } else {
      assert (cols + [c])[1..] == cols[1..] + [c];
      UnsupportedTypesAppend(cols[1..], c);
    }
  }

  /** The rows inside the parentheses: the columns, then a PRIMARY KEY row
      when there are primary-key columns. */
  function SqlRows(columnRows: seq<string>, pkColumns: seq<string>): (rows: seq<string>)
    ensures |rows| == |columnRows| + (if pkColumns == [] then 0 else 1)
    ensures rows[..|columnRows|] == columnRows
    ensures pkColumns != [] ==> rows[|columnRows|] == "PRIMARY KEY (" + Join(pkColumns, ", ") + ")"
  {
    columnRows + (if |pkColumns| > 0 then ["PRIMARY KEY (" + Join(pkColumns, ", ") + ")"] else [])
  }

  function Indented(rows: seq<string>): (r: seq<string>)
    ensures |r| == |rows|
    ensures forall i :: 0 <= i < |rows| ==> r[i] == "    " + rows[i]
  {
    seq(|rows|, i requires 0 <= i < |rows| => "    " + rows[i])
  }

  /** The statement text: header line, the indented rows joined by ",\n",
      and the closing parenthesis on its own line. */
  function CreateTableStatement(sourceTable: string, rows: seq<string>): (sql: string)
    ensures HasPrefix(sql, "CREATE OR REPLACE TABLE " + sourceTable + " (\n")
    ensures HasSuffix(sql, "\n)")
  {
    "CREATE OR REPLACE TABLE " + sourceTable + " (" + "\n" + Join(Indented(rows), ",\n") + "\n" + ")"
  }

  /** The NOT NULL and DEFAULT clauses appended to a column definition, in
      the order `GenCreateSchema` writes them. */
  method AppendColumnSuffix(query: string, column: ColumnInfo, parsesAsFloat: string -> bool)
    returns (q: string)
    ensures q == query + CreateColumnSuffix(column, parsesAsFloat)
  {
    ghost var nullClause, defaultClause := NullClause(column), DefaultClause(column, parsesAsFloat);
    q := query;
    if column.isNullable == "false" {
      q := q + " NOT NULL";
    }
    ghost var withNull := q;
    assert withNull == query + nullClause;
    if column.columnDefault.Some? {
      q := q + (" DEFAULT '" + DefaultLiteral(column.columnDefault.value, parsesAsFloat) + "'");
    } else if column.isNullable == "true" {
      q := q + " DEFAULT NULL";
    }
    assert q == withNull + defaultClause;
    AppendAssociative(query, nullClause, defaultClause);
  }

  /** The body of the scanning loop of `GenCreateSchema` for one column:
      the type clause, then NOT NULL, then the default. */
  method ColumnDefinition(column: ColumnInfo, parsesAsFloat: string -> bool)
    returns (r: Result<string>, unsupported: seq<string>)
    ensures r == ColumnRow(column, parsesAsFloat)
    ensures unsupported == UnsupportedTypes([column])
  {
    unsupported := [];
    var createTableQuery := "";
    var clause := ColumnTypeClause(column);
    match clause {
      case NilField(f) =>
        return Err(NilDereference + " (" + f + ")"), [];
      case Rendered(t) =>
        createTableQuery := createTableQuery + t;
        assert createTableQuery == t;
      case Unsupported =>
        unsupported := [column.dataType];
        assert createTableQuery == "";
    }
    createTableQuery := AppendColumnSuffix(createTableQuery, column, parsesAsFloat);
    assert clause.Unsupported? ==> createTableQuery == CreateColumnSuffix(column, parsesAsFloat);
    r := Ok(createTableQuery);
  }

  /** The scanning loop of `GenCreateSchema`: one definition appended per
      column row, unsupported types reported as they are met. */
  method ColumnDefinitions(columns: seq<ColumnInfo>, parsesAsFloat: string -> bool)
    returns (r: Result<seq<string>>, unsupported: seq<string>)
    ensures r == ColumnRows(columns, parsesAsFloat)
    ensures r.Ok? ==> unsupported == UnsupportedTypes(columns)
  {
    ghost var results := ColumnRowResults(columns, parsesAsFloat);
    var columnRows: seq<string> := [];
    unsupported := [];
    assert results[..0] == [];
    for i := 0 to |columns|
      invariant AllOk(results[..i]) == Ok(columnRows)
      invariant unsupported == UnsupportedTypes(columns[..i])
    {
      var column := columns[i];
      UnsupportedTypesAppend(columns[..i], column);
      TakeOneMore(columns, i);
      TakeOneMore(results, i);
      AllOkSnoc(results[..i], results[i]);
      var row, reported := ColumnDefinition(column, parsesAsFloat);
      if row.Err? {
        AllOkErrPrefix(results, i + 1);
        return Err(row.error), unsupported;
      }
      unsupported := unsupported + reported;
      columnRows := columnRows + [row.value];
    }
    assert columns[..|columns|] == columns;
    assert results[..|columns|] == results;
    r := Ok(columnRows);
  }

  /** The indentation loop: every row rewritten in place with four spaces
      in front. */
  method IndentRows(sqlRows: array<string>)
    modifies sqlRows
    ensures sqlRows[..] == Indented(old(sqlRows[..]))
  {
    for i := 0 to sqlRows.Length
      invariant forall k :: 0 <= k < i ==> sqlRows[k] == "    " + old(sqlRows[k])
      invariant forall k :: i <= k < sqlRows.Length ==> sqlRows[k] == old(sqlRows[k])
    {
      sqlRows[i] := "    " + sqlRows[i];
    }
  }

  /** `sql` is the statement `GenCreateSchema` makes for the columns and the
      index listing: the column definitions in column order, then the
      PRIMARY KEY columns in key order. */
  ghost predicate IsCreateStatement(sql: string, sourceTable: string, columns: seq<ColumnInfo>,
                                    indexResults: seq<IndexRow>, parsesAsFloat: string -> bool) {
    && ColumnRows(columns, parsesAsFloat).Ok?
    && exists pkRows ::
         PrimaryKeyOrder(indexResults, pkRows)
         && sql == CreateTableStatement(sourceTable, SqlRows(ColumnRows(columns, parsesAsFloat).value, ColumnNames(pkRows)))
  }

  /** `GenCreateSchema`, given what its two queries return: the column
      query, one definition per column, then the SHOW INDEX query and a
      PRIMARY KEY row from the sorted index listing, every row indented. A
      type the mapping lacks is reported and its definition keeps only its
      suffix. */
  method GenCreateSchema(sourceTable: string, columnQuery: Result<seq<ColumnInfo>>,
                         indexQuery: Result<seq<IndexRow>>, parsesAsFloat: string -> bool)
    returns (r: Result<string>, unsupported: seq<string>)
    ensures columnQuery.Err? ==> r == Err(columnQuery.error)
    ensures columnQuery.Ok? && ColumnRows(columnQuery.value, parsesAsFloat).Err? ==>
      r == Err(ColumnRows(columnQuery.value, parsesAsFloat).error)
    ensures columnQuery.Ok? && ColumnRows(columnQuery.value, parsesAsFloat).Ok? && indexQuery.Err? ==>
      r == Err(indexQuery.error)
    ensures r.Ok? <==> columnQuery.Ok? && ColumnRows(columnQuery.value, parsesAsFloat).Ok? && indexQuery.Ok?
    ensures columnQuery.Ok? && ColumnRows(columnQuery.value, parsesAsFloat).Ok? ==>
      unsupported == UnsupportedTypes(columnQuery.value)
    ensures r.Ok? ==>
      exists pkRows ::
        PrimaryKeyOrder(indexQuery.value, pkRows)
        && r.value == CreateTableStatement(sourceTable,
                        SqlRows(ColumnRows(columnQuery.value, parsesAsFloat).value, ColumnNames(pkRows)))
    ensures r.Ok? ==> IsCreateStatement(r.value, sourceTable, columnQuery.value, indexQuery.value, parsesAsFloat)
  {
    if columnQuery.Err? {
      return Err(columnQuery.error), [];
    }
    var columnRows;
    columnRows, unsupported := ColumnDefinitions(columnQuery.value, parsesAsFloat);
    if columnRows.Err? {
      return Err(columnRows.error), unsupported;
    }
    if indexQuery.Err? {
      return Err(indexQuery.error), unsupported;
    }
    var indexResults := indexQuery.value;

    var snowflakePKColumns, pkRows := PrimaryKeyColumns(indexResults);

    var rows := SqlRows(columnRows.value, snowflakePKColumns);
    var sqlRows := new string[|rows|](i requires 0 <= i < |rows| => rows[i]);
    assert sqlRows[..] == rows;
    IndentRows(sqlRows);

    var sql := ["CREATE OR REPLACE TABLE " + sourceTable + " (", Join(sqlRows[..], ",\n"), ")"];
    r := Ok(Join(sql, "\n"));
    JoinThree(sql[0], sql[1], sql[2], "\n");
  }
}
