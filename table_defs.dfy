/** The table and column descriptors both warehouse dialects consume: the
    `cloudstorage.TableCol` / `TableDefinition` records written by the change
    feed, the `information_schema.columns` row, and the default-value literal
    rendering the two dialects share. */
module TableDefs {
  import opened Wrappers
  import opened Text

  /** One column of a table definition. `default` is the Go `interface{}`
      (nil or a value, rendered with `%v`); `nullable` and `isPK` are the
      strings "true"/"false" the change feed writes. */
  datatype TableCol = TableCol(
    name: string,
    tp: string,
    default: Option<string>,
    precision: string,
    scale: string,
    nullable: string,
    isPK: string)

  /** The table-change action tag (`timodel.ActionType`). Every tag the
      translators do not single out is `ActionOther`. */
  datatype ActionType =
    | ActionNone
    | ActionTruncateTable
    | ActionDropTable
    | ActionCreateTable
    | ActionRenameTables
    | ActionDropSchema
    | ActionCreateSchema
    | ActionOther(code: int)

  /** A table definition as received from the change feed. */
  datatype TableDefinition = TableDefinition(
    schema: string,
    table: string,
    action: ActionType,
    columns: seq<TableCol>)

  /** One row of `information_schema.columns`; the pointer-typed columns are
      the options. */
  datatype ColumnInfo = ColumnInfo(
    columnName: string,
    columnDefault: Option<string>,
    isNullable: string,
    dataType: string,
    charMaxLength: Option<int>,
    numPrecision: Option<int>,
    numScale: Option<int>,
    dateTimePrec: Option<int>)

  /** Renders a default value as a SQL literal: a value `strconv.ParseFloat`
      accepts (the oracle `parsesAsFloat`) stays bare, anything else is put
      between single quotes, with no escaping of quotes inside it. */
  function DefaultLiteral(val: string, parsesAsFloat: string -> bool): (r: string)
    ensures parsesAsFloat(val) ==> r == val
    ensures !parsesAsFloat(val) ==> |r| == |val| + 2 && r[0] == '\'' && r[|r| - 1] == '\'' && r[1..|r| - 1] == val
  {
    if parsesAsFloat(val) then val else "'" + val + "'"
  }

  /** The value a SQL reader gives the body of a quoted literal, in which
      `''` stands for one quote; None when a lone quote ends it early. */
  function UnescapeBody(body: string): Option<string> {
    if |body| == 0 then Some("")
    else if body[0] != '\'' then
      match UnescapeBody(body[1..])
      case None => None
      case Some(rest) => Some([body[0]] + rest)
    else if |body| >= 2 && body[1] == '\'' then
      match UnescapeBody(body[2..])
      case None => None
      case Some(rest) => Some(['\''] + rest)
    else None
  }

  /** The value of a single-quoted SQL string literal, None when the text
      is not exactly one such literal. */
  function ReadQuotedLiteral(lit: string): Option<string> {
    if |lit| >= 2 && lit[0] == '\'' && lit[|lit| - 1] == '\'' then UnescapeBody(lit[1..|lit| - 1])
    else None
  }

  lemma {:induction false} UnescapeQuoteFree(s: string)
    requires '\'' !in s
    ensures UnescapeBody(s) == Some(s)
  {
    if |s| > 0 {
      UnescapeQuoteFree(s[1..]);
      assert [s[0]] + s[1..] == s;
    }
  }

  /** A quoted default without quotes inside reads back as the value itself. */
  lemma DefaultLiteralRoundTrip(val: string, parsesAsFloat: string -> bool)
    requires !parsesAsFloat(val) && '\'' !in val
    ensures ReadQuotedLiteral(DefaultLiteral(val, parsesAsFloat)) == Some(val)
  {
    UnescapeQuoteFree(val);
  }

  /** Reading a literal's body never lengthens it, and a body with a quote
      in it reads as something strictly shorter. */
  lemma {:induction false} UnescapeShortens(body: string)
    ensures UnescapeBody(body).Some? ==> |UnescapeBody(body).value| <= |body|
    ensures UnescapeBody(body).Some? && '\'' in body ==> |UnescapeBody(body).value| < |body|
  {
    if |body| > 0 {
      if body[0] != '\'' {
        UnescapeShortens(body[1..]);
        if '\'' in body {
          assert '\'' in body[1..];
        }
      } else if |body| >= 2 && body[1] == '\'' {
        UnescapeShortens(body[2..]);
      }
    }
  }

  /** No escaping: a non-numeric default holding a quote renders as text
      that does not read back as that value; it is either no literal at all
      or the literal of a shorter value. */
  lemma DefaultLiteralWithQuoteIsMalformed(val: string, parsesAsFloat: string -> bool)
    requires !parsesAsFloat(val) && '\'' in val
    ensures ReadQuotedLiteral(DefaultLiteral(val, parsesAsFloat)) != Some(val)
  {
    UnescapeShortens(val);
  }
}
