/** The interactive SQLite console of db_manager.py: how it renders table
    cells, headers and separators, which rows it says it shows, how it reads
    the row limit and how it tells a query that returns rows from one that
    must be committed. Query results come in as values; the printed lines
    are returned. */
module DbManager {
  import opened Text
  import opened Options

  // ---------------------------------------------------------------------------
  // Cells

  /** A value sqlite3 returns in a row: `None`, a `str`, a `datetime`, or any
      other value (numbers, bytes), the last two given by their `str()`. */
  datatype Value = Null | Str(s: string) | Timed(rendered: string) | Scalar(rendered: string)

  /** Python `str(value)` for a value that is not `None`. */
  function Rendered(v: Value): string
    requires !v.Null?
  {
    match v
    case Str(s) => s
    case Timed(t) => t
    case Scalar(t) => t
  }

  const CellWidth: nat := 20
  const ColumnSeparator: string := " | "

  /** Strings longer than this are cut. */
  const MaxShownString: nat := 18

  /** A string cell longer than `MaxShownString` characters. */
  predicate Truncated(v: Value) {
    v.Str? && |v.s| > MaxShownString
  }

  /** One cell of a listing. */
  function FormatCell(v: Value): (r: string)
    ensures |r| >= CellWidth
    ensures v.Null? ==> r[..4] == "NULL" && |r| == CellWidth && forall i :: 4 <= i < |r| ==> r[i] == ' '
    ensures Truncated(v) ==> |r| == CellWidth && r[..17] == v.s[..17] && r[17..] == "..."
    ensures !v.Null? && !Truncated(v) ==>
      var t := Rendered(v);
      |r| == (if |t| < CellWidth then CellWidth else |t|) && r[..|t|] == t
      && forall i :: |t| <= i < |r| ==> r[i] == ' '
  {
    if v.Null? then LJust("NULL", CellWidth)
    else if Truncated(v) then LJust(v.s[..17] + "...", CellWidth)
    else LJust(Rendered(v), CellWidth)
  }

  /** Only a long value that is not a string makes a cell wider than the
      column; strings are always exactly one column wide. */
  lemma CellWidthExact(v: Value)
    ensures |FormatCell(v)| == CellWidth <==> v.Null? || v.Str? || |Rendered(v)| <= CellWidth
  {
  }

  // ---------------------------------------------------------------------------
  // Header, separator and rows

  /** `f"{col:<width}"` for every column name. */
  function Padded(columns: seq<string>, width: nat): (r: seq<string>)
    ensures |r| == |columns|
    ensures forall i :: 0 <= i < |columns| ==> r[i] == LJust(columns[i], width)
  {
    seq(|columns|, i requires 0 <= i < |columns| => LJust(columns[i], width))
  }

  /** `" | ".join(f"{col:<width}" for col in columns)`. */
  function Header(columns: seq<string>, width: nat): string {
    Join(ColumnSeparator, Padded(columns, width))
  }

  /** `"-" * len(header)`. */
  function Separator(header: string): (r: string)
    ensures |r| == |header| && forall i :: 0 <= i < |r| ==> r[i] == '-'
  {
    Repeat('-', |header|)
  }

  /** Parts of one width join into `n` columns and `n - 1` separators. */
  lemma {:induction false} UniformJoinLength(parts: seq<string>, width: nat)
    requires |parts| > 0
    requires forall i :: 0 <= i < |parts| ==> |parts[i]| == width
    ensures |Join(ColumnSeparator, parts)| == |parts| * width + 3 * (|parts| - 1)
    decreases |parts|
  {
    if |parts| > 1 {
      UniformJoinLength(parts[1..], width);
    }
  }

  /** With no column name wider than the column, the header is `n` columns
      of `width` characters with `" | "` between them. */
  lemma HeaderLength(columns: seq<string>, width: nat)
    requires |columns| > 0
    requires forall i :: 0 <= i < |columns| ==> |columns[i]| <= width
    ensures |Header(columns, width)| == |columns| * width + 3 * (|columns| - 1)
  {
    UniformJoinLength(Padded(columns, width), width);
  }

  /** The cells of one row. */
  function RowCells(row: seq<Value>): (r: seq<string>)
    ensures |r| == |row| && forall i :: 0 <= i < |row| ==> r[i] == FormatCell(row[i])
  {
    seq(|row|, i requires 0 <= i < |row| => FormatCell(row[i]))
  }

  /** The loop over the values of one row: `formatted_row` followed by
      `" | ".join(formatted_row)`. */
  method FormatRow(row: seq<Value>) returns (line: string)
    ensures line == Join(ColumnSeparator, RowCells(row))
  {
    var formatted: seq<string> := [];
    for i := 0 to |row|
      invariant |formatted| == i
      invariant forall j :: 0 <= j < i ==> formatted[j] == FormatCell(row[j])
    {
      var value := row[i];
      if value.Null? {
        formatted := formatted + [LJust("NULL", CellWidth)];
      } else if value.Str? && |value.s| > MaxShownString {
        formatted := formatted + [LJust(value.s[..17] + "...", CellWidth)];
      } else {
        formatted := formatted + [LJust(Rendered(value), CellWidth)];
      }
    }
    assert formatted == RowCells(row);
    line := Join(ColumnSeparator, formatted);
  }

  /** A value that fits its column. */
  predicate Fits(v: Value) {
    v.Null? || v.Str? || |Rendered(v)| <= CellWidth
  }

  /** Rows of fitting values under short column names line up with the
      header, character for character in length. */
  lemma RowAlignsWithHeader(columns: seq<string>, row: seq<Value>)
    requires |columns| == |row| > 0
    requires forall i :: 0 <= i < |columns| ==> |columns[i]| <= CellWidth
    requires forall i :: 0 <= i < |row| ==> Fits(row[i])
    ensures |Join(ColumnSeparator, RowCells(row))| == |Header(columns, CellWidth)|
  {
    HeaderLength(columns, CellWidth);
    forall i | 0 <= i < |row| ensures |RowCells(row)[i]| == CellWidth {
      CellWidthExact(row[i]);
    }
    UniformJoinLength(RowCells(row), CellWidth);
  }

  /** The listing of a header and rows: separator, header, separator, then
      one line per row. */
  function Grid(columns: seq<string>, rows: seq<seq<Value>>): (r: seq<string>)
    ensures |r| == 3 + |rows|
    ensures r[0] == r[2] == Separator(Header(columns, CellWidth)) && r[1] == Header(columns, CellWidth)
    ensures forall i :: 0 <= i < |rows| ==> r[3 + i] == Join(ColumnSeparator, RowCells(rows[i]))
  {
    var header := Header(columns, CellWidth);
    [Separator(header), header, Separator(header)]
      + seq(|rows|, i requires 0 <= i < |rows| => Join(ColumnSeparator, RowCells(rows[i])))
  }

  // ---------------------------------------------------------------------------
  // show_table_data

  /** `min(limit, total)`, the number of rows a listing says it shows. */
  function ShownCount(limit: nat, total: nat): (r: nat)
    ensures r <= limit && r <= total && (r == limit || r == total)
  {
    if limit < total then limit else total
  }

  const DefaultLimit: nat := 10

  /** What `SELECT COUNT(*)`, `SELECT * … LIMIT` and `PRAGMA table_info`
      returned, or the error raised on the way. */
  datatype TableRead = ReadFailed(error: string) | TableContents(total: nat, rows: seq<seq<Value>>, columns: seq<string>)

  function EmptyTableLine(tableName: string): string {
    "\U{1F4ED} Table '" + tableName + "' is empty"
  }

  function ShowingLine(tableName: string, limit: nat, total: nat): string {
    "\n\U{1F4CA} Data from '" + tableName + "' (showing " + NatToString(ShownCount(limit, total))
    + " of " + NatToString(total) + " records):"
  }

  function ReadErrorLine(error: string): string {
    "\U{274C} Error reading table data: " + error
  }

  /** The lines `show_table_data` prints. */
  function ShowTableData(tableName: string, limit: nat, read: TableRead): (r: seq<string>)
    ensures read.ReadFailed? ==> r == [ReadErrorLine(read.error)]
    ensures read.TableContents? && read.total == 0 ==> r == [EmptyTableLine(tableName)]
    ensures read.TableContents? && read.total > 0 ==>
      |r| == 4 + |read.rows| && r[0] == ShowingLine(tableName, limit, read.total)
      && r[1..] == Grid(read.columns, read.rows)
  {
    match read
    case ReadFailed(e) => [ReadErrorLine(e)]
    case TableContents(total, rows, columns) =>
      if total == 0 then [EmptyTableLine(tableName)]
      else [ShowingLine(tableName, limit, total)] + Grid(columns, rows)
  }

  /** An empty table prints one line and no rows; a table with rows prints
      one line per fetched row after the header, and the header lines have
      one length. */
  lemma ShowTableDataRows(tableName: string, limit: nat, read: TableRead)
    requires read.TableContents?
    ensures var r := ShowTableData(tableName, limit, read);
      (read.total == 0 <==> |r| == 1)
      && (read.total > 0 ==> |r| - 4 == |read.rows| && |r[1]| == |r[2]| == |r[3]|)
  {
  }

  // ---------------------------------------------------------------------------
  // Row limit

  /** The superscript digits: characters Python's `str.isdigit()` accepts and
      `int()` refuses. They are some of those characters, not all of them
      (subscript, circled and dingbat digits are others); the model's
      `isdigit()` ranges over ASCII and superscript digits only. */
  predicate IsSuperscriptDigit(c: char) {
    c == '\U{B2}' || c == '\U{B3}' || c == '\U{B9}' || c == '\U{2070}' || ('\U{2074}' <= c <= '\U{2079}')
  }

  /** Python `str.isdigit()` over ASCII and superscript digits. */
  predicate IsDigitText(s: string) {
    s != [] && forall i :: 0 <= i < |s| ==> IsAsciiDigit(s[i]) || IsSuperscriptDigit(s[i])
  }

  predicate IsAsciiNumeral(s: string) {
    s != [] && forall i :: 0 <= i < |s| ==> IsAsciiDigit(s[i])
  }

  /** `int(limit_input) if limit_input.isdigit() else 10` as written, on the
      stripped input and among ASCII and superscript digits: `None` is the
      `ValueError` `int()` raises for a superscript digit, which the menu's outer handler turns into the end
      of the session. */
  function RowLimitAsWritten(limitInput: string): (r: Option<nat>)
    ensures r.None? <==> IsDigitText(limitInput) && !IsAsciiNumeral(limitInput)
  {
    if IsDigitText(limitInput) then
      if IsAsciiNumeral(limitInput) then Some(DigitsValue(limitInput)) else None
    else Some(DefaultLimit)
  }

  /** The row limit as intended: a decimal numeral gives its value, anything
      else (empty, signed, fractional or non-ASCII text) gives 10. */
  function RowLimit(limitInput: string): (r: nat)
    ensures IsAsciiNumeral(limitInput) ==> r == DigitsValue(limitInput)
    ensures !IsAsciiNumeral(limitInput) ==> r == DefaultLimit
  {
    if IsAsciiNumeral(limitInput) then DigitsValue(limitInput) else DefaultLimit
  }

  /** Where the written code produces a limit at all it is the intended one. */
  lemma RowLimitAgrees(limitInput: string)
    ensures RowLimitAsWritten(limitInput).Some? ==> RowLimitAsWritten(limitInput).value == RowLimit(limitInput)
  {
  }

  /** Typing a number back gives that number. */
  lemma RowLimitOfNumeral(n: nat)
    ensures RowLimit(NatToString(n)) == n
  {
    DigitsValueOfNatToString(n);
  }

  /** `"²"` passes the `isdigit()` guard and then makes `int()` raise; the
      intended limit for it is the default. */
  lemma RowLimitSuperscript()
    ensures RowLimitAsWritten("\U{B2}") == None
    ensures RowLimit("\U{B2}") == DefaultLimit
  {
    assert !IsAsciiDigit("\U{B2}"[0]);
  }

  // ---------------------------------------------------------------------------
  // run_custom_query

  /** `query.strip().upper().startswith('SELECT')`. */
  predicate IsSelect(query: string) {
    StartsWith(Upper(Strip(query)), "SELECT")
  }

  /** Case does not matter and leading whitespace is ignored: a trimmed
      query whose first six letters spell SELECT in any case is a SELECT,
      with or without spaces in front. */
  lemma SelectDetected(t: string)
    requires IsTrimmed(t) && |t| >= 6 && Upper(t[..6]) == "SELECT"
    ensures IsSelect(t) && IsSelect("  " + t)
  {
    assert Strip(t) == t by {
      StripTrimmed(t);
    }
    assert Strip("  " + t) == t by {
      StripLeadingSpaces(t);
    }
    assert Upper(t)[..6] == Upper(t[..6]);
  }

  lemma StripLeadingSpaces(t: string)
    requires IsTrimmed(t)
    ensures Strip("  " + t) == t
  {
    var q := "  " + t;
    assert q[1..] == " " + t;
    assert q[1..][1..] == t;
    assert LStrip(t) == t;
    assert LStrip(q) == t;
    StripTrimmed(t);
  }

  /** A trimmed statement that does not begin with an `s` or `S`, such as an
      INSERT, UPDATE or DELETE, is not a SELECT and is therefore committed. */
  lemma NotSelect(t: string)
    requires IsTrimmed(t) && |t| > 0 && UpperChar(t[0]) != 'S'
    ensures !IsSelect(t)
  {
    assert Strip(t) == t by {
      StripTrimmed(t);
    }
    assert Upper(t)[0] != "SELECT"[0];
  }

  /** What `cursor.execute(query)` produced. */
  datatype QueryResult =
    | QueryFailed(error: string)
    | Executed(columns: seq<string>, rows: seq<seq<Value>>, rowCount: int)

  const NoResults: string := "\U{1F4ED} No results found"

  function TotalResultsLine(n: nat): string {
    "\n\U{1F4CA} Total results: " + NatToString(n)
  }

  function AffectedLine(rowCount: int): string {
    "\U{2705} Query executed successfully. Rows affected: "
    + (if rowCount < 0 then "-" + NatToString(-rowCount) else NatToString(rowCount))
  }

  function QueryErrorLine(error: string): string {
    "\U{274C} Error executing query: " + error
  }

  /** The lines `run_custom_query` prints, and whether it commits. */
  function CustomQuery(query: string, result: QueryResult): (r: (seq<string>, bool))
    ensures r.1 <==> result.Executed? && !IsSelect(query)
    ensures result.QueryFailed? ==> r.0 == [QueryErrorLine(result.error)]
    ensures result.Executed? && IsSelect(query) && result.rows == [] ==> r.0 == [NoResults]
    ensures result.Executed? && IsSelect(query) && result.rows != [] ==>
      |r.0| == 4 + |result.rows| && r.0[..|r.0| - 1] == Grid(result.columns, result.rows)
      && r.0[|r.0| - 1] == TotalResultsLine(|result.rows|)
    ensures result.Executed? && !IsSelect(query) ==> r.0 == [AffectedLine(result.rowCount)]
  {
    match result
    case QueryFailed(e) => ([QueryErrorLine(e)], false)
    case Executed(columns, rows, rowCount) =>
      if IsSelect(query) then
        if rows == [] then ([NoResults], false)
        else (Grid(columns, rows) + [TotalResultsLine(|rows|)], false)
      else ([AffectedLine(rowCount)], true)
  }

  // ---------------------------------------------------------------------------
  // The manager

  const DefaultDbPath: string := "instance/smart_journal.db"

  class DatabaseManager {
    const dbPath: string
    var connected: bool
    /** Number of commits issued so far. */
    var commits: nat

    constructor (dbPath: string)
      ensures this.dbPath == dbPath && !connected && commits == 0
    {
      this.dbPath := dbPath;
      connected := false;
      commits := 0;
    }

    /** `connect`: fails when the file is missing or opening it raises. */
    method Connect(fileExists: bool, openSucceeds: bool) returns (ok: bool)
      modifies this
      ensures ok <==> fileExists && openSucceeds
      ensures connected == (ok || old(connected)) && commits == old(commits)
    {
      if !fileExists {
        return false;
      }
      if !openSucceeds {
        return false;
      }
      connected := true;
      return true;
    }

    /** `disconnect`: closes an open connection, and is harmless otherwise. */
    method Disconnect()
      modifies this
      ensures !connected && commits == old(commits)
    {
      if connected {
        connected := false;
      }
    }

    /** `run_custom_query`: prints the result and commits exactly the
        queries that are not a SELECT and did not fail. */
    method RunCustomQuery(query: string, result: QueryResult) returns (lines: seq<string>)
      requires connected
      modifies this
      ensures lines == CustomQuery(query, result).0
      ensures commits == old(commits) + (if CustomQuery(query, result).1 then 1 else 0)
      ensures connected
    {
      var (out, commit) := CustomQuery(query, result);
      if commit {
        commits := commits + 1;
      }
      lines := out;
    }
  }
}
