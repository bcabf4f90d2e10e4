/** The read-only SQLite viewer of db_viewer.py: its narrower cell format
    and its sample listing of a table. The header, separator and row
    joining are those of the console in db_manager.py, at width 15. */
module DbViewer {
  import opened Text
  import opened DbManager

  const ViewerWidth: nat := 15

  /** Every cell that is not a timestamp keeps at most this many characters. */
  const MaxShown: nat := 14

  /** One cell of the viewer's listing. */
  function ViewerCell(v: Value): (r: string)
    ensures v.Null? ==> |r| == ViewerWidth && r[..4] == "NULL" && forall i :: 4 <= i < |r| ==> r[i] == ' '
    ensures v.Timed? ==>
      |r| == (if |v.rendered| < ViewerWidth then ViewerWidth else |v.rendered|)
      && r[..|v.rendered|] == v.rendered && forall i :: |v.rendered| <= i < |r| ==> r[i] == ' '
    ensures !v.Null? && !v.Timed? ==>
      var t := Rendered(v);
      var k := if |t| <= MaxShown then |t| else MaxShown;
      |r| == ViewerWidth && r[..k] == t[..k] && forall i :: k <= i < |r| ==> r[i] == ' '
  {
    if v.Null? then LJust("NULL", ViewerWidth)
    else if v.Timed? then LJust(v.rendered, ViewerWidth)
    else LJust(Take(Rendered(v), MaxShown), ViewerWidth)
  }

  /** Every cell but a long timestamp is exactly one column wide and ends in
      a space, so neighbouring values never run together. */
  lemma ViewerCellWidth(v: Value)
    ensures |ViewerCell(v)| == ViewerWidth <==> !v.Timed? || |v.rendered| <= ViewerWidth
    ensures !v.Timed? ==> ViewerCell(v)[ViewerWidth - 1] == ' '
  {
  }

  function ViewerRowCells(row: seq<Value>): (r: seq<string>)
    ensures |r| == |row| && forall i :: 0 <= i < |row| ==> r[i] == ViewerCell(row[i])
  {
    seq(|row|, i requires 0 <= i < |row| => ViewerCell(row[i]))
  }

  /** The loop over the values of one row. */
  method FormatViewerRow(row: seq<Value>) returns (line: string)
    ensures line == Join(ColumnSeparator, ViewerRowCells(row))
  {
    var formatted: seq<string> := [];
    for i := 0 to |row|
      invariant |formatted| == i
      invariant forall j :: 0 <= j < i ==> formatted[j] == ViewerCell(row[j])
    {
      var value := row[i];
      if value.Null? {
        formatted := formatted + [LJust("NULL", ViewerWidth)];
      } else if value.Timed? {
        formatted := formatted + [LJust(value.rendered, ViewerWidth)];
      } else {
        formatted := formatted + [LJust(Take(Rendered(value), MaxShown), ViewerWidth)];
      }
    }
    assert formatted == ViewerRowCells(row);
    line := Join(ColumnSeparator, formatted);
  }

  /** Rows without long timestamps under column names of at most 15
      characters are as long as the header. */
  lemma ViewerRowAlignsWithHeader(columns: seq<string>, row: seq<Value>)
    requires |columns| == |row| > 0
    requires forall i :: 0 <= i < |columns| ==> |columns[i]| <= ViewerWidth
    requires forall i :: 0 <= i < |row| ==> !row[i].Timed? || |row[i].rendered| <= ViewerWidth
    ensures |Join(ColumnSeparator, ViewerRowCells(row))| == |Header(columns, ViewerWidth)|
      == |row| * ViewerWidth + 3 * (|row| - 1)
  {
    HeaderLength(columns, ViewerWidth);
    forall i | 0 <= i < |row| ensures |ViewerRowCells(row)[i]| == ViewerWidth {
      ViewerCellWidth(row[i]);
    }
    UniformJoinLength(ViewerRowCells(row), ViewerWidth);
  }

  const ViewerDefaultLimit: nat := 5
  const NoData: string := "  (No data)"

  function ViewerShowingLine(tableName: string, limit: nat, total: nat): string {
    "\n\U{1F4CA} Data in table '" + tableName + "' (showing " + NatToString(ShownCount(limit, total))
    + " of " + NatToString(total) + " records):"
  }

  /** The lines `show_table_data` prints: the count line always comes first,
      then either `(No data)` or the grid. */
  function ViewTableData(tableName: string, limit: nat, read: TableRead): (r: seq<string>)
    ensures read.ReadFailed? ==> r == [ReadErrorLine(read.error)]
    ensures read.TableContents? ==> |r| >= 2 && r[0] == ViewerShowingLine(tableName, limit, read.total)
    ensures read.TableContents? && read.total == 0 ==> r == [r[0], NoData]
    ensures read.TableContents? && read.total > 0 ==>
      var header := Header(read.columns, ViewerWidth);
      |r| == 4 + |read.rows| && r[1] == r[3] == Separator(header) && r[2] == header
      && forall i :: 0 <= i < |read.rows| ==> r[4 + i] == Join(ColumnSeparator, ViewerRowCells(read.rows[i]))
  {
    match read
    case ReadFailed(e) => [ReadErrorLine(e)]
    case TableContents(total, rows, columns) =>
      var showing := ViewerShowingLine(tableName, limit, total);
      if total == 0 then [showing, NoData]
      else
        var header := Header(columns, ViewerWidth);
        [showing, Separator(header), header, Separator(header)]
        + seq(|rows|, i requires 0 <= i < |rows| => Join(ColumnSeparator, ViewerRowCells(rows[i])))
  }

  /** With the default limit of 5 the viewer shows at most five records, and
      all of them when the table holds five or fewer. */
  lemma ViewerDefaultShowing(tableName: string, read: TableRead)
    requires read.TableContents?
    ensures ViewTableData(tableName, ViewerDefaultLimit, read)[0]
            == ViewerShowingLine(tableName, 5, read.total)
    ensures ShownCount(ViewerDefaultLimit, read.total) == if read.total <= 5 then read.total else 5
  {
  }

  /** Unlike the console, the viewer prints its count line for an empty
      table too, saying it shows 0 of 0 records. */
  lemma ViewerEmptyTable(tableName: string, limit: nat)
    ensures ViewTableData(tableName, limit, TableContents(0, [], []))
            == [ViewerShowingLine(tableName, limit, 0), NoData]
    ensures ShowTableData(tableName, limit, TableContents(0, [], [])) == [EmptyTableLine(tableName)]
    ensures ShownCount(limit, 0) == 0
  {
  }
}
