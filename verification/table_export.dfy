/**
 * The table component: the displayed grid is a header row holding the
 * columns in order and one body row per data row, each holding the row's
 * value under every column. Rows are maps from column names to values.
 */
module TableExport {
  import opened Wrappers

  type Row<V> = map<string, V>

  /** The displayed table: `None` is a blank cell (a key the row lacks). */
  datatype Grid<V> = Grid(header: seq<string>, body: seq<seq<Option<V>>>)

  const SheetName := "Sheet1"
  const ExportFile := "table_export.xlsx"

  /** `row[col]`, blank when the row has no such key. */
  function Cell<V>(row: Row<V>, col: string): Option<V>
  {
    if col in row then Some(row[col]) else None
  }

  /** `columns.map(col => row[col])`: one cell per column, in column order. */
  function RowCells<V>(row: Row<V>, columns: seq<string>): (cells: seq<Option<V>>)
    ensures |cells| == |columns|
    ensures forall j :: 0 <= j < |columns| ==> cells[j] == Cell(row, columns[j])
  {
    if columns == [] then [] else [Cell(row, columns[0])] + RowCells(row, columns[1..])
  }

  /** `data.map(row => ...)`: one body row per data row, in data order. */
  function Body<V>(data: seq<Row<V>>, columns: seq<string>): (rows: seq<seq<Option<V>>>)
    ensures |rows| == |data|
    ensures forall i :: 0 <= i < |data| ==> |rows[i]| == |columns|
    ensures forall i, j :: 0 <= i < |data| && 0 <= j < |columns| ==> rows[i][j] == Cell(data[i], columns[j])
  {
    if data == [] then [] else [RowCells(data[0], columns)] + Body(data[1..], columns)
  }

  /** The rendered table. */
  function Render<V>(data: seq<Row<V>>, columns: seq<string>): Grid<V>
  {
    Grid(columns, Body(data, columns))
  }

  /** The grid's shape and contents: the header is the columns in their
      order, there is one body row per data row, every body row has one cell
      per column, and cell (i, j) is row i's value under column j, blank when
      the key is missing. */
  lemma RenderContents<V>(data: seq<Row<V>>, columns: seq<string>)
    ensures Render(data, columns).header == columns
    ensures |Render(data, columns).body| == |data|
    ensures forall i, j :: 0 <= i < |data| && 0 <= j < |columns| ==>
      |Render(data, columns).body[i]| == |columns| &&
      (columns[j] in data[i] <==> Render(data, columns).body[i][j].Some?) &&
      (columns[j] in data[i] ==> Render(data, columns).body[i][j] == Some(data[i][columns[j]]))
  {
  }

  /** Body rows are rendered independently: rendering two batches of rows
      one after the other gives the two bodies one after the other. */
  lemma {:induction false} BodyAppend<V>(a: seq<Row<V>>, b: seq<Row<V>>, columns: seq<string>)
    ensures Body(a + b, columns) == Body(a, columns) + Body(b, columns)
  {
    if a == [] {
      assert a + b == b;
    } else {
      assert (a + b)[1..] == a[1..] + b;
      BodyAppend(a[1..], b, columns);
    }
  }

  /** A row's cells depend only on its values under the listed columns:
      keys outside `columns` are not shown. */
  lemma RowCellsIgnoreOtherKeys<V>(r1: Row<V>, r2: Row<V>, columns: seq<string>)
    requires forall j :: 0 <= j < |columns| ==> Cell(r1, columns[j]) == Cell(r2, columns[j])
    ensures RowCells(r1, columns) == RowCells(r2, columns)
  {
  }

  /** What the export button hands to the spreadsheet library: the data rows
      themselves (the library derives its own header from the rows' keys,
      not from `columns`), the sheet name and the download name. */
  datatype WorkbookExport<V> = WorkbookExport(sheetName: string, rows: seq<Row<V>>, fileName: string)

  function HandleExport<V>(data: seq<Row<V>>): WorkbookExport<V>
  {
    WorkbookExport(SheetName, data, ExportFile)
  }

  lemma OneRowExample()
    ensures Render([map["id" := 1, "name" := 2]], ["id", "name"])
         == Grid(["id", "name"], [[Some(1), Some(2)]])
  {
    var row := map["id" := 1, "name" := 2];
    assert RowCells(row, ["id", "name"]) == [Some(1), Some(2)];
  }
}
