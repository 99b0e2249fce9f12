/** Grids as `processExcelData` receives them, from the workbook decoder or from `parseCSVData`. */
module Sheet {

  /** One cell: `null`/`undefined`, or text. */
  datatype Cell = Empty | Text(text: string)

  type Row = seq<Cell>

  /** `row[j] || ''`: the cell's text, or `''` for a missing, empty or absent cell. */
  function CellText(row: Row, j: nat): string {
    if j < |row| && row[j].Text? then row[j].text else ""
  }

  /** The rows `parseCSVData` returns, as cells. */
  function TextRows(grid: seq<seq<string>>): (rows: seq<Row>)
    ensures |rows| == |grid|
  {
    seq(|grid|, i requires 0 <= i < |grid| => seq(|grid[i]|, j requires 0 <= j < |grid[i]| => Text(grid[i][j])))
  }
}
