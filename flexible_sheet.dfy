/**
 * The record side of flexible-script.js: `processExcelData` turns the grid into header-keyed
 * records numbered by `_rowIndex`, `toggleColumn`/`selectAllColumns`/`clearAllColumns` edit
 * the `selectedColumns` list, and `getSelectedData` picks records by row range or by index.
 */
module FlexibleSheet {
  import opened Wrappers
  import opened JsString
  import opened Sheet
  import Csv
  import opened FetchChain

  /** A record value: the `_rowIndex` number, or a cell's text. */
  datatype Value = Number(n: int) | Str(s: string)

  /** A row object; key order is not modelled. */
  type Record = map<string, Value>

  const RowIndexKey := "_rowIndex"

  /** `header || \`Column_${colIndex + 1}\``: a missing or empty header gets a 1-based placeholder name. */
  function ColumnName(headers: Row, j: nat): (name: string)
    ensures name != ""
    ensures j < |headers| && headers[j].Text? && headers[j].text != "" ==> name == headers[j].text
    ensures !(j < |headers| && headers[j].Text? && headers[j].text != "") ==>
      name == "Column_" + NatToString(j + 1)
  {
    if j < |headers| && headers[j].Text? && headers[j].text != "" then headers[j].text
    else "Column_" + NatToString(j + 1)
  }

  /** The names shown in the column list, one per header, in header order. */
  function ColumnNames(headers: Row): seq<string> {
    seq(|headers|, j requires 0 <= j < |headers| => ColumnName(headers, j))
  }

  /**
   * The row object after the first `m` headers have been assigned: `_rowIndex` first, then
   * each column's cell under its name, a later column overwriting an earlier one of the same name.
   */
  function Fill(headers: Row, row: Row, index: int, m: nat): Record
    requires m <= |headers|
    decreases m
  {
    if m == 0 then map[RowIndexKey := Number(index)]
    else Fill(headers, row, index, m - 1)[ColumnName(headers, m - 1) := Str(CellText(row, m - 1))]
  }

  /** The keys are `_rowIndex` and one name per assigned column. */
  lemma {:induction false} FillKeys(headers: Row, row: Row, index: int, m: nat)
    requires m <= |headers|
    ensures Fill(headers, row, index, m).Keys == {RowIndexKey} + set j | 0 <= j < m :: ColumnName(headers, j)
    decreases m
  {
    if m > 0 {
      FillKeys(headers, row, index, m - 1);
      assert (set j | 0 <= j < m :: ColumnName(headers, j)) ==
        (set j | 0 <= j < m - 1 :: ColumnName(headers, j)) + {ColumnName(headers, m - 1)};
    }
  }

  /** A column whose name no later assigned column repeats holds its own cell: the last duplicate wins. */
  lemma {:induction false} FillLastWins(headers: Row, row: Row, index: int, m: nat, j: nat)
    requires j < m <= |headers|
    requires forall j' :: j < j' < m ==> ColumnName(headers, j') != ColumnName(headers, j)
    ensures ColumnName(headers, j) in Fill(headers, row, index, m)
    ensures Fill(headers, row, index, m)[ColumnName(headers, j)] == Str(CellText(row, j))
    decreases m
  {
    if j < m - 1 {
      FillLastWins(headers, row, index, m - 1, j);
    }
  }

  /** `_rowIndex` keeps its number unless some column is itself named `_rowIndex`. */
  lemma {:induction false} FillRowIndex(headers: Row, row: Row, index: int, m: nat)
    requires m <= |headers|
    requires forall j :: 0 <= j < m ==> ColumnName(headers, j) != RowIndexKey
    ensures RowIndexKey in Fill(headers, row, index, m)
    ensures Fill(headers, row, index, m)[RowIndexKey] == Number(index)
    decreases m
  {
    if m > 0 {
      FillRowIndex(headers, row, index, m - 1);
    }
  }

  /** The row object of `processExcelData` for a data row numbered `index`. */
  function RowRecord(headers: Row, row: Row, index: int): Record {
    Fill(headers, row, index, |headers|)
  }

  /** `row.some(cell => cell !== null && cell !== undefined && cell !== '')`. */
  predicate IsNonBlankRow(row: Row) {
    exists j :: 0 <= j < |row| && row[j].Text? && row[j].text != ""
  }

  /** The `filter` of `processExcelData`: the non-blank rows, in order. */
  function NonBlankRows(rows: seq<Row>): (kept: seq<Row>)
    ensures |kept| <= |rows|
    ensures forall x :: x in kept <==> x in rows && IsNonBlankRow(x)
    decreases |rows|
  {
    if rows == [] then []
    else
      var init := rows[..|rows| - 1];
      var last := rows[|rows| - 1];
      assert rows == init + [last];
      NonBlankRows(init) + if IsNonBlankRow(last) then [last] else []
  }

  /** Filtering keeps relative order: it distributes over concatenation. */
  lemma {:induction false} NonBlankRowsAppend(rows: seq<Row>, tail: seq<Row>)
    ensures NonBlankRows(rows + tail) == NonBlankRows(rows) + NonBlankRows(tail)
    decreases |tail|
  {
    if tail == [] {
      assert rows + tail == rows;
    } else {
      var init := tail[..|tail| - 1];
      assert tail == init + [tail[|tail| - 1]];
      assert rows + tail == (rows + init) + [tail[|tail| - 1]];
      NonBlankRowsAppend(rows, init);
    }
  }

  /** `allData`: the non-blank data rows as records, `_rowIndex` counting 1, 2, ... after the filter. */
  function AllData(jsonData: seq<Row>): (data: seq<Record>)
    requires |jsonData| >= 1
    ensures |data| == |NonBlankRows(jsonData[1..])|
  {
    var rows := NonBlankRows(jsonData[1..]);
    seq(|rows|, i requires 0 <= i < |rows| => RowRecord(jsonData[0], rows[i], i + 1))
  }

  /** The key each header gives its column. */
  function HeaderKeys(headers: Row): set<string> {
    set j | 0 <= j < |headers| :: ColumnName(headers, j)
  }

  /** The shape of one row object: its keys, its cells, and its `_rowIndex`. */
  predicate RecordShape(headers: Row, row: Row, index: int, r: Record) {
    r.Keys == {RowIndexKey} + HeaderKeys(headers) &&
    (forall j :: 0 <= j < |headers| && (forall j' :: j < j' < |headers| ==> ColumnName(headers, j') != ColumnName(headers, j)) ==>
      ColumnName(headers, j) in r && r[ColumnName(headers, j)] == Str(CellText(row, j))) &&
    ((forall j :: 0 <= j < |headers| ==> ColumnName(headers, j) != RowIndexKey) ==>
      RowIndexKey in r && r[RowIndexKey] == Number(index))
  }

  /** A row object has a key per header and `_rowIndex`; the last duplicate wins; `_rowIndex` holds its number. */
  lemma RowRecordShape(headers: Row, row: Row, index: int)
    ensures RecordShape(headers, row, index, RowRecord(headers, row, index))
  {
    FillKeys(headers, row, index, |headers|);
    forall j | 0 <= j < |headers| && (forall j' :: j < j' < |headers| ==> ColumnName(headers, j') != ColumnName(headers, j))
      ensures ColumnName(headers, j) in RowRecord(headers, row, index) &&
        RowRecord(headers, row, index)[ColumnName(headers, j)] == Str(CellText(row, j))
    {
      FillLastWins(headers, row, index, |headers|, j);
    }
    if forall j :: 0 <= j < |headers| ==> ColumnName(headers, j) != RowIndexKey {
      FillRowIndex(headers, row, index, |headers|);
    }
  }

  /**
   * Every record has a key per header and nothing more besides `_rowIndex`; a column whose
   * name no later column repeats holds that row's cell (`''` when missing); and when no
   * header is named `_rowIndex` the records are numbered 1..n consecutively.
   */
  lemma AllDataShape(jsonData: seq<Row>, i: nat)
    requires |jsonData| >= 1 && i < |AllData(jsonData)|
    ensures IsNonBlankRow(NonBlankRows(jsonData[1..])[i]) && NonBlankRows(jsonData[1..])[i] in jsonData[1..]
    ensures RecordShape(jsonData[0], NonBlankRows(jsonData[1..])[i], i + 1, AllData(jsonData)[i])
  {
    var rows := NonBlankRows(jsonData[1..]);
    assert rows[i] in rows;
    AllDataAt(jsonData, i);
    RowRecordShape(jsonData[0], rows[i], i + 1);
  }

  /** The record at position `i` is the row object of the `i`-th kept row, numbered `i + 1`. */
  lemma AllDataAt(jsonData: seq<Row>, i: nat)
    requires |jsonData| >= 1 && i < |AllData(jsonData)|
    ensures AllData(jsonData)[i] == RowRecord(jsonData[0], NonBlankRows(jsonData[1..])[i], i + 1)
  {
  }



  /** Every non-blank data row has a record. */
  lemma AllDataComplete(jsonData: seq<Row>, row: Row)
    requires |jsonData| >= 1 && row in jsonData[1..] && IsNonBlankRow(row)
    ensures exists i :: 0 <= i < |AllData(jsonData)| && AllData(jsonData)[i] == RowRecord(jsonData[0], row, i + 1)
  {
    var rows := NonBlankRows(jsonData[1..]);
    assert row in rows;
    var i :| 0 <= i < |rows| && rows[i] == row;
    assert AllData(jsonData)[i] == RowRecord(jsonData[0], row, i + 1);
  }

  /** `selectedColumns.filter(col => col !== columnName)`. */
  function RemoveAll(cols: seq<string>, c: string): (r: seq<string>)
    ensures c !in r
    ensures forall x :: x != c ==> multiset(r)[x] == multiset(cols)[x]
    decreases |cols|
  {
    if cols == [] then []
    else
      var init := cols[..|cols| - 1];
      assert cols == init + [cols[|cols| - 1]];
      RemoveAll(init, c) + if cols[|cols| - 1] == c then [] else [cols[|cols| - 1]]
  }

  /** Removing a column that is absent changes nothing. */
  lemma {:induction false} RemoveAbsent(cols: seq<string>, c: string)
    requires c !in cols
    ensures RemoveAll(cols, c) == cols
    decreases |cols|
  {
    if cols != [] {
      var init := cols[..|cols| - 1];
      assert cols == init + [cols[|cols| - 1]];
      RemoveAbsent(init, c);
    }
  }

  /** Removing the same column from the ends of two lists that agree elsewhere. */
  lemma {:induction false} RemoveAppend(cols: seq<string>, tail: seq<string>, c: string)
    ensures RemoveAll(cols + tail, c) == RemoveAll(cols, c) + RemoveAll(tail, c)
    decreases |tail|
  {
    if tail == [] {
      assert cols + tail == cols;
    } else {
      var init := tail[..|tail| - 1];
      assert tail == init + [tail[|tail| - 1]];
      assert cols + tail == (cols + init) + [tail[|tail| - 1]];
      RemoveAppend(cols, init, c);
    }
  }

  /**
   * `toggleColumn` on the list: drop every occurrence of a selected column, or append an
   * unselected one. Afterwards `c` is selected exactly when it was not before, and every
   * other column keeps its count.
   */
  function Toggle(cols: seq<string>, c: string): (r: seq<string>)
    ensures c in r <==> c !in cols
    ensures forall x :: x != c ==> multiset(r)[x] == multiset(cols)[x]
  {
    if c in cols then RemoveAll(cols, c) else cols + [c]
  }

  /** The other columns keep their relative order: without `c`, the list is the same before and after. */
  lemma ToggleKeepsOthers(cols: seq<string>, c: string)
    ensures RemoveAll(Toggle(cols, c), c) == RemoveAll(cols, c)
  {
    var r := RemoveAll(cols, c);
    if c in cols {
      RemoveAbsent(r, c);
    } else {
      RemoveAppend(cols, [c], c);
      assert RemoveAll([c], c) == [];
    }
  }

  /** Toggling an unselected column twice restores the list. */
  lemma ToggleTwiceAbsent(cols: seq<string>, c: string)
    requires c !in cols
    ensures Toggle(Toggle(cols, c), c) == cols
  {
    RemoveAppend(cols, [c], c);
    assert RemoveAll([c], c) == [];
    RemoveAbsent(cols, c);
  }

  /** Toggling a selected column twice moves it, once, to the end. */
  lemma ToggleTwicePresent(cols: seq<string>, c: string)
    requires c in cols
    ensures Toggle(Toggle(cols, c), c) == RemoveAll(cols, c) + [c]
  {
  }

  /** `Array.prototype.slice(start, end)`: negative bounds count from the end, then both are clamped to the length. */
  function SliceBound(n: nat, b: int): (k: nat)
    ensures k <= n
  {
    if b < 0 then (if n + b < 0 then 0 else n + b) else if b < n then b else n
  }

  /** The slice is one contiguous run of `s`, beginning at the normalised start. */
  function JsSlice<T>(s: seq<T>, start: int, end: int): (r: seq<T>)
    ensures SliceBound(|s|, start) + |r| <= |s|
    ensures forall k :: 0 <= k < |r| ==> r[k] == s[SliceBound(|s|, start) + k]
  {
    var from, to := SliceBound(|s|, start), SliceBound(|s|, end);
    if from < to then s[from..to] else []
  }

  /** `parseInt(startRow) || 1`: `NaN` and 0 both fall back to 1. */
  function StartRowOrDefault(startRow: Option<int>): int {
    if startRow.None? || startRow.value == 0 then 1 else startRow.value
  }

  /** `parseInt(endRow) || allData.length`. */
  function EndRowOrDefault(endRow: Option<int>, n: nat): int {
    if endRow.None? || endRow.value == 0 then n else endRow.value
  }

  function Max(a: int, b: int): int { if a < b then b else a }
  function Min(a: int, b: int): int { if a < b then a else b }

  /**
   * The row-range branch of `getSelectedData`, as written: whatever the bounds, a contiguous
   * run of records beginning at 1-based position `max(1, start)`.
   */
  function RangeSelection(allData: seq<Record>, startRow: Option<int>, endRow: Option<int>): (r: seq<Record>)
    ensures var from := Min(|allData|, Max(1, StartRowOrDefault(startRow)) - 1);
      from + |r| <= |allData| && forall k :: 0 <= k < |r| ==> r[k] == allData[from + k]
  {
    var n := |allData|;
    var start := Max(1, StartRowOrDefault(startRow)) - 1;
    var end := Min(n, EndRowOrDefault(endRow, n));
    JsSlice(allData, start, end)
  }

  /**
   * For a non-negative end the selection is the contiguous block of records at 1-based
   * positions `max(1, start)` through `min(n, end)`, empty when the start lies after the end.
   */
  lemma RangeSelectionBlock(allData: seq<Record>, startRow: Option<int>, endRow: Option<int>)
    requires EndRowOrDefault(endRow, |allData|) >= 0
    ensures var first, last := Max(1, StartRowOrDefault(startRow)), Min(|allData|, EndRowOrDefault(endRow, |allData|));
      var r := RangeSelection(allData, startRow, endRow);
      (first <= last ==> r == allData[first - 1..last]) && (last < first ==> r == [])
  {
  }

  /**
   * As written, a negative end row counts from the end of the data: with start 1 and end -1
   * on three records the first two come back, although the start lies after the end.
   */
  lemma NegativeEndSelects(allData: seq<Record>)
    requires |allData| == 3
    ensures RangeSelection(allData, Some(1), Some(-1)) == allData[..2]
  {
  }

  /** The row-range branch with the end clamped at 0 as well, so a range that ends before it starts selects nothing. */
  function RangeSelectionIntended(allData: seq<Record>, startRow: Option<int>, endRow: Option<int>): (r: seq<Record>)
    ensures var first, last := Max(1, StartRowOrDefault(startRow)), Min(|allData|, EndRowOrDefault(endRow, |allData|));
      (first <= last ==> r == allData[first - 1..last]) && (last < first ==> r == [])
  {
    var n := |allData|;
    var start := Max(1, StartRowOrDefault(startRow)) - 1;
    var end := Min(n, EndRowOrDefault(endRow, n));
    JsSlice(allData, start, Max(0, end))
  }

  /** Both agree whenever the end row is not negative. */
  lemma RangeSelectionAgrees(allData: seq<Record>, startRow: Option<int>, endRow: Option<int>)
    requires EndRowOrDefault(endRow, |allData|) >= 0
    ensures RangeSelection(allData, startRow, endRow) == RangeSelectionIntended(allData, startRow, endRow)
  {
    RangeSelectionBlock(allData, startRow, endRow);
  }

  /**
   * The table branch of `getSelectedData`: one entry per checked index, in the order the
   * indices were collected; an index inside the data gives that record, any other gives
   * `undefined` (`None`).
   */
  function TableSelection(allData: seq<Record>, indices: seq<int>): (r: seq<Option<Record>>)
    ensures |r| == |indices|
    ensures forall k :: 0 <= k < |r| ==> (r[k].Some? <==> 0 <= indices[k] < |allData|)
    ensures forall k :: 0 <= k < |r| && r[k].Some? ==> r[k].value == allData[indices[k]]
  {
    if indices == [] then []
    else
      var i := indices[|indices| - 1];
      TableSelection(allData, indices[..|indices| - 1]) + [if 0 <= i < |allData| then Some(allData[i]) else None]
  }

  /** Selecting two groups of checked rows is selecting each in turn: the selection keeps the index order. */
  lemma {:induction false} TableSelectionAppend(allData: seq<Record>, a: seq<int>, b: seq<int>)
    ensures TableSelection(allData, a + b) == TableSelection(allData, a) + TableSelection(allData, b)
    decreases |b|
  {
    if b == [] {
      assert a + b == a;
    } else {
      var init := b[..|b| - 1];
      TableSelectionAppend(allData, a, init);
      assert (a + b)[..|a + b| - 1] == a + init;
    }
  }

  /** The session state of flexible-script.js. */
  class FlexibleSession {
    var allData: seq<Record>
    /** The names in the column list, as `populateColumnSelection` renders them. */
    var columnNames: seq<string>
    var selectedColumns: seq<string>

    constructor ()
      ensures allData == [] && columnNames == [] && selectedColumns == []
    {
      allData := [];
      columnNames := [];
      selectedColumns := [];
    }

    /** `processExcelData`: replaces `allData` and the column list; the selection is kept. */
    method ProcessExcelData(jsonData: seq<Row>)
      requires |jsonData| >= 1
      modifies this
      ensures allData == AllData(jsonData) && columnNames == ColumnNames(jsonData[0])
      ensures selectedColumns == old(selectedColumns)
    {
      allData := AllData(jsonData);
      columnNames := ColumnNames(jsonData[0]);
    }

    /** `loadGoogleSheetsData` followed, on success, by `processExcelData`; nothing changes on failure. */
    method LoadGoogleSheets(input: string, net: Network) returns (out: LoadOutcome)
      requires WellFormed(net)
      modifies this
      ensures out == LoadResult(Csv.Flexible, input, net)
      ensures out.Loaded? ==>
        |out.grid| >= 2 && allData == AllData(TextRows(out.grid)) && columnNames == ColumnNames(TextRows(out.grid)[0])
      ensures !out.Loaded? ==> allData == old(allData) && columnNames == old(columnNames)
      ensures selectedColumns == old(selectedColumns)
    {
      out := LoadGoogleSheetsData(Csv.Flexible, input, net);
      if out.Loaded? {
        LoadedMeans(Csv.Flexible, input, net);
        ProcessExcelData(TextRows(out.grid));
      }
    }

    /** `toggleColumn` on the list: the other state is untouched. */
    method ToggleColumn(columnName: string)
      modifies this
      ensures selectedColumns == Toggle(old(selectedColumns), columnName)
      ensures allData == old(allData) && columnNames == old(columnNames)
    {
      if columnName in selectedColumns {
        selectedColumns := RemoveAll(selectedColumns, columnName);
      } else {
        selectedColumns := selectedColumns + [columnName];
      }
    }

    /** `selectAllColumns`: every listed column, in list order. */
    method SelectAllColumns()
      modifies this
      ensures selectedColumns == columnNames
      ensures allData == old(allData) && columnNames == old(columnNames)
    {
      var items := columnNames;
      selectedColumns := [];
      for k := 0 to |items|
        invariant selectedColumns == items[..k]
        invariant allData == old(allData) && columnNames == old(columnNames)
      {
        selectedColumns := selectedColumns + [items[k]];
      }
    }

    /** `clearAllColumns`. */
    method ClearAllColumns()
      modifies this
      ensures selectedColumns == []
      ensures allData == old(allData) && columnNames == old(columnNames)
    {
      selectedColumns := [];
    }
  }
}
