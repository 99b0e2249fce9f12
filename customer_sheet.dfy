/**
 * The customer pipeline of script.js: the header-driven column search `findColumnIndex`,
 * the record builder `processExcelData` over the session's `customerData`, the checks of
 * `validateInputs`, and the row-range filter and file-name bounds of `generateDocument`.
 */
module CustomerSheet {
  import opened Wrappers
  import opened JsString
  import opened Sheet
  import Csv
  import opened FetchChain

  /** `headers[i]?.toString().toLowerCase() || ''`. */
  function HeaderText(c: Cell): string {
    match c
    case Empty => ""
    case Text(s) => LowerCase(s)
  }

  /** Some candidate name occurs in the header text (the inner loop of `findColumnIndex`, run to the end). */
  function AnyIncluded(header: string, names: seq<string>): bool
    decreases |names|
  {
    names != [] && (AnyIncluded(header, names[..|names| - 1]) || Includes(header, names[|names| - 1]))
  }

  /** `AnyIncluded` holds exactly when one of the names occurs in the header. */
  lemma {:induction false} AnyIncludedIff(header: string, names: seq<string>)
    ensures AnyIncluded(header, names) <==> exists n :: n in names && Includes(header, n)
    decreases |names|
  {
    if names != [] {
      var init := names[..|names| - 1];
      var last := names[|names| - 1];
      AnyIncludedIff(header, init);
      assert names == init + [last];
      if AnyIncluded(header, names) {
        if AnyIncluded(header, init) {
          var n :| n in init && Includes(header, n);
          assert n in names;
        } else {
          assert last in names;
        }
      }
      if exists n :: n in names && Includes(header, n) {
        var n :| n in names && Includes(header, n);
        if n != last {
          assert n in init;
        }
      }
    }
  }

  /** The header contains at least one of the candidate names. */
  predicate HeaderMatches(header: Cell, names: seq<string>) {
    AnyIncluded(HeaderText(header), names)
  }

  /** The first header at or after `i` that contains a candidate, or -1. */
  function ColumnIndexFrom(headers: Row, names: seq<string>, i: nat): (r: int)
    requires i <= |headers|
    ensures r == -1 <==> forall j :: i <= j < |headers| ==> !HeaderMatches(headers[j], names)
    ensures r != -1 ==>
      i <= r < |headers| && HeaderMatches(headers[r], names) &&
      forall j :: i <= j < r ==> !HeaderMatches(headers[j], names)
    decreases |headers| - i
  {
    if i == |headers| then -1
    else if HeaderMatches(headers[i], names) then i
    else ColumnIndexFrom(headers, names, i + 1)
  }

  function ColumnIndex(headers: Row, names: seq<string>): int {
    ColumnIndexFrom(headers, names, 0)
  }

  /** `findColumnIndex`: header-major search, returning at the first header that contains any candidate. */
  method FindColumnIndex(headers: Row, possibleNames: seq<string>) returns (r: int)
    ensures r == ColumnIndex(headers, possibleNames)
  {
    for i := 0 to |headers|
      invariant forall j :: 0 <= j < i ==> !HeaderMatches(headers[j], possibleNames)
    {
      var header := HeaderText(headers[i]);
      for k := 0 to |possibleNames|
        invariant !AnyIncluded(header, possibleNames[..k])
      {
        assert possibleNames[..k + 1][..k] == possibleNames[..k];
        if Includes(header, possibleNames[k]) {
          AnyIncludedIff(header, possibleNames);
          assert possibleNames[k] in possibleNames;
          return i;
        }
      }
      assert possibleNames[..|possibleNames|] == possibleNames;
    }
    return -1;
  }

  /** The column found does not depend on the order, or repetition, of the candidate names. */
  lemma CandidateOrderIrrelevant(headers: Row, names1: seq<string>, names2: seq<string>)
    requires forall n :: n in names1 <==> n in names2
    ensures ColumnIndex(headers, names1) == ColumnIndex(headers, names2)
  {
    forall j | 0 <= j < |headers|
      ensures HeaderMatches(headers[j], names1) == HeaderMatches(headers[j], names2)
    {
      AnyIncludedIff(HeaderText(headers[j]), names1);
      AnyIncludedIff(HeaderText(headers[j]), names2);
    }
  }

  /** A missing header reads as `''`, which contains only the empty candidate. */
  lemma MissingHeaderMatches(names: seq<string>)
    ensures HeaderMatches(Empty, names) <==> "" in names
  {
    AnyIncludedIff("", names);
    if "" in names {
      assert OccursAt("", "", 0);
    }
  }

  const NameCandidates := ["customer name", "name", "customer"]
  const AddressCandidates := ["address", "addr"]
  const ContactCandidates := ["contact number", "contact", "phone", "mobile"]

  /** The resolved name, address and contact columns. */
  datatype Columns = Columns(name: nat, address: nat, contact: nat)

  /** The three searches of `processExcelData`; `None` when any of them finds nothing. */
  function ResolveColumns(headers: Row): Option<Columns> {
    var n, a, c := ColumnIndex(headers, NameCandidates), ColumnIndex(headers, AddressCandidates),
      ColumnIndex(headers, ContactCandidates);
    if n == -1 || a == -1 || c == -1 then None else Some(Columns(n, a, c))
  }

  /** The three `findColumnIndex` calls of `processExcelData` and the check that none of them failed. */
  method FindColumns(headers: Row) returns (cols: Option<Columns>)
    ensures cols == ResolveColumns(headers)
  {
    var customerNameIndex := FindColumnIndex(headers, NameCandidates);
    var addressIndex := FindColumnIndex(headers, AddressCandidates);
    var contactIndex := FindColumnIndex(headers, ContactCandidates);
    if customerNameIndex == -1 || addressIndex == -1 || contactIndex == -1 {
      return None;
    }
    return Some(Columns(customerNameIndex, addressIndex, contactIndex));
  }

  datatype Customer = Customer(excelRowNumber: int, customerName: string, address: string, contactNumber: string)

  /** A row is kept when its name cell is non-empty after trimming. */
  predicate HasName(row: Row, cols: Columns) {
    Trim(CellText(row, cols.name)) != ""
  }

  /** The record for a row; the cells are stored as they are, untrimmed. */
  function RowCustomer(row: Row, number: int, cols: Columns): Customer {
    Customer(number, CellText(row, cols.name), CellText(row, cols.address), CellText(row, cols.contact))
  }

  predicate IncreasingRows(cs: seq<Customer>) {
    forall a, b :: 0 <= a < b < |cs| ==> cs[a].excelRowNumber < cs[b].excelRowNumber
  }

  /** The records of `rows[lo..hi]` in order, the row at index `i` numbered `i + shift`, rows without a name left out. */
  function Collect(rows: seq<Row>, cols: Columns, lo: nat, hi: nat, shift: int): (cs: seq<Customer>)
    requires lo <= hi <= |rows|
    ensures |cs| <= hi - lo
    decreases hi - lo
  {
    if hi == lo then []
    else
      Collect(rows, cols, lo, hi - 1, shift) +
      if HasName(rows[hi - 1], cols) then [RowCustomer(rows[hi - 1], hi - 1 + shift, cols)] else []
  }

  /**
   * Each record in `cs` is the record of a named row of `rows[lo..hi]`: the row its number
   * names, shifted back by `shift`.
   */
  predicate RecordsOf(cs: seq<Customer>, rows: seq<Row>, cols: Columns, lo: nat, hi: nat, shift: int)
    requires hi <= |rows|
  {
    forall k :: 0 <= k < |cs| ==>
      lo + shift <= cs[k].excelRowNumber < hi + shift &&
      HasName(rows[cs[k].excelRowNumber - shift], cols) &&
      cs[k] == RowCustomer(rows[cs[k].excelRowNumber - shift], cs[k].excelRowNumber, cols)
  }

  /** Every record comes from a named row of the scanned range. */
  lemma {:induction false} CollectSound(rows: seq<Row>, cols: Columns, lo: nat, hi: nat, shift: int)
    requires lo <= hi <= |rows|
    ensures RecordsOf(Collect(rows, cols, lo, hi, shift), rows, cols, lo, hi, shift)
    decreases hi - lo
  {
    if hi > lo {
      CollectSound(rows, cols, lo, hi - 1, shift);
      var init := Collect(rows, cols, lo, hi - 1, shift);
      var cs := Collect(rows, cols, lo, hi, shift);
      var named := HasName(rows[hi - 1], cols);
      assert cs == init + if named then [RowCustomer(rows[hi - 1], hi - 1 + shift, cols)] else [];
      forall k | 0 <= k < |cs|
        ensures lo + shift <= cs[k].excelRowNumber < hi + shift &&
          HasName(rows[cs[k].excelRowNumber - shift], cols) &&
          cs[k] == RowCustomer(rows[cs[k].excelRowNumber - shift], cs[k].excelRowNumber, cols)
      {
        if k < |init| {
          assert cs[k] == init[k];
        } else {
          assert named && cs[k].excelRowNumber - shift == hi - 1;
        }
      }
    }
  }

  /** The record numbers strictly increase. */
  lemma {:induction false} CollectIncreasing(rows: seq<Row>, cols: Columns, lo: nat, hi: nat, shift: int)
    requires lo <= hi <= |rows|
    ensures IncreasingRows(Collect(rows, cols, lo, hi, shift))
    decreases hi - lo
  {
    if hi > lo {
      CollectIncreasing(rows, cols, lo, hi - 1, shift);
      CollectSound(rows, cols, lo, hi - 1, shift);
      var init := Collect(rows, cols, lo, hi - 1, shift);
      var cs := Collect(rows, cols, lo, hi, shift);
      var named := HasName(rows[hi - 1], cols);
      assert cs == init + if named then [RowCustomer(rows[hi - 1], hi - 1 + shift, cols)] else [];
      forall a, b | 0 <= a < b < |cs|
        ensures cs[a].excelRowNumber < cs[b].excelRowNumber
      {
        assert cs[a] == init[a];
        assert init[a].excelRowNumber < hi - 1 + shift;
        if b < |init| {
          assert cs[b] == init[b];
        }
      }
    }
  }

  /** Every named row of `rows[lo..hi]` has its record. */
  lemma {:induction false} CollectComplete(rows: seq<Row>, cols: Columns, lo: nat, hi: nat, shift: int, i: nat)
    requires lo <= i < hi <= |rows| && HasName(rows[i], cols)
    ensures RowCustomer(rows[i], i + shift, cols) in Collect(rows, cols, lo, hi, shift)
    decreases hi - lo
  {
    if i < hi - 1 {
      CollectComplete(rows, cols, lo, hi - 1, shift, i);
    }
  }

  /** Rows outside `rows[lo..hi]` are never read. */
  lemma {:induction false} CollectReadsOnlyRange(rows: seq<Row>, rows': seq<Row>, cols: Columns, lo: nat, hi: nat, shift: int)
    requires lo <= hi <= |rows| && hi <= |rows'| && rows[lo..hi] == rows'[lo..hi]
    ensures Collect(rows, cols, lo, hi, shift) == Collect(rows', cols, lo, hi, shift)
    decreases hi - lo
  {
    if hi > lo {
      assert rows[hi - 1] == rows[lo..hi][hi - 1 - lo] == rows'[hi - 1];
      assert rows[lo..hi - 1] == rows[lo..hi][..hi - 1 - lo];
      assert rows'[lo..hi - 1] == rows'[lo..hi][..hi - 1 - lo];
      CollectReadsOnlyRange(rows, rows', cols, lo, hi - 1, shift);
    }
  }

  /** The first index the loop of `processExcelData` examines: it starts at `i = 1`. */
  function FirstExamined(rows: seq<Row>): nat {
    if |rows| == 0 then 0 else 1
  }

  /**
   * The records `processExcelData` builds from `rows = jsonData.slice(1)`, as written:
   * `rows[0]` is skipped and `rows[i]` is numbered `i`.
   */
  function CustomersAsWritten(rows: seq<Row>, cols: Columns): (cs: seq<Customer>)
    ensures RecordsOf(cs, rows, cols, FirstExamined(rows), |rows|, 0) && IncreasingRows(cs)
  {
    CollectSound(rows, cols, FirstExamined(rows), |rows|, 0);
    CollectIncreasing(rows, cols, FirstExamined(rows), |rows|, 0);
    Collect(rows, cols, FirstExamined(rows), |rows|, 0)
  }

  /** As written, the first data row of the sheet never becomes a record, whatever it holds. */
  lemma AsWrittenIgnoresFirstDataRow(rows: seq<Row>, cols: Columns, other: Row)
    requires |rows| >= 1
    ensures CustomersAsWritten(rows, cols) == CustomersAsWritten(rows[0 := other], cols)
  {
    CollectReadsOnlyRange(rows, rows[0 := other], cols, 1, |rows|, 0);
  }

  /**
   * The records the code's comment describes: every data row examined, numbered by its
   * 1-based row in the sheet (the header is row 1, so `rows[i]` is row `i + 2`).
   */
  function CustomersIntended(rows: seq<Row>, cols: Columns): seq<Customer> {
    Collect(rows, cols, 0, |rows|, 2)
  }

  /**
   * With the intended numbering, each record carries the sheet row it came from
   * (`jsonData[n - 1]` for number `n`), and every named data row has its record.
   */
  lemma IntendedNumbering(jsonData: seq<Row>, cols: Columns)
    requires |jsonData| >= 1
    ensures var cs := CustomersIntended(jsonData[1..], cols);
      (forall k :: 0 <= k < |cs| ==>
        2 <= cs[k].excelRowNumber <= |jsonData| &&
        cs[k] == RowCustomer(jsonData[cs[k].excelRowNumber - 1], cs[k].excelRowNumber, cols)) &&
      (forall g :: 1 <= g < |jsonData| && HasName(jsonData[g], cols) ==>
        RowCustomer(jsonData[g], g + 1, cols) in cs)
  {
    var rows := jsonData[1..];
    var cs := CustomersIntended(rows, cols);
    CollectSound(rows, cols, 0, |rows|, 2);
    forall k | 0 <= k < |cs|
      ensures 2 <= cs[k].excelRowNumber <= |jsonData| &&
        cs[k] == RowCustomer(jsonData[cs[k].excelRowNumber - 1], cs[k].excelRowNumber, cols)
    {
      assert rows[cs[k].excelRowNumber - 2] == jsonData[cs[k].excelRowNumber - 1];
    }
    forall g | 1 <= g < |jsonData| && HasName(jsonData[g], cols)
      ensures RowCustomer(jsonData[g], g + 1, cols) in CustomersIntended(rows, cols)
    {
      assert rows[g - 1] == jsonData[g];
      CollectComplete(rows, cols, 0, |rows|, 2, g - 1);
    }
  }

  /**
   * Sheet rows 2, 3 and 4 under a header, row 3's name blank: the code as written yields
   * one record, row 4's, numbered 2; the intended numbering yields rows 2 and 4, numbered 2 and 4.
   */
  lemma RowNumberingDiscrepancy(first: Row, blank: Row, third: Row, cols: Columns)
    requires HasName(first, cols) && !HasName(blank, cols) && HasName(third, cols)
    ensures CustomersAsWritten([first, blank, third], cols) == [RowCustomer(third, 2, cols)]
    ensures CustomersIntended([first, blank, third], cols) ==
      [RowCustomer(first, 2, cols), RowCustomer(third, 4, cols)]
  {
    var rows := [first, blank, third];
    assert Collect(rows, cols, 1, 2, 0) == [];
    assert Collect(rows, cols, 0, 1, 2) == [RowCustomer(first, 2, cols)];
    assert Collect(rows, cols, 0, 2, 2) == [RowCustomer(first, 2, cols)];
  }

  /** A name cell is blank exactly when it is missing or holds white space only. */
  lemma HasNameIff(row: Row, cols: Columns)
    ensures HasName(row, cols) <==>
      cols.name < |row| && row[cols.name].Text? &&
      exists k :: 0 <= k < |row[cols.name].text| && !IsJsWhitespace(row[cols.name].text[k])
  {
    TrimEmptyIff(CellText(row, cols.name));
  }

  /** The outcome of `validateInputs`: the first check that fails, or `Valid`. */
  datatype Validation = NotANumber | StartBelowTwo | StartAfterEnd | EndBeyond(maxRow: int) | NoCustomerData | Valid

  /**
   * `validateInputs` on the parsed bounds (`None` for `NaN`) and the number of loaded
   * customers. The "no customer data" branch can never be reached: with no customers the
   * bounds check already rejects every range.
   */
  function ValidateInputs(startRow: Option<int>, endRow: Option<int>, customerCount: nat): (v: Validation)
    ensures v == Valid <==>
      startRow.Some? && endRow.Some? && 2 <= startRow.value <= endRow.value <= customerCount + 1 &&
      customerCount > 0
    ensures v != NoCustomerData
  {
    if startRow.None? || endRow.None? then NotANumber
    else if startRow.value < 2 then StartBelowTwo
    else if startRow.value > endRow.value then StartAfterEnd
    else if endRow.value > customerCount + 1 then EndBeyond(customerCount + 1)
    else if customerCount == 0 then NoCustomerData
    else Valid
  }

  /** The `filter` of `generateDocument`: customers whose row number lies in `[lo, hi]`, in order. */
  function InRange(cs: seq<Customer>, lo: int, hi: int): (r: seq<Customer>)
    ensures |r| <= |cs|
    ensures forall c :: c in r <==> c in cs && lo <= c.excelRowNumber <= hi
    decreases |cs|
  {
    if cs == [] then []
    else
      var init := cs[..|cs| - 1];
      var last := cs[|cs| - 1];
      assert cs == init + [last];
      InRange(init, lo, hi) + if lo <= last.excelRowNumber <= hi then [last] else []
  }

  /** Filtering keeps the records' order. */
  lemma {:induction false} InRangeKeepsOrder(cs: seq<Customer>, lo: int, hi: int)
    requires IncreasingRows(cs)
    ensures IncreasingRows(InRange(cs, lo, hi))
    decreases |cs|
  {
    if cs != [] {
      var init := cs[..|cs| - 1];
      var last := cs[|cs| - 1];
      assert IncreasingRows(init);
      InRangeKeepsOrder(init, lo, hi);
      var r := InRange(init, lo, hi);
      forall k | 0 <= k < |r|
        ensures r[k].excelRowNumber < last.excelRowNumber
      {
        assert r[k] in r;
        var j :| 0 <= j < |init| && init[j] == r[k];
        assert cs[j] == init[j];
      }
      var all := InRange(cs, lo, hi);
      assert all == r + if lo <= last.excelRowNumber <= hi then [last] else [];
      forall a, b | 0 <= a < b < |all|
        ensures all[a].excelRowNumber < all[b].excelRowNumber
      {
        if b < |r| {
          assert all[a] == r[a] && all[b] == r[b];
        } else {
          assert all[a] == r[a] && all[b] == last;
        }
      }
    }
  }

  function RowNumbers(cs: seq<Customer>): (ns: seq<int>)
    ensures |ns| == |cs| && forall k :: 0 <= k < |cs| ==> ns[k] == cs[k].excelRowNumber
  {
    seq(|cs|, k requires 0 <= k < |cs| => cs[k].excelRowNumber)
  }

  /** The first element after the ascending numeric `sort`: the least row number. */
  function MinRow(ns: seq<int>): (m: int)
    requires |ns| >= 1
    ensures m in ns && forall k :: 0 <= k < |ns| ==> m <= ns[k]
  {
    if |ns| == 1 then ns[0]
    else
      var rest := MinRow(ns[1..]);
      assert forall k :: 1 <= k < |ns| ==> ns[k] == ns[1..][k - 1];
      if ns[0] <= rest then ns[0] else rest
  }

  /** The last element after the ascending numeric `sort`: the greatest row number. */
  function MaxRow(ns: seq<int>): (m: int)
    requires |ns| >= 1
    ensures m in ns && forall k :: 0 <= k < |ns| ==> ns[k] <= m
  {
    if |ns| == 1 then ns[0]
    else
      var rest := MaxRow(ns[1..]);
      assert forall k :: 1 <= k < |ns| ==> ns[k] == ns[1..][k - 1];
      if ns[0] >= rest then ns[0] else rest
  }

  /** How the row-number branch of `generateDocument` ends. */
  datatype RangeOutcome =
    | Rejected(reason: Validation)
    | NoCustomersInRange
    | Selected(customers: seq<Customer>, firstRow: int, lastRow: int)

  /** The row-number branch of `generateDocument`: validate, filter, then the file name's bounds. */
  function SelectRange(customerData: seq<Customer>, startRow: Option<int>, endRow: Option<int>): (r: RangeOutcome)
    ensures r.Rejected? <==> ValidateInputs(startRow, endRow, |customerData|) != Valid
    ensures r.Rejected? ==> r.reason == ValidateInputs(startRow, endRow, |customerData|)
    ensures r.Selected? ==> |r.customers| >= 1 && r.firstRow <= r.lastRow
  {
    var v := ValidateInputs(startRow, endRow, |customerData|);
    if v != Valid then Rejected(v)
    else
      var selected := InRange(customerData, startRow.value, endRow.value);
      if selected == [] then NoCustomersInRange
      else Selected(selected, MinRow(RowNumbers(selected)), MaxRow(RowNumbers(selected)))
  }

  /**
   * A selection holds exactly the customers in the validated range, and the file-name
   * bounds are its least and greatest row numbers, inside the range.
   */
  lemma SelectionMeans(customerData: seq<Customer>, startRow: Option<int>, endRow: Option<int>)
    requires SelectRange(customerData, startRow, endRow).Selected?
    ensures var out := SelectRange(customerData, startRow, endRow);
      var sel, s, e := out.customers, startRow.value, endRow.value;
      ValidateInputs(startRow, endRow, |customerData|) == Valid && |sel| >= 1 &&
      (forall c :: c in sel <==> c in customerData && s <= c.excelRowNumber <= e) &&
      s <= out.firstRow <= out.lastRow <= e &&
      (forall c :: c in sel ==> out.firstRow <= c.excelRowNumber <= out.lastRow) &&
      (exists c :: c in sel && c.excelRowNumber == out.firstRow) &&
      (exists c :: c in sel && c.excelRowNumber == out.lastRow)
  {
    var out := SelectRange(customerData, startRow, endRow);
    var sel := out.customers;
    var ns := RowNumbers(sel);
    assert sel[0] in sel;
    forall c | c in sel
      ensures out.firstRow <= c.excelRowNumber <= out.lastRow
    {
      var k :| 0 <= k < |sel| && sel[k] == c;
      assert ns[k] == c.excelRowNumber;
    }
    var a :| 0 <= a < |ns| && ns[a] == out.firstRow;
    var b :| 0 <= b < |ns| && ns[b] == out.lastRow;
    assert sel[a] in sel && sel[b] in sel;
  }

  /** When the records are in row order, as `processExcelData` builds them, the bounds are the first and last selected. */
  lemma OrderedSelectionBounds(customerData: seq<Customer>, startRow: Option<int>, endRow: Option<int>)
    requires IncreasingRows(customerData)
    requires SelectRange(customerData, startRow, endRow).Selected?
    ensures var out := SelectRange(customerData, startRow, endRow);
      out.firstRow == out.customers[0].excelRowNumber &&
      out.lastRow == out.customers[|out.customers| - 1].excelRowNumber
  {
    var out := SelectRange(customerData, startRow, endRow);
    var sel := out.customers;
    var ns := RowNumbers(sel);
    InRangeKeepsOrder(customerData, startRow.value, endRow.value);
    var a :| 0 <= a < |ns| && ns[a] == out.firstRow;
    var b :| 0 <= b < |ns| && ns[b] == out.lastRow;
    assert ns[0] >= out.firstRow && ns[|ns| - 1] <= out.lastRow;
  }

  /**
   * An empty selection is reported apart from a rejected range: the bounds were valid and
   * no customer's row number lies between them.
   */
  lemma EmptySelectionMeans(customerData: seq<Customer>, startRow: Option<int>, endRow: Option<int>)
    requires SelectRange(customerData, startRow, endRow) == NoCustomersInRange
    ensures ValidateInputs(startRow, endRow, |customerData|) == Valid
    ensures forall c :: c in customerData ==> !(startRow.value <= c.excelRowNumber <= endRow.value)
  {
    var sel := InRange(customerData, startRow.value, endRow.value);
    assert sel == [];
  }

  /**
   * As written, the record numbered 1 (the sheet's third row) is never in a row-range
   * selection, since every accepted range starts at 2 or later.
   */
  lemma AsWrittenRowOneUnselectable(customerData: seq<Customer>, startRow: Option<int>, endRow: Option<int>)
    requires SelectRange(customerData, startRow, endRow).Selected?
    ensures forall c :: c in SelectRange(customerData, startRow, endRow).customers ==> c.excelRowNumber != 1
  {
    SelectionMeans(customerData, startRow, endRow);
  }

  /** The session state of script.js: the loaded `customerData`. */
  class CustomerSession {
    var customerData: seq<Customer>

    constructor ()
      ensures customerData == []
    {
      customerData := [];
    }

    /**
     * `processExcelData`: when a required column is missing it returns before touching
     * `customerData`; otherwise it rebuilds `customerData` row by row, as written.
     */
    method ProcessExcelData(jsonData: seq<Row>) returns (columnsFound: bool)
      requires |jsonData| >= 1
      modifies this
      ensures columnsFound <==> ResolveColumns(jsonData[0]).Some?
      ensures !columnsFound ==> customerData == old(customerData)
      ensures columnsFound ==> customerData == CustomersAsWritten(jsonData[1..], ResolveColumns(jsonData[0]).value)
    {
      var headers := jsonData[0];
      var rows := jsonData[1..];
      var found := FindColumns(headers);
      if found.None? {
        return false;
      }
      var cols := found.value;
      customerData := [];
      ghost var lo := FirstExamined(rows);
      var i := 1;
      while i < |rows|
        invariant 1 <= i && lo <= i && (|rows| >= 1 ==> i <= |rows|)
        invariant customerData == Collect(rows, cols, lo, if |rows| == 0 then 0 else i, 0)
      {
        var row := rows[i];
        var customerName := CellText(row, cols.name);
        var address := CellText(row, cols.address);
        var contactNumber := CellText(row, cols.contact);
        assert Collect(rows, cols, lo, i + 1, 0) ==
          customerData + if HasName(row, cols) then [RowCustomer(row, i, cols)] else [];
        if Trim(customerName) != "" {
          customerData := customerData + [Customer(i, customerName, address, contactNumber)];
        }
        i := i + 1;
      }
      return true;
    }

    /** `loadGoogleSheetsData` followed, on success, by `processExcelData`; nothing changes on failure. */
    method LoadGoogleSheets(input: string, net: Network) returns (out: LoadOutcome)
      requires WellFormed(net)
      modifies this
      ensures out == LoadResult(Csv.Script, input, net)
      ensures !out.Loaded? ==> customerData == old(customerData)
      ensures out.Loaded? ==>
        var jsonData := TextRows(out.grid);
        var cols := ResolveColumns(jsonData[0]);
        customerData == if cols.Some? then CustomersAsWritten(jsonData[1..], cols.value) else old(customerData)
    {
      out := LoadGoogleSheetsData(Csv.Script, input, net);
      if out.Loaded? {
        var _ := ProcessExcelData(TextRows(out.grid));
      }
    }
  }
}
