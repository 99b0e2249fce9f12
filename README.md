# Sheet-to-document data core, modelled in Dafny

Two browser scripts turn a spreadsheet into printable documents:

- `script.js` builds customer address labels (name, address, contact number).
- `flexible-script.js` builds documents from any columns the user picks.

This project models the logic both scripts share, from the text of a sheet to the records a document is built from:

- the tolerant CSV reader `parseCSVData`;
- the Google Sheets address check `isValidGoogleSheetsUrl` and the spreadsheet-ID pattern `extractSpreadsheetId`;
- the remote loading chain. `loadViaAlternativeProxy` tries relay services, `loadViaDirectCSV` tries direct export URLs, and `loadViaJSONP` is a cache-bypass request that falls back to the relays. `loadGoogleSheetsData` strings them together.

It also models the record-building and selection rules of each script.

- `script.js`:
  - `findColumnIndex` is the header search.
  - `processExcelData` builds the customer records.
  - `validateInputs` checks the row range.
  - Inside `generateDocument`, a filter selects customers by row number and computes the file name's row bounds.
- `flexible-script.js`:
  - `processExcelData` builds header-keyed records numbered by `_rowIndex`.
  - `toggleColumn`, `selectAllColumns` and `clearAllColumns` edit the list of selected columns.
  - `getSelectedData` selects records by row range or by checked index.

Modules:

- `JsString` (`js_string.dfy`): the JavaScript string built-ins used. It has `trim` with the exact ECMAScript white-space set, `includes`, `split` on one character, ASCII `toLowerCase`, and decimal rendering.
- `Csv` (`csv.dfy`): `parseCSVData` in both variants. A `Variant` value selects the line handling:
  - `Flexible` trims the whole input and keeps blank lines;
  - `Script` splits the input as is and drops blank lines.

  The per-character loop is the method `ScanLine`. It is proved equal to the specification function `ParseLine`. The facts about the reader are lemmas about `ParseLine`, stated against independent reference definitions: quote parity, unquoted commas, and the line with its quotes removed.
- `SheetsUrl` (`sheets_url.dfy`): the URL predicate, and the leftmost match of `/spreadsheets/d/([a-zA-Z0-9-_]+)`.
- `FetchChain` (`fetch_chain.dfy`): the strategy chain. Every request is replaced by the outcome it ended in (`Network`), so what remains is the decision logic. Each loop is a method proved against a "first accepted wins" function.
- `Sheet` (`sheet.dfy`): cells as the record builders see them, either missing or text.
- `CustomerSheet` (`customer_sheet.dfy`): the `script.js` records and selection. The global `customerData` is a field of the class `CustomerSession`.
- `FlexibleSheet` (`flexible_sheet.dfy`): the `flexible-script.js` records and selection. The globals `allData` and `selectedColumns`, plus the rendered column list, are fields of the class `FlexibleSession`.

Behaviours of the code that the model keeps as they are:

- **Column search.** `findColumnIndex` is header-major: it returns the first header that contains any candidate. So the order of the candidate list never matters (`CandidateOrderIrrelevant`).
  - The header is not trimmed. This cannot change a substring test.
  - The three searches are independent, so two of them may resolve to the same column.
- **`validateInputs`.** The "no customer data" branch cannot be reached. With no customers, every range is already rejected by the end-row bound (`ValidateInputs` never returns `NoCustomerData`).
- **Row numbering in `script.js`.** See Findings.
- **Cache-bypass step.** It parses any 2xx body without the HTML check the other strategies apply (`BypassBodyUnchecked`).

## Model

| member | source | states |
|---|---|---|
| JsString.TrimShape | flexible-script.js:413 | `trim` keeps one contiguous piece of its input, starting at `TrimOffset`, with no white space at either end; everything dropped before and after it is white space |
| JsString.TrimIdempotent | flexible-script.js:427 | trimming a trimmed string changes nothing |
| JsString.TrimEmptyIff | script.js:420 | a string trims to `''` exactly when every character is ECMAScript white space |
| JsString.Includes | script.js:569 | `includes` is true exactly when the needle occurs at some position |
| JsString.NatToString | flexible-script.js:454 | `String(n)` is a non-empty run of decimal digits with no leading zero |
| JsString.NatToStringValue | flexible-script.js:454 | reading the rendered digits back as a decimal number gives `n` |
| JsString.NatToStringInjective | flexible-script.js:454 | distinct numbers render as distinct strings, so placeholder names of distinct columns differ |
| JsString.SplitJoin | flexible-script.js:413 | `split('\n')` gives one piece more than there are separators; no piece contains the separator; joining the pieces gives back the input |
| Csv.ScanFacts | flexible-script.js:421-432 | after the character loop, the quote flag is the parity of the quotes read, and one field has closed per comma met outside quotes; no field holds a quote; the fields joined by commas give the line with its quotes deleted |
| Csv.ParseLineShape | script.js:426-440 | a parsed line has one cell more than it has unquoted commas; every cell is quote-free and equal to its own trim |
| Csv.BlankLineRow | flexible-script.js:416-435 | a line of white space only becomes the single empty cell |
| Csv.QuotedCommaExample | flexible-script.js:419-434 | `"Doe, John",123 Main St,555-1234` gives exactly the cells `Doe, John`, `123 Main St`, `555-1234` |
| Csv.NonBlankMembers | script.js:419-420 | `script.js` keeps exactly the lines whose trim is not empty |
| Csv.NonBlankAppend | script.js:419-420 | the line filter keeps relative order: it distributes over concatenation |
| Csv.NonBlankCount | script.js:419-420 | no line is dropped exactly when none of them is blank |
| Csv.FlexibleRowCount | flexible-script.js:413-436 | `flexible-script.js` yields one row per `\n`-separated piece of the trimmed input |
| Csv.FlexibleEmptyInput | flexible-script.js:413-438 | `flexible-script.js` turns empty input into one row holding one empty cell |
| Csv.ScriptEmptyInput | script.js:416-420 | `script.js` turns empty input into no rows: the single empty line is dropped as blank |
| Csv.RowShape | script.js:415-446 | every row of either variant reads one kept line: unquoted commas + 1 cells, each quote-free and trimmed |
| Csv.ScanLine | script.js:423-441 | the per-character loop yields exactly `ParseLine` of the line |
| Csv.ParseCsvFlexible | flexible-script.js:412-439 | the line loop of `flexible-script.js` yields the rows of the trimmed, split input |
| Csv.ParseCsvScript | script.js:415-446 | the line loop of `script.js` yields the rows of the non-blank lines, in order |
| SheetsUrl.IsValidGoogleSheetsUrl | flexible-script.js:441-444 | true exactly when the address contains `docs.google.com/spreadsheets/d/` and at least one of `/edit`, `/view`, `/pub` |
| SheetsUrl.IdRun | script.js:268 | the run taken is the longest prefix of identifier characters `[A-Za-z0-9_-]` |
| SheetsUrl.ExtractSpreadsheetId | flexible-script.js:264-270 | `None` (the throw) exactly when no `/spreadsheets/d/` is followed by an identifier character; otherwise the maximal non-empty identifier run after the leftmost such match |
| SheetsUrl.ValidUrlHasMarker | script.js:515-518 | every address the check accepts contains `/spreadsheets/d/` |
| FetchChain.ProxyFrom | flexible-script.js:359-409 | the relay loop yields nothing exactly when no relay reply is accepted; otherwise it yields the parse of the first accepted relay's payload |
| FetchChain.LoadViaAlternativeProxy | script.js:351-413 | the relay loop with early return equals `ProxyFrom` from the first relay |
| FetchChain.DirectFrom | flexible-script.js:281-317 | the direct loop yields nothing exactly when no attempt has an opaque probe and a 2xx, non-blank, non-HTML retry; otherwise it yields the parse of the first such body |
| FetchChain.LoadViaDirectCSV | script.js:275-321 | the direct-URL loop equals `DirectFrom` from the first URL |
| FetchChain.LoadViaJSONP | flexible-script.js:320-346 | a 2xx bypass reply is parsed as it is; anything else falls back to a fresh relay pass |
| FetchChain.ChainResult | flexible-script.js:213-251 | after the three guarded steps `jsonData` is still `null` or exactly what one of the strategies returned |
| FetchChain.LoadResult | flexible-script.js:190-251 | a blank input gives "no URL" and a non-blank invalid one "invalid URL", both before any request; for a valid address the load succeeds exactly when the ID is extracted and the chain ends with a grid of at least two rows, and then it carries that grid |
| FetchChain.ChainFirstUsable | flexible-script.js:213-249 | the chain ends with a grid of at least two rows exactly when some strategy yields one, and then it is the first such strategy's grid |
| FetchChain.BypassBodyUnchecked | flexible-script.js:335-337 | when the first two strategies fail and the bypass request answers 2xx, its body is the result whatever it holds |
| FetchChain.LoadGoogleSheetsData | script.js:193-252 | the orchestrator returns exactly `LoadResult`: no address, invalid address, failure, or the chain's grid, loading exactly when the ID is extracted and that grid has at least two rows |
| FetchChain.LoadedMeans | script.js:250-254 | a load succeeds only for a valid address with an extractable ID, and only with a grid of at least two rows that some strategy produced |
| FetchChain.NothingAcceptedFails | flexible-script.js:247-249 | when no endpoint's reply is accepted, the load fails |
| FetchChain.HtmlRelayReplyRejected | script.js:397 | a relay payload that starts with `<!DOCTYPE html>` is never accepted |
| CustomerSheet.AnyIncludedIff | script.js:568-572 | some candidate in the list occurs in the header text exactly when the loop over the list finds one |
| CustomerSheet.ColumnIndexFrom | script.js:566-574 | -1 exactly when no header at or after the start contains a candidate; otherwise the first header that does |
| CustomerSheet.FindColumnIndex | script.js:565-575 | the nested search with early return yields the first header that contains any candidate, or -1 |
| CustomerSheet.FindColumns | script.js:530-537 | no columns exactly when one of the name, address or contact searches finds nothing; otherwise the first matching header of each |
| CustomerSheet.CandidateOrderIrrelevant | script.js:566-574 | lists with the same candidates, in any order, find the same column |
| CustomerSheet.MissingHeaderMatches | script.js:567 | a missing header reads as `''` and matches only an empty candidate |
| CustomerSheet.CollectSound | script.js:544-558 | each record is the record of the row its number names; that row lies in the scanned range and its name is non-blank after trimming |
| CustomerSheet.CollectIncreasing | script.js:544-558 | record numbers strictly increase |
| CustomerSheet.CollectComplete | script.js:544-558 | every row in the scanned range with a non-blank name has its record |
| CustomerSheet.HasNameIff | script.js:546-551 | a row is kept exactly when its name cell is present and holds a non-white-space character |
| CustomerSheet.CustomersAsWritten | script.js:544-558 | as written, every record is the record of the data row its number names, from index 1 on, with a non-blank name; numbers strictly increase |
| CustomerSheet.AsWrittenIgnoresFirstDataRow | script.js:544 | as written, the first data row never affects the records, whatever it holds |
| CustomerSheet.IntendedNumbering | script.js:553 | with the numbering the comment describes, each record names its own sheet row, and every named data row has a record |
| CustomerSheet.RowNumberingDiscrepancy | script.js:544-553 | for three data rows with a blank middle name, the code as written yields one record numbered 2 (from sheet row 4); the intended numbering yields records 2 and 4 |
| CustomerSheet.CustomerSession.ProcessExcelData | script.js:525-563 | if any of the three columns is missing, `customerData` is left as it was; otherwise it is rebuilt from the rows the loop examines |
| CustomerSheet.CustomerSession.LoadGoogleSheets | script.js:250-254 | on a successful load the grid goes through `processExcelData`; on failure `customerData` is untouched |
| CustomerSheet.ValidateInputs | script.js:745-776 | valid exactly when both bounds are numbers, 2 ≤ start ≤ end ≤ count + 1, and some customer is loaded; the "no customer data" outcome never occurs |
| CustomerSheet.InRange | script.js:805-807 | exactly the customers whose row number lies between the bounds are kept |
| CustomerSheet.InRangeKeepsOrder | script.js:805-807 | the filter keeps the records' order |
| CustomerSheet.MinRow | script.js:824-825 | the first row number after the ascending sort is the least one |
| CustomerSheet.MaxRow | script.js:824-826 | the last row number after the ascending sort is the greatest one |
| CustomerSheet.SelectRange | script.js:797-826 | the range is rejected exactly when `validateInputs` fails, with its reason; a selection is non-empty and its first row bound is at most its last |
| CustomerSheet.SelectionMeans | script.js:797-826 | a selection follows a valid range, holds exactly the customers in it, and its file-name bounds are its least and greatest row numbers |
| CustomerSheet.OrderedSelectionBounds | script.js:824-826 | for records in row order, the file-name bounds are the first and last selected |
| CustomerSheet.EmptySelectionMeans | script.js:809-812 | "no customers in range" is reported only for a valid range that no customer's row number falls in |
| CustomerSheet.AsWrittenRowOneUnselectable | script.js:754-756 | the record numbered 1 is never selected by row range |
| FlexibleSheet.ColumnName | flexible-script.js:454 | a column's name is its header text when that is non-empty, otherwise `Column_` followed by the 1-based column number in decimal; it is never empty |
| FlexibleSheet.FillKeys | flexible-script.js:452-456 | a row object has `_rowIndex` and one key per header, and nothing else |
| FlexibleSheet.FillLastWins | flexible-script.js:453-456 | among columns with the same name, the last one's cell (`''` when missing) is the value |
| FlexibleSheet.FillRowIndex | flexible-script.js:452 | `_rowIndex` keeps its number unless a column is itself named `_rowIndex` |
| FlexibleSheet.NonBlankRows | flexible-script.js:448 | exactly the rows with some non-empty cell are kept |
| FlexibleSheet.NonBlankRowsAppend | flexible-script.js:448 | the filter keeps relative order: it distributes over concatenation |
| FlexibleSheet.AllData | flexible-script.js:446-458 | one record per non-blank data row |
| FlexibleSheet.RowRecordShape | flexible-script.js:452-456 | a row object has `_rowIndex` and one key per header; each column whose name no later column repeats holds its cell; `_rowIndex` holds the row's number unless a header takes that name |
| FlexibleSheet.AllDataShape | flexible-script.js:446-458 | every record comes from a kept data row; its keys, values and `_rowIndex` (1..n after filtering) are as the row object prescribes |
| FlexibleSheet.AllDataComplete | flexible-script.js:448-451 | every non-blank data row has a record |
| FlexibleSheet.RemoveAll | flexible-script.js:516 | the filtered list no longer contains the column, and every other column keeps its count |
| FlexibleSheet.Toggle | flexible-script.js:512-524 | after a toggle the column is selected exactly when it was not before; every other column keeps its count |
| FlexibleSheet.ToggleKeepsOthers | flexible-script.js:512-524 | the other columns keep their relative order |
| FlexibleSheet.ToggleTwiceAbsent | flexible-script.js:512-524 | toggling an unselected column twice restores the list |
| FlexibleSheet.ToggleTwicePresent | flexible-script.js:512-524 | toggling a selected column twice removes all its copies and appends it once |
| FlexibleSheet.FlexibleSession.ToggleColumn | flexible-script.js:510-529 | the selection becomes the toggled list; records and column list are unchanged |
| FlexibleSheet.FlexibleSession.SelectAllColumns | flexible-script.js:531-545 | every listed column is selected, in list order |
| FlexibleSheet.FlexibleSession.ClearAllColumns | flexible-script.js:547-559 | the selection becomes empty |
| FlexibleSheet.FlexibleSession.ProcessExcelData | flexible-script.js:446-458 | `allData` and the column list are rebuilt from the grid; the selection is kept |
| FlexibleSheet.FlexibleSession.LoadGoogleSheets | flexible-script.js:247-251 | on a successful load, a grid of at least two rows goes through `processExcelData`; on failure nothing changes |
| FlexibleSheet.RangeSelection | flexible-script.js:764-771 | as written, whatever the bounds, the selection is one contiguous run of records beginning at position `max(1, start)` |
| FlexibleSheet.RangeSelectionBlock | flexible-script.js:764-771 | for an end row that is not negative, the result is the records at positions `max(1, start)` to `min(n, end)`; it is empty when start lies after end |
| FlexibleSheet.NegativeEndSelects | flexible-script.js:765-771 | as written, start 1 and end -1 on three records return the first two |
| FlexibleSheet.RangeSelectionIntended | flexible-script.js:764-771 | with the end clamped at 0, every range gives exactly the block between its bounds, and nothing when start lies after end |
| FlexibleSheet.RangeSelectionAgrees | flexible-script.js:764-771 | the corrected selection equals the one as written whenever the end row is not negative |
| FlexibleSheet.TableSelection | flexible-script.js:758-762 | one entry per checked index, in order: the record at that index when it lies inside the data, `undefined` otherwise |
| FlexibleSheet.TableSelectionAppend | flexible-script.js:758-762 | selecting two groups of checked rows is selecting each in turn: the selection keeps the order of the indices |

## Left out

- Network behaviour is not modelled. This covers `fetch`, CORS and `no-cors` semantics, the 8-second abort and `async` scheduling. Each request is given as the outcome it ended in (`Network`), and the relay's `JSON.parse` is the given function `envelope`.
- URL building is not modelled: `encodeURIComponent` and string interpolation of the request addresses. The addresses are listed for reference only, because the outcome of each request is given.
- Workbook decoding in `processFile` is not modelled. It is a foreign library. The grid it returns is an input.
- Numeric cells are not modelled. A cell is missing or text (`Sheet.Cell`). As a consequence:
  - `String(header)` for a numeric header is not modelled;
  - `.trim()` on a numeric name cell, which throws in `script.js`, is not modelled.
- Holes in sparse rows are not modelled. A hole reads the same as a missing cell. For data rows this agrees with `row[i] || ''` and with `some`. It does not agree for the header row of `flexible-script.js`: `headers.forEach` (flexible-script.js:453 and :480) skips a hole, so that column gets no key in any record and no item in the column list. The model gives it a `Column_k` key and item, as it does for a present but empty header.
- `FlexibleSheet.Fill`: a row object is a plain map, so every header name becomes a key. In the source, `rowObj[columnName] = …` (flexible-script.js:455) with a header named `__proto__` calls the inherited `__proto__` setter, which ignores a string value, so that column gets no key. `FillKeys`, `FillLastWins`, `RowRecordShape` and `AllDataShape` do not hold for such a header.
- `CustomerSheet.HeaderText`: `toLowerCase` is modelled on ASCII letters only. Other letters are left as they are.
- `FlexibleSheet.Record`: the insertion order of an object's keys is not modelled. A record is a map.
- `FlexibleSheet.FlexibleSession.SelectAllColumns`: the selection is the rendered column names, not text read back from the page. A column name that the page would render as markup is not modelled.
- `FlexibleSheet.TableSelection`: checkbox reading and `parseInt` of `data-index` are not modelled. The checked indices are given.
- Range inputs are given as already parsed. `parseInt` of the range inputs is an `Option<int>`, with `None` for `NaN`.
- Column-type sniffing in `populateColumnSelection` is not modelled. It is used for display only.
- Rendering, status messages, alerts and modals are not modelled, and neither are the table and preview.
- Word and PDF generation and file downloads are not modelled.
- Format settings and their `localStorage` persistence are not modelled. These are floating-point presentation values and configuration I/O.
- `CustomerSheet.MinRow` and `CustomerSheet.MaxRow`: the numeric `sort` is represented only by its first and last elements, which are all `generateDocument` reads.

## Findings

| source | as written | input that shows it | evidently intended | confidence | as-written member | corrected member |
|---|---|---|---|---|---|---|
| script.js:544-553 | the loop over `rows = jsonData.slice(1)` starts at `i = 1` and stores `excelRowNumber: i`, so the first data row is never read and every number is the sheet row minus 2 | header, then sheet rows 2, 3 and 4 with a blank name in row 3: one record, row 4's, numbered 2 | every data row is examined and numbered by its sheet row, `i + 2` from `i = 0`, as the comment on line 553 says | not executed; high | CustomerSheet.RowNumberingDiscrepancy | CustomerSheet.IntendedNumbering |
| flexible-script.js:764-771 | a negative end row passes through `Math.min` and makes `slice` count from the end | three records, start row 1, end row -1: the first two records come back although the start lies after the end | a range that ends before it starts selects nothing | not executed; medium | FlexibleSheet.NegativeEndSelects | FlexibleSheet.RangeSelectionIntended |
