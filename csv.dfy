/**
 * The tolerant CSV reader `parseCSVData` of both scripts. A line is scanned one character
 * at a time with a single "inside quotes" flag that every `"` flips; a comma closes the
 * open field only while the flag is off; quote characters are dropped and every field is
 * trimmed. There is no doubled-quote escape and no field spans a line break.
 * The two scripts differ only in how they cut the text into lines.
 */
module Csv {
  import opened JsString

  type Grid = seq<seq<string>>

  /** Which script's `parseCSVData`: flexible-script.js or script.js. */
  datatype Variant = Flexible | Script

  /** The loop state of the per-character scan: closed fields (untrimmed), the open field, the quote flag. */
  datatype ScanState = ScanState(closed: seq<string>, current: string, inQuotes: bool)

  const Start := ScanState([], "", false)

  function Step(st: ScanState, c: char): ScanState {
    if c == '"' then st.(inQuotes := !st.inQuotes)
    else if c == ',' && !st.inQuotes then ScanState(st.closed + [st.current], "", st.inQuotes)
    else st.(current := st.current + [c])
  }

  /** The state after feeding `s` to the scan, one character after another, from state `st`. */
  function ScanFrom(st: ScanState, s: string): ScanState
    decreases |s|
  {
    if s == [] then st else Step(ScanFrom(st, s[..|s| - 1]), s[|s| - 1])
  }

  function Scan(line: string): ScanState {
    ScanFrom(Start, line)
  }

  /** The fields of a line before trimming: the closed ones and the one open at the end. */
  function RawFields(line: string): seq<string> {
    Scan(line).closed + [Scan(line).current]
  }

  function TrimAll(xs: seq<string>): (ys: seq<string>)
    ensures |ys| == |xs|
  {
    seq(|xs|, i requires 0 <= i < |xs| => Trim(xs[i]))
  }

  /** The cells one line of text yields. */
  function ParseLine(line: string): seq<string> {
    TrimAll(RawFields(line))
  }

  /** `s` with every occurrence of `c` deleted. */
  function RemoveChar(s: string, c: char): string
    decreases |s|
  {
    if s == [] then []
    else RemoveChar(s[..|s| - 1], c) + (if s[|s| - 1] == c then [] else [s[|s| - 1]])
  }

  /**
   * Reference count of the field separators of a line: the commas preceded by an even
   * number of quote characters.
   */
  function UnquotedCommas(s: string): nat
    decreases |s|
  {
    if s == [] then 0
    else
      var init := s[..|s| - 1];
      UnquotedCommas(init) + (if s[|s| - 1] == ',' && CountChar(init, '"') % 2 == 0 then 1 else 0)
  }

  /**
   * The scan, measured against the reference definitions: the quote flag is the parity of
   * the quotes read, one field is closed per unquoted comma, no field holds a quote, and
   * the raw fields joined with commas give the line with its quotes deleted.
   */
  lemma {:induction false} ScanFacts(line: string)
    ensures Scan(line).inQuotes <==> CountChar(line, '"') % 2 == 1
    ensures |Scan(line).closed| == UnquotedCommas(line)
    ensures forall k :: 0 <= k < |RawFields(line)| ==> '"' !in RawFields(line)[k]
    ensures Join(RawFields(line), ',') == RemoveChar(line, '"')
    decreases |line|
  {
    if line != [] {
      var init := line[..|line| - 1];
      var c := line[|line| - 1];
      ScanFacts(init);
      var st := Scan(init);
      assert Scan(line) == Step(st, c);
      var fs := RawFields(init);
      if c == '"' {
        assert RawFields(line) == fs;
      } else if c == ',' && !st.inQuotes {
        var gs := st.closed + [st.current] + [""];
        assert RawFields(line) == gs;
        assert gs[..|gs| - 1] == fs;
      } else {
        var gs := st.closed + [st.current + [c]];
        assert RawFields(line) == gs;
        if st.closed != [] {
          assert gs[..|gs| - 1] == st.closed == fs[..|fs| - 1];
        }
        assert forall k :: 0 <= k < |gs| - 1 ==> gs[k] == fs[k];
        assert fs[|fs| - 1] == st.current && '"' !in st.current + [c];
      }
    }
  }

  /** Every cell of a parsed line is quote-free and already trimmed; there is one cell more than unquoted commas. */
  lemma ParseLineShape(line: string)
    ensures |ParseLine(line)| == UnquotedCommas(line) + 1
    ensures forall k :: 0 <= k < |ParseLine(line)| ==>
      '"' !in ParseLine(line)[k] && Trim(ParseLine(line)[k]) == ParseLine(line)[k]
  {
    ScanFacts(line);
    var fs := RawFields(line);
    forall k | 0 <= k < |fs|
      ensures '"' !in ParseLine(line)[k] && Trim(ParseLine(line)[k]) == ParseLine(line)[k]
    {
      TrimKeepsOut(fs[k], '"');
      TrimIdempotent(fs[k]);
    }
  }

  /** Scanning `a + b` is scanning `a`, then `b`. */
  lemma {:induction false} ScanFromAppend(st: ScanState, a: string, b: string)
    ensures ScanFrom(st, a + b) == ScanFrom(ScanFrom(st, a), b)
    decreases |b|
  {
    if b == [] {
      assert a + b == a;
    } else {
      var b' := b[..|b| - 1];
      assert (a + b)[..|a + b| - 1] == a + b';
      assert (a + b)[|a + b| - 1] == b[|b| - 1];
      ScanFromAppend(st, a, b');
      assert ScanFrom(st, a + b) == Step(ScanFrom(st, a + b'), b[|b| - 1]);
    }
  }

  /**
   * Text without quotes is copied into the open field verbatim, commas included, while the
   * scan is inside quotes or the text has no comma.
   */
  lemma {:induction false} ScanVerbatim(st: ScanState, w: string)
    requires '"' !in w
    requires st.inQuotes || ',' !in w
    ensures ScanFrom(st, w) == st.(current := st.current + w)
    decreases |w|
  {
    if w != [] {
      var w' := w[..|w| - 1];
      ScanVerbatim(st, w');
      assert st.current + w' + [w[|w| - 1]] == st.current + w;
    }
  }

  /** A line of white space only becomes the single empty cell. */
  lemma BlankLineRow(line: string)
    requires forall i :: 0 <= i < |line| ==> IsJsWhitespace(line[i])
    ensures ParseLine(line) == [""]
  {
    assert forall i :: 0 <= i < |line| ==> line[i] != ',' && line[i] != '"';
    ScanVerbatim(Start, line);
    assert "" + line == line;
    assert RawFields(line) == [line];
    TrimAllWhitespace(line);
  }

  /** A quoted run without quotes lands in the open field verbatim, commas included. */
  lemma ScanQuoted(st: ScanState, w: string)
    requires '"' !in w && !st.inQuotes
    ensures ScanFrom(st, "\"" + w + "\"") == st.(current := st.current + w)
  {
    var s0 := ScanFrom(st, "\"");
    assert s0 == st.(inQuotes := true);
    ScanVerbatim(s0, w);
    ScanFromAppend(st, "\"", w);
    ScanFromAppend(st, "\"" + w, "\"");
  }

  /** An unquoted comma closes the open field. */
  lemma ScanComma(st: ScanState)
    requires !st.inQuotes
    ensures ScanFrom(st, ",") == ScanState(st.closed + [st.current], "", false)
  {
  }

  /** A field made of no quote, no comma and no surrounding white space is its own trim. */
  lemma TrimFixed(s: string)
    requires s != [] && !IsJsWhitespace(s[0]) && !IsJsWhitespace(s[|s| - 1])
    ensures Trim(s) == s
  {
  }

  /** A quoted first field followed by two plain fields: the quoted field keeps its commas. */
  lemma QuotedThenPlainScan(w1: string, w2: string, w3: string)
    requires '"' !in w1 && '"' !in w2 && '"' !in w3 && ',' !in w2 && ',' !in w3
    ensures Scan("\"" + w1 + "\"" + "," + w2 + "," + w3) == ScanState([w1, w2], w3, false)
  {
    var p1 := "\"" + w1 + "\"";
    var p2 := p1 + ",";
    var p3 := p2 + w2;
    var p4 := p3 + ",";
    assert "" + w1 == w1 && "" + w2 == w2 && "" + w3 == w3;
    ScanQuoted(Start, w1);
    ScanFromAppend(Start, p1, ",");
    ScanComma(ScanState([], w1, false));
    assert Scan(p2) == ScanState([w1], "", false);
    ScanFromAppend(Start, p2, w2);
    ScanVerbatim(ScanState([w1], "", false), w2);
    ScanFromAppend(Start, p3, ",");
    ScanComma(ScanState([w1], w2, false));
    assert Scan(p4) == ScanState([w1, w2], "", false);
    ScanFromAppend(Start, p4, w3);
    ScanVerbatim(ScanState([w1, w2], "", false), w3);
  }

  /** Fields that are their own trim are kept as they are. */
  lemma TrimAllFixed(xs: seq<string>)
    requires forall k :: 0 <= k < |xs| ==> Trim(xs[k]) == xs[k]
    ensures TrimAll(xs) == xs
  {
  }

  lemma ExampleRawFields(line: string)
    requires line == "\"Doe, John\",123 Main St,555-1234"
    ensures RawFields(line) == ["Doe, John", "123 Main St", "555-1234"]
  {
    var w1, w2, w3 := "Doe, John", "123 Main St", "555-1234";
    assert line == "\"" + w1 + "\"" + "," + w2 + "," + w3;
    QuotedThenPlainScan(w1, w2, w3);
  }

  /** A quoted field keeps its commas: `"Doe, John",123 Main St,555-1234` gives three cells. */
  lemma QuotedCommaExample(line: string)
    requires line == "\"Doe, John\",123 Main St,555-1234"
    ensures ParseLine(line) == ["Doe, John", "123 Main St", "555-1234"]
  {
    ExampleRawFields(line);
    var xs := RawFields(line);
    TrimFixed(xs[0]);
    TrimFixed(xs[1]);
    TrimFixed(xs[2]);
    TrimAllFixed(xs);
  }

  /** The lines script.js keeps: those whose trim is not empty, in order. */
  function NonBlank(lines: seq<string>): (kept: seq<string>)
    ensures |kept| <= |lines|
    ensures forall k :: 0 <= k < |kept| ==> Trim(kept[k]) != ""
    decreases |lines|
  {
    if lines == [] then []
    else
      var last := lines[|lines| - 1];
      NonBlank(lines[..|lines| - 1]) + (if Trim(last) != "" then [last] else [])
  }

  /** `NonBlank` keeps exactly the lines whose trim is not empty. */
  lemma {:induction false} NonBlankMembers(lines: seq<string>, line: string)
    ensures line in NonBlank(lines) <==> line in lines && Trim(line) != ""
    decreases |lines|
  {
    if lines != [] {
      var init := lines[..|lines| - 1];
      NonBlankMembers(init, line);
      assert lines == init + [lines[|lines| - 1]];
    }
  }

  /** Filtering distributes over concatenation: the kept lines stay in their order. */
  lemma {:induction false} NonBlankAppend(a: seq<string>, b: seq<string>)
    ensures NonBlank(a + b) == NonBlank(a) + NonBlank(b)
    decreases |b|
  {
    if b == [] {
      assert a + b == a;
    } else {
      var init := b[..|b| - 1];
      NonBlankAppend(a, init);
      assert (a + b)[..|a + b| - 1] == a + init;
    }
  }

  /** Nothing is dropped exactly when no line is blank. */
  lemma {:induction false} NonBlankCount(lines: seq<string>)
    ensures |NonBlank(lines)| == |lines| <==> forall k :: 0 <= k < |lines| ==> Trim(lines[k]) != ""
    decreases |lines|
  {
    if lines != [] {
      var init := lines[..|lines| - 1];
      NonBlankCount(init);
      assert forall k :: 0 <= k < |init| ==> init[k] == lines[k];
    }
  }

  function ParseLines(lines: seq<string>): (g: Grid)
    ensures |g| == |lines|
  {
    seq(|lines|, i requires 0 <= i < |lines| => ParseLine(lines[i]))
  }

  /** The lines each variant turns into rows. */
  function Lines(v: Variant, csvData: string): seq<string> {
    match v
    case Flexible => Split(Trim(csvData), '\n')
    case Script => NonBlank(Split(csvData, '\n'))
  }

  /** The grid `parseCSVData` returns: one row per line, as `ParseLine` reads it. */
  function ParseGrid(v: Variant, csvData: string): (g: Grid)
    ensures |g| == |Lines(v, csvData)|
  {
    ParseLines(Lines(v, csvData))
  }

  /**
   * flexible-script.js: one row per `\n`-separated piece of the trimmed input, so there is
   * always a row, even for empty input.
   */
  lemma FlexibleRowCount(csvData: string)
    ensures |ParseGrid(Flexible, csvData)| == CountChar(Trim(csvData), '\n') + 1
  {
    SplitJoin(Trim(csvData), '\n');
  }

  lemma FlexibleEmptyInput()
    ensures ParseGrid(Flexible, "") == [[""]]
  {
    assert Trim("") == "";
    assert Split("", '\n') == [""];
    assert RawFields("") == [""];
    assert ParseLine("") == [""];
    assert ParseLines([""]) == [[""]];
  }

  /** script.js: one row per line whose trim is non-empty; empty input gives no row. */
  lemma ScriptEmptyInput()
    ensures ParseGrid(Script, "") == []
  {
  }

  /** Every row of either variant is the reading of one kept line, with the cell shape of `ParseLineShape`. */
  lemma RowShape(v: Variant, csvData: string, i: int)
    requires 0 <= i < |ParseGrid(v, csvData)|
    ensures var row, line := ParseGrid(v, csvData)[i], Lines(v, csvData)[i];
      |row| == UnquotedCommas(line) + 1 &&
      forall k :: 0 <= k < |row| ==> '"' !in row[k] && Trim(row[k]) == row[k]
  {
    ParseLineShape(Lines(v, csvData)[i]);
  }

  /** The inner character loop of `parseCSVData`. */
  method ScanLine(line: string) returns (row: seq<string>)
    ensures row == ParseLine(line)
  {
    row := [];
    var current := "";
    var inQuotes := false;
    for i := 0 to |line|
      invariant row == TrimAll(Scan(line[..i]).closed)
      invariant current == Scan(line[..i]).current
      invariant inQuotes == Scan(line[..i]).inQuotes
    {
      assert line[..i + 1][..i] == line[..i];
      var c := line[i];
      if c == '"' {
        inQuotes := !inQuotes;
      } else if c == ',' && !inQuotes {
        row := row + [Trim(current)];
        current := "";
      } else {
        current := current + [c];
      }
    }
    assert line[..|line|] == line;
    row := row + [Trim(current)];
  }

  /** flexible-script.js `parseCSVData`: trims the text, then reads every line, blank ones included. */
  method ParseCsvFlexible(csvData: string) returns (result: Grid)
    ensures result == ParseGrid(Flexible, csvData)
  {
    var lines := Split(Trim(csvData), '\n');
    result := [];
    for k := 0 to |lines|
      invariant |result| == k
      invariant forall j :: 0 <= j < k ==> result[j] == ParseLine(lines[j])
    {
      var row := ScanLine(lines[k]);
      result := result + [row];
    }
  }

  /** script.js `parseCSVData`: reads the lines of the untrimmed text, skipping blank ones. */
  method ParseCsvScript(csvData: string) returns (result: Grid)
    ensures result == ParseGrid(Script, csvData)
  {
    var lines := Split(csvData, '\n');
    result := [];
    for k := 0 to |lines|
      invariant result == ParseLines(NonBlank(lines[..k]))
    {
      assert lines[..k + 1][..k] == lines[..k];
      if Trim(lines[k]) != "" {
        var row := ScanLine(lines[k]);
        assert NonBlank(lines[..k + 1]) == NonBlank(lines[..k]) + [lines[k]];
        result := result + [row];
      }
    }
    assert lines[..|lines|] == lines;
  }

  /** The `parseCSVData` of the given script. */
  method ParseCsvData(v: Variant, csvData: string) returns (result: Grid)
    ensures result == ParseGrid(v, csvData)
  {
    match v {
      case Flexible => result := ParseCsvFlexible(csvData);
      case Script => result := ParseCsvScript(csvData);
    }
  }
}
