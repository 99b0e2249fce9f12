/** The Google Sheets address check and the spreadsheet-ID extraction shared by both scripts. */
module SheetsUrl {
  import opened Wrappers
  import opened JsString

  /** `isValidGoogleSheetsUrl`: the sheet path and one of the edit, view or publish markers occur somewhere. */
  function IsValidGoogleSheetsUrl(url: string): (r: bool)
    ensures r <==>
      (exists i :: OccursAt(url, "docs.google.com/spreadsheets/d/", i)) &&
      ((exists i :: OccursAt(url, "/edit", i)) || (exists i :: OccursAt(url, "/view", i)) ||
       (exists i :: OccursAt(url, "/pub", i)))
  {
    Includes(url, "docs.google.com/spreadsheets/d/") &&
    (Includes(url, "/edit") || Includes(url, "/view") || Includes(url, "/pub"))
  }

  const IdMarker := "/spreadsheets/d/"

  /** The character class `[a-zA-Z0-9-_]` of the extraction pattern. */
  predicate IsIdChar(c: char) {
    'a' <= c <= 'z' || 'A' <= c <= 'Z' || '0' <= c <= '9' || c == '-' || c == '_'
  }

  /** The greedy `[a-zA-Z0-9-_]*` at the front of `s`: the longest prefix of identifier characters. */
  function IdRun(s: string): (r: string)
    ensures |r| <= |s| && r == s[..|r|]
    ensures forall k :: 0 <= k < |r| ==> IsIdChar(r[k])
    ensures |r| == |s| || !IsIdChar(s[|r|])
    decreases |s|
  {
    if s != [] && IsIdChar(s[0]) then [s[0]] + IdRun(s[1..]) else []
  }

  /** The pattern `/spreadsheets/d/[a-zA-Z0-9-_]+` can start matching at index `i`. */
  predicate MatchesAt(url: string, i: int) {
    0 <= i && i + |IdMarker| < |url| && url[i..i + |IdMarker|] == IdMarker && IsIdChar(url[i + |IdMarker|])
  }

  /** The leftmost match at or after index `i`, as the regular-expression engine scans for it. */
  function ExtractFrom(url: string, i: nat): (r: Option<string>)
    ensures r.None? <==> forall j :: i <= j ==> !MatchesAt(url, j)
    ensures r.Some? ==>
      exists j :: i <= j && MatchesAt(url, j) &&
        (forall k :: i <= k < j ==> !MatchesAt(url, k)) && r.value == IdRun(url[j + |IdMarker|..])
    ensures r.Some? ==> |r.value| >= 1
    decreases |url| - i
  {
    if i + |IdMarker| >= |url| then None
    else if MatchesAt(url, i) then Some(IdRun(url[i + |IdMarker|..]))
    else ExtractFrom(url, i + 1)
  }

  /**
   * `extractSpreadsheetId`: the capture group of the leftmost match, i.e. the longest
   * non-empty run of identifier characters after the first `/spreadsheets/d/` that is
   * followed by one; `None` (the script throws) when no such occurrence exists.
   */
  function ExtractSpreadsheetId(url: string): (r: Option<string>)
    ensures r.None? <==> forall j :: !MatchesAt(url, j)
    ensures r.Some? ==>
      exists j :: MatchesAt(url, j) &&
        (forall k :: 0 <= k < j ==> !MatchesAt(url, k)) && r.value == IdRun(url[j + |IdMarker|..])
    ensures r.Some? ==> |r.value| >= 1 && forall k :: 0 <= k < |r.value| ==> IsIdChar(r.value[k])
  {
    ExtractFrom(url, 0)
  }

  /** Every address the check accepts contains the marker the extraction looks for. */
  lemma ValidUrlHasMarker(url: string)
    requires IsValidGoogleSheetsUrl(url)
    ensures Includes(url, IdMarker)
  {
    var full := "docs.google.com/spreadsheets/d/";
    var i :| OccursAt(url, full, i);
    assert url[i + 15..i + |full|] == full[15..] == IdMarker;
    assert OccursAt(url, IdMarker, i + 15);
  }
}
