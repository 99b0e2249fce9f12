/**
 * The remote strategy chain of `loadGoogleSheetsData`, identical in both scripts except
 * for the `parseCSVData` it calls. Every request is replaced by the outcome it ended in,
 * so what is modelled is the decision logic: which replies are accepted, in which order
 * the endpoints are tried, when a later strategy runs, and when the load fails.
 */
module FetchChain {
  import opened Wrappers
  import opened JsString
  import opened Csv
  import opened SheetsUrl

  /** How one `fetch` ended: it threw (transport error or the 8-second abort), answered non-2xx, or answered 2xx with a body. */
  datatype Reply = Failed | NotOk | Ok(body: string)

  /**
   * The `no-cors` probe of the direct strategy: it threw, or it resolved, with `unreadable`
   * telling whether the response type was `'opaque'`.
   */
  datatype Probe = ProbeFailed | Probed(unreadable: bool)

  /** One direct URL: the probe, and the `cors` request that follows it when the probe is opaque. */
  datatype DirectAttempt = DirectAttempt(probe: Probe, cors: Reply)

  /** What `JSON.parse` makes of a relay body: it throws, or yields an object whose `contents` is a string or not. */
  datatype Envelope = NotJson | Json(contents: Option<string>)

  /** The outcome of every request the chain may issue, in the order it issues them. */
  datatype Network = Network(
    proxyReplies: seq<Reply>,
    directAttempts: seq<DirectAttempt>,
    bypassReply: Reply,
    fallbackReplies: seq<Reply>,
    envelope: string -> Envelope)

  /** The relays, in the order they are tried. */
  const Relays: seq<string> := [
    "https://api.allorigins.win/raw?url=",
    "https://api.allorigins.win/get?url=",
    "https://corsproxy.io/?",
    "https://cors-anywhere.herokuapp.com/"
  ]

  /** The direct export addresses, in the order they are tried. */
  function DirectUrls(id: string): seq<string> {
    [
      "https://docs.google.com/spreadsheets/d/" + id + "/export?format=csv&gid=0",
      "https://docs.google.com/spreadsheets/d/" + id + "/pub?output=csv",
      "https://docs.google.com/spreadsheets/d/" + id + "/export?format=csv",
      "https://docs.google.com/spreadsheets/d/" + id + "/gviz/tq?tqx=out:csv"
    ]
  }

  const DirectUrlCount := 4

  /** One outcome per request: one reply per relay in each relay pass, one attempt per direct URL. */
  predicate WellFormed(net: Network) {
    |net.proxyReplies| == |Relays| && |net.directAttempts| == DirectUrlCount &&
    |net.fallbackReplies| == |Relays|
  }

  /** The text a relay reply is judged on: the `allorigins.win/get` relay's JSON envelope is unwrapped first. */
  function Payload(relay: string, body: string, envelope: string -> Envelope): Option<string> {
    if Includes(relay, "allorigins.win/get") then
      match envelope(body)
      case NotJson => Some(body)
      case Json(contents) => contents
    else Some(body)
  }

  /** The relay validator: non-empty text with a comma, and no HTML page or access-denied marker. */
  predicate IsCsvPayload(p: Option<string>) {
    p.Some? && p.value != "" && Includes(p.value, ",") &&
    !Includes(p.value, "<!DOCTYPE html>") && !Includes(p.value, "Access denied")
  }

  /** The payload of relay `k`'s 2xx reply. */
  function RelayPayload(relays: seq<string>, replies: seq<Reply>, envelope: string -> Envelope, k: int): Option<string>
    requires |replies| == |relays| && 0 <= k < |relays| && replies[k].Ok?
  {
    Payload(relays[k], replies[k].body, envelope)
  }

  predicate RelayAccepts(relays: seq<string>, replies: seq<Reply>, envelope: string -> Envelope, k: int)
    requires |replies| == |relays|
  {
    0 <= k < |relays| && replies[k].Ok? && IsCsvPayload(RelayPayload(relays, replies, envelope, k))
  }

  /**
   * The relay loop from relay `i` on: the first relay whose reply is accepted wins and its
   * payload is parsed; when none is accepted the loop throws (`None`).
   */
  function ProxyFrom(v: Variant, relays: seq<string>, replies: seq<Reply>, envelope: string -> Envelope, i: nat)
    : (r: Option<Grid>)
    requires |replies| == |relays| && i <= |relays|
    ensures r.None? <==> forall k :: i <= k < |relays| ==> !RelayAccepts(relays, replies, envelope, k)
    ensures r.Some? ==>
      exists k :: i <= k < |relays| && RelayAccepts(relays, replies, envelope, k) &&
        (forall j :: i <= j < k ==> !RelayAccepts(relays, replies, envelope, j)) &&
        r.value == ParseGrid(v, RelayPayload(relays, replies, envelope, k).value)
    decreases |relays| - i
  {
    if i == |relays| then None
    else if RelayAccepts(relays, replies, envelope, i) then
      Some(ParseGrid(v, RelayPayload(relays, replies, envelope, i).value))
    else ProxyFrom(v, relays, replies, envelope, i + 1)
  }

  /** `loadViaAlternativeProxy`. */
  method LoadViaAlternativeProxy(v: Variant, replies: seq<Reply>, envelope: string -> Envelope)
    returns (r: Option<Grid>)
    requires |replies| == |Relays|
    ensures r == ProxyFrom(v, Relays, replies, envelope, 0)
  {
    for k := 0 to |Relays|
      invariant ProxyFrom(v, Relays, replies, envelope, 0) == ProxyFrom(v, Relays, replies, envelope, k)
    {
      var reply := replies[k];
      if reply.Ok? {
        var csvData := Payload(Relays[k], reply.body, envelope);
        if IsCsvPayload(csvData) {
          var grid := ParseCsvData(v, csvData.value);
          return Some(grid);
        }
      }
    }
    return None;
  }

  /** The direct validator: the probe was opaque, the `cors` retry answered 2xx with non-blank text that is no HTML page. */
  predicate DirectAccepts(a: DirectAttempt) {
    a.probe == Probed(true) && a.cors.Ok? && a.cors.body != "" && Trim(a.cors.body) != "" &&
    !Includes(a.cors.body, "<!DOCTYPE html>")
  }

  /** The direct loop from URL `i` on: the first accepted attempt wins; when none is accepted the loop throws. */
  function DirectFrom(v: Variant, attempts: seq<DirectAttempt>, i: nat): (r: Option<Grid>)
    requires i <= |attempts|
    ensures r.None? <==> forall k :: i <= k < |attempts| ==> !DirectAccepts(attempts[k])
    ensures r.Some? ==>
      exists k :: i <= k < |attempts| && DirectAccepts(attempts[k]) &&
        (forall j :: i <= j < k ==> !DirectAccepts(attempts[j])) &&
        r.value == ParseGrid(v, attempts[k].cors.body)
    decreases |attempts| - i
  {
    if i == |attempts| then None
    else if DirectAccepts(attempts[i]) then Some(ParseGrid(v, attempts[i].cors.body))
    else DirectFrom(v, attempts, i + 1)
  }

  /** `loadViaDirectCSV`: one attempt per direct URL shape of the spreadsheet. */
  method LoadViaDirectCSV(v: Variant, id: string, attempts: seq<DirectAttempt>) returns (r: Option<Grid>)
    requires |attempts| == |DirectUrls(id)|
    ensures r == DirectFrom(v, attempts, 0)
  {
    var urls := DirectUrls(id);
    for k := 0 to |urls|
      invariant DirectFrom(v, attempts, 0) == DirectFrom(v, attempts, k)
    {
      var attempt := attempts[k];
      if attempt.probe.Probed? && attempt.probe.unreadable {
        if attempt.cors.Ok? {
          var csvData := attempt.cors.body;
          if csvData != "" && Trim(csvData) != "" && !Includes(csvData, "<!DOCTYPE html>") {
            var grid := ParseCsvData(v, csvData);
            return Some(grid);
          }
        }
      }
    }
    return None;
  }

  /**
   * The cache-bypass method (`loadViaJSONP`): any 2xx body is parsed without a check;
   * otherwise it falls back into a fresh pass over the relays.
   */
  function BypassResult(v: Variant, bypass: Reply, fallback: seq<Reply>, envelope: string -> Envelope): Option<Grid>
    requires |fallback| == |Relays|
  {
    if bypass.Ok? then Some(ParseGrid(v, bypass.body)) else ProxyFrom(v, Relays, fallback, envelope, 0)
  }

  method LoadViaJSONP(v: Variant, bypass: Reply, fallback: seq<Reply>, envelope: string -> Envelope)
    returns (r: Option<Grid>)
    requires |fallback| == |Relays|
    ensures bypass.Ok? ==> r == Some(ParseGrid(v, bypass.body))
    ensures !bypass.Ok? ==> r == ProxyFrom(v, Relays, fallback, envelope, 0)
  {
    if bypass.Ok? {
      var grid := ParseCsvData(v, bypass.body);
      return Some(grid);
    }
    r := LoadViaAlternativeProxy(v, fallback, envelope);
  }

  /** A grid the loader accepts: header plus at least one data row. */
  predicate Usable(d: Option<Grid>) {
    d.Some? && |d.value| >= 2
  }

  /** `jsonData = await strategy()`: the variable changes only when the strategy returns. */
  function Keep(previous: Option<Grid>, next: Option<Grid>): Option<Grid> {
    if next.Some? then next else previous
  }

  function ProxyStage(v: Variant, net: Network): Option<Grid>
    requires WellFormed(net)
  {
    ProxyFrom(v, Relays, net.proxyReplies, net.envelope, 0)
  }

  function DirectStage(v: Variant, net: Network): Option<Grid>
    requires WellFormed(net)
  {
    DirectFrom(v, net.directAttempts, 0)
  }

  function BypassStage(v: Variant, net: Network): Option<Grid>
    requires WellFormed(net)
  {
    BypassResult(v, net.bypassReply, net.fallbackReplies, net.envelope)
  }

  /**
   * The value of `jsonData` after the three guarded steps of `loadGoogleSheetsData`: still
   * `null`, or exactly what one of the three strategies returned.
   */
  function ChainResult(v: Variant, net: Network): (r: Option<Grid>)
    requires WellFormed(net)
    ensures r == None || r == ProxyStage(v, net) || r == DirectStage(v, net) || r == BypassStage(v, net)
  {
    var afterProxy := ProxyStage(v, net);
    var afterDirect := if Usable(afterProxy) then afterProxy else Keep(afterProxy, DirectStage(v, net));
    if Usable(afterDirect) then afterDirect else Keep(afterDirect, BypassStage(v, net))
  }

  /**
   * First usable wins: the chain ends with a usable grid exactly when one of the three
   * strategies yields one, and then it is the first such strategy's grid.
   */
  lemma ChainFirstUsable(v: Variant, net: Network)
    requires WellFormed(net)
    ensures var p, d, b := ProxyStage(v, net), DirectStage(v, net), BypassStage(v, net);
      (Usable(ChainResult(v, net)) <==> Usable(p) || Usable(d) || Usable(b)) &&
      (Usable(p) ==> ChainResult(v, net) == p) &&
      (!Usable(p) && Usable(d) ==> ChainResult(v, net) == d) &&
      (!Usable(p) && !Usable(d) && Usable(b) ==> ChainResult(v, net) == b)
  {
  }

  /** The cache-bypass method takes a 2xx body as it is: an HTML page is parsed like any CSV text. */
  lemma BypassBodyUnchecked(v: Variant, net: Network)
    requires WellFormed(net)
    requires !Usable(ProxyStage(v, net)) && !Usable(DirectStage(v, net))
    requires net.bypassReply.Ok?
    ensures ChainResult(v, net) == Some(ParseGrid(v, net.bypassReply.body))
  {
  }

  /** Why `loadGoogleSheetsData` ended. */
  datatype LoadOutcome = NoUrl | InvalidUrl | LoadFailed | Loaded(grid: Grid)

  /**
   * The outcome of `loadGoogleSheetsData` up to the call of `processExcelData`: a blank input
   * and an invalid URL are reported before any request, and a load succeeds only with the
   * chain's grid of at least two rows.
   */
  function LoadResult(v: Variant, input: string, net: Network): (r: LoadOutcome)
    requires WellFormed(net)
    ensures r == NoUrl <==> Trim(input) == ""
    ensures r == InvalidUrl <==> Trim(input) != "" && !IsValidGoogleSheetsUrl(Trim(input))
    ensures r.Loaded? ==> |r.grid| >= 2 && ChainResult(v, net) == Some(r.grid)
    ensures Trim(input) != "" && IsValidGoogleSheetsUrl(Trim(input)) ==>
      (r.Loaded? <==> ExtractSpreadsheetId(Trim(input)).Some? && Usable(ChainResult(v, net)))
  {
    var url := Trim(input);
    if url == "" then NoUrl
    else if !IsValidGoogleSheetsUrl(url) then InvalidUrl
    else if ExtractSpreadsheetId(url).None? then LoadFailed
    else
      var d := ChainResult(v, net);
      if Usable(d) then Loaded(d.value) else LoadFailed
  }

  /** `loadGoogleSheetsData`, as far as producing the grid handed to `processExcelData`. */
  method LoadGoogleSheetsData(v: Variant, input: string, net: Network) returns (out: LoadOutcome)
    requires WellFormed(net)
    ensures out == LoadResult(v, input, net)
  {
    var url := Trim(input);
    if url == "" {
      return NoUrl;
    }
    if !IsValidGoogleSheetsUrl(url) {
      return InvalidUrl;
    }
    var id := ExtractSpreadsheetId(url);
    if id.None? {
      return LoadFailed;
    }
    var jsonData: Option<Grid> := None;
    var proxied := LoadViaAlternativeProxy(v, net.proxyReplies, net.envelope);
    if proxied.Some? {
      jsonData := proxied;
    }
    if !Usable(jsonData) {
      var direct := LoadViaDirectCSV(v, id.value, net.directAttempts);
      if direct.Some? {
        jsonData := direct;
      }
    }
    if !Usable(jsonData) {
      var bypassed := LoadViaJSONP(v, net.bypassReply, net.fallbackReplies, net.envelope);
      if bypassed.Some? {
        jsonData := bypassed;
      }
    }
    if !Usable(jsonData) {
      return LoadFailed;
    }
    return Loaded(jsonData.value);
  }

  /**
   * A load succeeds only with a valid address, an extractable ID and a grid of at least
   * two rows that some strategy produced.
   */
  lemma LoadedMeans(v: Variant, input: string, net: Network)
    requires WellFormed(net) && LoadResult(v, input, net).Loaded?
    ensures var g := LoadResult(v, input, net).grid;
      IsValidGoogleSheetsUrl(Trim(input)) && ExtractSpreadsheetId(Trim(input)).Some? && |g| >= 2 &&
      (Some(g) == ProxyStage(v, net) || Some(g) == DirectStage(v, net) || Some(g) == BypassStage(v, net))
  {
  }

  /**
   * When no relay reply in either pass is accepted, no direct attempt is accepted and the
   * cache-bypass request does not answer 2xx, the load fails: HTML error pages on every
   * endpoint end the chain rather than being taken for data.
   */
  lemma NothingAcceptedFails(v: Variant, input: string, net: Network)
    requires WellFormed(net)
    requires forall k :: 0 <= k < |Relays| ==> !RelayAccepts(Relays, net.proxyReplies, net.envelope, k)
    requires forall k :: 0 <= k < |Relays| ==> !RelayAccepts(Relays, net.fallbackReplies, net.envelope, k)
    requires forall k :: 0 <= k < DirectUrlCount ==> !DirectAccepts(net.directAttempts[k])
    requires !net.bypassReply.Ok?
    ensures !LoadResult(v, input, net).Loaded?
  {
  }

  /** A relay reply whose payload is an HTML page is never accepted. */
  lemma HtmlRelayReplyRejected(replies: seq<Reply>, envelope: string -> Envelope, k: int)
    requires |replies| == |Relays| && 0 <= k < |Relays| && replies[k].Ok?
    requires var p := RelayPayload(Relays, replies, envelope, k);
      p.Some? && OccursAt(p.value, "<!DOCTYPE html>", 0)
    ensures !RelayAccepts(Relays, replies, envelope, k)
  {
  }
}
