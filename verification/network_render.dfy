/** The two text renderings of a `get` result. A reply is modelled as its
    list of text lines. */
module NetworkRender {
  import opened Wrappers
  import opened Text
  import opened NetworkModel

  const NoEntriesText := "No network entries matching the criteria"
  const PendingText := "Pending"
  const NoDurationText := "N/A"
  const PendingMarker := "Response: Pending or Failed"

  /** Post data longer than this many characters is cut in the detailed view. */
  const PostDataLimit := 200

  // ---------------------------------------------------------------- summary

  /** The status column: the response status, or "Pending" without one. */
  function StatusField(e: Entry): string {
    if e.response.Some? then IntToString(e.response.value.status) else PendingText
  }

  /** The duration column: `<d>ms`, or "N/A" when the duration is absent or
      zero (zero is falsy). */
  function DurationField(e: Entry): string {
    if e.duration.Some? && e.duration.value != 0 then IntToString(e.duration.value) + "ms" else NoDurationText
  }

  /** `METHOD URL - STATUS (DURATION)`: the line starts with the method and
      URL, ends with the parenthesised duration column, and holds exactly the
      status column in between. */
  function SummaryLine(e: Entry): (r: string)
    ensures var head := e.request.httpMethod + " " + e.request.url + " - ";
      var tail := " (" + DurationField(e) + ")";
      && |r| == |head| + |StatusField(e)| + |tail|
      && r[..|head|] == head
      && r[|head|..|r| - |tail|] == StatusField(e)
      && r[|r| - |tail|..] == tail
  {
    var head := e.request.httpMethod + " " + e.request.url + " - ";
    var tail := " (" + DurationField(e) + ")";
    var r := head + StatusField(e) + tail;
    assert r == e.request.httpMethod + " " + e.request.url + " - " + StatusField(e) + " (" + DurationField(e) + ")";
    r
  }

  /** "Pending" appears in the status column exactly for entries without a
      response: no rendered status code reads "Pending". */
  lemma StatusPendingIff(e: Entry)
    ensures StatusField(e) == PendingText <==> e.response.None?
  {
    if e.response.Some? {
      var s := IntToString(e.response.value.status);
      assert s[0] == '-' || IsDigit(s[0]);
      assert PendingText[0] == 'P';
    }
  }

  /** "N/A" appears in the duration column exactly when the duration is
      absent or zero; otherwise the column reads the duration back. */
  lemma DurationNotAvailableIff(e: Entry)
    ensures DurationField(e) == NoDurationText <==> e.duration.None? || e.duration.value == 0
    ensures DurationField(e) != NoDurationText ==>
      var f := DurationField(e);
      |f| > 2 && f[|f| - 2..] == "ms" && SignedValue(f[..|f| - 2]) == e.duration.value
  {
    if e.duration.Some? && e.duration.value != 0 {
      var d := IntToString(e.duration.value);
      var f := d + "ms";
      assert f[|f| - 1] == 's';
      assert NoDurationText[2] == 'A';
      assert f[..|f| - 2] == d;
      IntToStringRoundTrip(e.duration.value);
    }
  }

  function SummaryHeader(n: nat): string {
    "Retrieved " + NatToString(n) + " network entries:"
  }

  function SummaryBody(entries: seq<Entry>): (r: seq<string>)
    ensures |r| == |entries|
    ensures forall i :: 0 <= i < |entries| ==> r[i] == SummaryLine(entries[i])
  {
    if |entries| == 0 then [] else [SummaryLine(entries[0])] + SummaryBody(entries[1..])
  }

  /** The summary reply: a header with the count, a blank line, then one line
      per entry in result order. */
  function Summary(entries: seq<Entry>): (r: seq<string>)
    ensures |r| == |entries| + 2
    ensures r[0] == "Retrieved " + NatToString(|entries|) + " network entries:"
    ensures r[1] == ""
    ensures forall i :: 0 <= i < |entries| ==> r[i + 2] == SummaryLine(entries[i])
  {
    var body := SummaryBody(entries);
    var r := [SummaryHeader(|entries|), ""] + body;
    assert forall i :: 0 <= i < |entries| ==> r[i + 2] == body[i];
    r
  }

  lemma RenderedNumbers()
    ensures IntToString(1) == "1" && IntToString(200) == "200" && IntToString(120) == "120"
  {
    assert DigitChar(0) == '0' && DigitChar(1) == '1' && DigitChar(2) == '2';
    assert NatToString(2) == "2";
    assert NatToString(20) == "20";
    assert NatToString(12) == "12";
  }

  /** The scenario of one GET answered with status 200 after 120 ms. */
  lemma SummaryOfCompletedGet(id: RequestId, t0: int, headers: Headers, rh: Headers)
    ensures SummaryLine(Entry(
      NetRequest(id, "https://a.test/json", "GET", headers, None, t0, "fetch"),
      Some(NetResponse("https://a.test/json", 200, "OK", rh, t0 + 120, id)),
      Some(120))) == "GET https://a.test/json - 200 (120ms)"
  {
    RenderedNumbers();
    var e := Entry(
      NetRequest(id, "https://a.test/json", "GET", headers, None, t0, "fetch"),
      Some(NetResponse("https://a.test/json", 200, "OK", rh, t0 + 120, id)),
      Some(120));
    assert StatusField(e) == "200";
    assert DurationField(e) == "120ms";
    assert "GET" + " " + "https://a.test/json" + " - " == "GET https://a.test/json - ";
    assert " (" + "120ms" + ")" == " (120ms)";
    assert "GET https://a.test/json - " + "200" + " (120ms)" == "GET https://a.test/json - 200 (120ms)";
  }

  // --------------------------------------------------------------- detailed

  /** Post data cut to 200 characters, with "..." appended only when
      something was cut. */
  function TruncatePostData(p: string): (r: string)
    ensures |p| <= PostDataLimit ==> r == p
    ensures |p| > PostDataLimit ==> |r| == PostDataLimit + 3 && r[..PostDataLimit] == p[..PostDataLimit] && r[PostDataLimit..] == "..."
  {
    if |p| > PostDataLimit then p[..PostDataLimit] + "..." else p
  }

  /** The kept part of the post data is always a prefix of it, and the
      rendering never exceeds 203 characters. */
  lemma TruncateKeepsPrefix(p: string)
    ensures var r := TruncatePostData(p);
      var k := if |p| < PostDataLimit then |p| else PostDataLimit;
      |r| <= PostDataLimit + 3 && k <= |r| && r[..k] == p[..k]
  {
  }

  /** The lines of one entry's block in the detailed reply. `iso` stands for
      `new Date(t).toISOString()`. Five header lines, one for truthy post
      data, a blank separator followed by three response lines or by the
      pending marker, and a closing blank line. Unlike the summary, a zero
      duration prints as "0ms" here. */
  function DetailedBlockLines(e: Entry, iso: int -> string): (r: seq<string>)
    ensures var post := e.request.postData.Some? && e.request.postData.value != "";
      && |r| == 5 + (if post then 1 else 0) + (if e.response.Some? then 4 else 2) + 1
      && r[0] == "--- Request " + RequestIdText(e.request.id) + " ---"
      && r[1] == "URL: " + e.request.url
      && r[2] == "Method: " + e.request.httpMethod
      && r[3] == "Resource Type: " + e.request.resourceType
      && r[4] == "Timestamp: " + iso(e.request.timestamp)
      && (post ==> r[5] == "Post Data: " + TruncatePostData(e.request.postData.value))
      && (e.response.None? ==> r[|r| - 3] == "" && r[|r| - 2] == PendingMarker)
      && (e.response.Some? ==>
            && r[|r| - 5] == ""
            && r[|r| - 4] == "Response Status: " + IntToString(e.response.value.status) + " " + e.response.value.statusText
            && r[|r| - 3] == "Duration: " + DurationText(e.duration) + "ms"
            && r[|r| - 2] == "Response Timestamp: " + iso(e.response.value.timestamp))
      && r[|r| - 1] == ""
  {
    var head := [
      "--- Request " + RequestIdText(e.request.id) + " ---",
      "URL: " + e.request.url,
      "Method: " + e.request.httpMethod,
      "Resource Type: " + e.request.resourceType,
      "Timestamp: " + iso(e.request.timestamp)];
    var post :=
      if e.request.postData.Some? && e.request.postData.value != ""
      then ["Post Data: " + TruncatePostData(e.request.postData.value)]
      else [];
    var tail :=
      if e.response.Some? then [
        "",
        "Response Status: " + IntToString(e.response.value.status) + " " + e.response.value.statusText,
        "Duration: " + DurationText(e.duration) + "ms",
        "Response Timestamp: " + iso(e.response.value.timestamp)]
      else ["", PendingMarker];
    head + post + tail + [""]
  }

  /** `${entry.duration}`: a missing duration prints as "undefined" (never the
      case in a valid state, where a response always comes with one). */
  function DurationText(d: Option<int>): string {
    if d.Some? then IntToString(d.value) else "undefined"
  }

  /** A response that took 0 ms: the summary column reads "N/A" (0 is
      falsy there), while the detailed block prints the number. */
  lemma ZeroDurationViews(e: Entry, iso: int -> string)
    requires e.response.Some? && e.duration == Some(0)
    ensures DurationField(e) == NoDurationText
    ensures var lines := DetailedBlockLines(e, iso);
      lines[|lines| - 3] == "Duration: 0ms"
  {
    assert IntToString(0) == "0" by {
      assert DigitChar(0) == '0';
    }
    assert "Duration: " + "0" + "ms" == "Duration: 0ms";
  }

  /** The pending marker appears in a block exactly when the entry has no
      response; no other line of the block can read like it. */
  lemma PendingMarkerIff(e: Entry, iso: int -> string)
    ensures PendingMarker in DetailedBlockLines(e, iso) <==> e.response.None?
  {
    var lines := DetailedBlockLines(e, iso);
    if e.response.Some? {
      forall i | 0 <= i < |lines| ensures lines[i] != PendingMarker {
        DetailedLineNotMarker(e, iso, i);
      }
    } else {
      assert lines[|lines| - 2] == PendingMarker;
    }
  }

  lemma DetailedLineNotMarker(e: Entry, iso: int -> string, i: int)
    requires e.response.Some?
    requires 0 <= i < |DetailedBlockLines(e, iso)|
    ensures DetailedBlockLines(e, iso)[i] != PendingMarker
  {
    var lines := DetailedBlockLines(e, iso);
    var l := lines[i];
    var M := PendingMarker;
    var post := e.request.postData.Some? && e.request.postData.value != "";
    var p := if post then 1 else 0;
    assert M[0] == 'R' && M[3] == 'p' && M[8] == ':';
    if i == 0 { assert l[0] == '-'; }
    else if i == 1 { assert l[0] == 'U'; }
    else if i == 2 { assert l[0] == 'M'; }
    else if i == 3 { assert l[3] == 'o'; }
    else if i == 4 { assert l[0] == 'T'; }
    else if post && i == 5 { assert l[0] == 'P'; }
    else if i == 5 + p { assert l == ""; }
    else if i == 6 + p { assert l[8] == ' '; }
    else if i == 7 + p { assert l[0] == 'D'; }
    else if i == 8 + p { assert l[8] == ' '; }
    else { assert l == ""; }
  }

  function DetailedBody(entries: seq<Entry>, iso: int -> string): (r: seq<string>)
    ensures |r| == |entries|
    ensures forall i :: 0 <= i < |entries| ==> r[i] == Join(DetailedBlockLines(entries[i], iso), "\n")
  {
    if |entries| == 0 then [] else [Join(DetailedBlockLines(entries[0], iso), "\n")] + DetailedBody(entries[1..], iso)
  }

  function DetailedHeader(n: nat): string {
    "Retrieved " + NatToString(n) + " network entries (detailed):"
  }

  /** The detailed reply: a header with the count, a blank line, then one
      newline-joined block per entry in result order. */
  function Detailed(entries: seq<Entry>, iso: int -> string): (r: seq<string>)
    ensures |r| == |entries| + 2
    ensures r[0] == "Retrieved " + NatToString(|entries|) + " network entries (detailed):"
    ensures r[1] == ""
    ensures forall i :: 0 <= i < |entries| ==> r[i + 2] == Join(DetailedBlockLines(entries[i], iso), "\n")
  {
    var body := DetailedBody(entries, iso);
    var r := [DetailedHeader(|entries|), ""] + body;
    assert forall i :: 0 <= i < |entries| ==> r[i + 2] == body[i];
    r
  }
}
