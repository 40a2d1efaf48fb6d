/** The `execute` entry point of the network inspection tool: the four
    actions and their replies, plus the listener-registration defect. */
module NetworkTool {
  import opened Wrappers
  import opened NetworkModel
  import opened NetworkQuery
  import opened NetworkRender

  datatype Format = Summary | Detailed

  /** `action` defaults to `get`; `limit` to 50, `clear` to false and
      `format` to summary. */
  datatype Action = Start | Stop | Clear | Get(filter: Filter, limit: int, clear: bool, format: Format)

  const DefaultLimit := 50
  const DefaultGet := Get(NoFilter, DefaultLimit, false, Summary)

  const StartedText := "Network monitoring started. All network requests and responses will be captured."
  const StoppedText := "Network monitoring stopped."
  const ClearedText := "Network entries cleared."

  /** The reply to `get` for a given result. */
  function Reply(entries: seq<Entry>, format: Format, iso: int -> string): (r: seq<string>)
    ensures r == [NoEntriesText] <==> entries == []
    ensures entries != [] && format == Detailed ==> r == NetworkRender.Detailed(entries, iso)
    ensures entries != [] && format != Detailed ==> r == NetworkRender.Summary(entries)
    ensures entries != [] ==> |r| == |entries| + 2
  {
    if |entries| == 0 then [NoEntriesText]
    else if format == Detailed then NetworkRender.Detailed(entries, iso)
    else NetworkRender.Summary(entries)
  }

  /** One tool call, as written: the next state and the reply lines. `start`
      registers listeners guarded only by the monitoring flag. */
  function Execute(s: Inspector, a: Action, iso: int -> string): (r: (Inspector, seq<string>))
    ensures a.Start? ==> r == (RegisterAsWritten(s), [StartedText])
    ensures a.Stop? ==> r == (NetworkModel.Stop(s), [StoppedText])
    ensures a.Clear? ==> r == (NetworkModel.Clear(s), [ClearedText])
    ensures a.Get? && !a.clear ==> r.0 == s
    ensures a.Get? && a.clear ==> r.0.entries == [] && r.0.counter == 0 && r.0.isMonitoring == s.isMonitoring
    ensures a.Get? ==> r.1 == Reply(Query(s.entries, a.filter, a.limit), a.format, iso)
  {
    match a
    case Start => (RegisterAsWritten(s), [StartedText])
    case Stop => (NetworkModel.Stop(s), [StoppedText])
    case Clear => (NetworkModel.Clear(s), [ClearedText])
    case Get(f, limit, clear, format) =>
      var result := Query(s.entries, f, limit);
      var s' := if clear then NetworkModel.Clear(s) else s;
      (s', Reply(result, format, iso))
  }

  /** One tool call with the corrected registration: `start` attaches
      listeners only when none are attached; every other action is as
      written. */
  function ExecuteCorrected(s: Inspector, a: Action, iso: int -> string): (r: (Inspector, seq<string>))
    ensures a.Start? ==> r == (Register(s), [StartedText])
    ensures !a.Start? ==> r == Execute(s, a, iso)
  {
    if a.Start? then (Register(s), [StartedText]) else Execute(s, a, iso)
  }

  /** Every action keeps the invariant. */
  lemma ExecuteKeepsValid(s: Inspector, a: Action, iso: int -> string)
    requires Valid(s)
    ensures Valid(Execute(s, a, iso).0)
    ensures Valid(ExecuteCorrected(s, a, iso).0)
  {
  }

  /** A `get` that clears reports the state before the clear: its reply is the
      same as that of the same query without clearing. */
  lemma ClearAfterSnapshot(s: Inspector, f: Filter, limit: int, format: Format, iso: int -> string)
    ensures Execute(s, Get(f, limit, true, format), iso).1 == Execute(s, Get(f, limit, false, format), iso).1
    ensures Execute(s, Get(f, limit, true, format), iso).0 == NetworkModel.Clear(s)
  {
  }

  const ExampleRequest := RequestInfo("https://a.test/json", "GET", map[], None, "fetch")
  const ExampleResponse := ResponseInfo("https://a.test/json", 200, "OK", map[])

  const ExampleId := RequestId(1, 1000)
  const ExampleEntry := Entry(
    NetRequest(ExampleId, "https://a.test/json", "GET", map[], None, 1000, "fetch"),
    Some(NetResponse("https://a.test/json", 200, "OK", map[], 1120, ExampleId)),
    Some(120))

  /** Start monitoring, then one GET answered with status 200 after 120 ms:
      the table holds the one completed entry. */
  lemma ExampleTrace(iso: int -> string)
    ensures var s1 := Execute(Initial, Start, iso).0;
      var (s2, tag) := RequestEvent(s1, ExampleRequest, 1000);
      ResponseEvent(s2, tag, ExampleResponse, 1120).entries == [ExampleEntry]
  {
    var s1 := Execute(Initial, Start, iso).0;
    var (s2, tag) := RequestEvent(s1, ExampleRequest, 1000);
    assert tag == Some(ExampleId);
    DispatchResponseOnce(s2, tag, ExampleResponse, 1120, 1);
  }

  lemma ExampleQuery(s: Inspector)
    requires s.entries == [ExampleEntry]
    ensures Query(s.entries, NoFilter, DefaultLimit) == [ExampleEntry]
  {
    assert ApplyFilters([ExampleEntry], NoFilter) == [ExampleEntry];
    assert SortByTime([ExampleEntry]) == [ExampleEntry];
  }

  lemma ExampleSummary()
    ensures NetworkRender.Summary([ExampleEntry]) ==
      ["Retrieved 1 network entries:", "", "GET https://a.test/json - 200 (120ms)"]
  {
    assert SummaryBody([ExampleEntry]) == [SummaryLine(ExampleEntry)];
    assert SummaryHeader(1) == "Retrieved 1 network entries:" by {
      assert Text.DigitChar(1) == '1';
      assert Text.NatToString(1) == "1";
    }
    SummaryOfCompletedGet(ExampleId, 1000, map[], map[]);
  }

  /** A default `get` over that table reports the single summary line. */
  lemma ExampleReply(s: Inspector, iso: int -> string)
    requires s.entries == [ExampleEntry]
    ensures Execute(s, DefaultGet, iso).1 ==
      ["Retrieved 1 network entries:", "", "GET https://a.test/json - 200 (120ms)"]
  {
    ExampleQuery(s);
    ExampleSummary();
  }

  /** The defect, as written: start, stop, start attaches a second listener
      set, and from then on each request is recorded twice; the response
      completes only the entry whose id was tagged last, so the other stays
      pending forever. */
  lemma RestartDuplicatesEntries(info: RequestInfo, resp: ResponseInfo, t0: int, t1: int, iso: int -> string)
    ensures var s := Execute(Execute(Execute(Initial, Start, iso).0, Stop, iso).0, Start, iso).0;
      var (s1, tag) := RequestEvent(s, info, t0);
      var s2 := ResponseEvent(s1, tag, resp, t1);
      && s.handlers == 2
      && |s2.entries| == 2
      && s2.entries[0].response.None?
      && s2.entries[1].response.Some?
  {
    var s := Execute(Execute(Execute(Initial, Start, iso).0, Stop, iso).0, Start, iso).0;
    assert s == RegisterAsWritten(NetworkModel.Stop(RegisterAsWritten(Initial)));
    var (s1, tag) := RequestEvent(s, info, t0);
    assert tag == Some(RequestId(2, t0));
    DispatchResponseOnce(s1, tag, resp, t1, 2);
    InitialValid();
    DispatchRequestValid(s, info, t0, 2);
    AttachUpdatesOnlyTagged(s1, tag, resp.url, resp.status, resp.statusText, resp.headers, t1);
  }

  /** The corrected registration: start, stop, start leaves one listener set,
      and a request followed by its response yields exactly one completed
      entry. */
  lemma RestartKeepsSingleEntry(info: RequestInfo, resp: ResponseInfo, t0: int, t1: int, iso: int -> string)
    ensures var s := ExecuteCorrected(ExecuteCorrected(ExecuteCorrected(Initial, Start, iso).0, Stop, iso).0, Start, iso).0;
      var (s1, tag) := RequestEvent(s, info, t0);
      var s2 := ResponseEvent(s1, tag, resp, t1);
      && s.handlers == 1
      && |s2.entries| == 1
      && s2.entries[0].response.Some?
      && s2.entries[0].duration == Some(t1 - t0)
  {
    var s := ExecuteCorrected(ExecuteCorrected(ExecuteCorrected(Initial, Start, iso).0, Stop, iso).0, Start, iso).0;
    assert s == Register(NetworkModel.Stop(Register(Initial)));
    var (s1, tag) := RequestEvent(s, info, t0);
    DispatchResponseOnce(s1, tag, resp, t1, 1);
    InitialValid();
    RequestEventAddsOneEntry(s, info, t0);
    AttachUpdatesOnlyTagged(s1, tag, resp.url, resp.status, resp.statusText, resp.headers, t1);
  }
}
