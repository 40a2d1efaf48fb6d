/** The state of the network inspection tool and the page events that change
    it: a table of network entries in insertion order (a JavaScript `Map`
    keeps the order in which keys were first set), the request counter the ids
    are minted from, the monitoring flag, and the number of listener sets
    attached to the page. Playwright request/response objects become plain
    records and `Date.now()` becomes an explicit `now` argument. */
module NetworkModel {
  import opened Wrappers
  import opened Text

  /** A request id: the counter value after incrementing, and the capture time. */
  datatype RequestId = RequestId(serial: nat, stamp: int)

  /** The id as the tool prints it: `req_<serial>_<stamp>`. */
  function RequestIdText(id: RequestId): string {
    "req_" + NatToString(id.serial) + "_" + IntToString(id.stamp)
  }

  type Headers = map<string, string>

  datatype NetRequest = NetRequest(
    id: RequestId,
    url: string,
    httpMethod: string,
    headers: Headers,
    postData: Option<string>,
    timestamp: int,
    resourceType: string)

  /** A response record. Its `id` field, `res_<request id>`, is left out: it
      is determined by `requestId` and nothing reads it. */
  datatype NetResponse = NetResponse(
    url: string,
    status: int,
    statusText: string,
    headers: Headers,
    timestamp: int,
    requestId: RequestId)

  datatype Entry = Entry(request: NetRequest, response: Option<NetResponse>, duration: Option<int>)

  /** What a page reports about a request when it is issued. */
  datatype RequestInfo = RequestInfo(
    url: string,
    httpMethod: string,
    headers: Headers,
    postData: Option<string>,
    resourceType: string)

  /** What a page reports about a response when it arrives. */
  datatype ResponseInfo = ResponseInfo(url: string, status: int, statusText: string, headers: Headers)

  /** `handlers` counts the request/response/failure listener sets attached to
      the page: every set handles every event. */
  datatype Inspector = Inspector(entries: seq<Entry>, counter: nat, isMonitoring: bool, handlers: nat)

  const Initial := Inspector([], 0, false, 0)

  /** The status text of a synthetic failure response. */
  const RequestFailedText := "Request failed"

  /** The position of the entry with id `id`, if any. */
  function Find(entries: seq<Entry>, id: RequestId): (r: Option<nat>)
    ensures r.Some? ==> r.value < |entries| && entries[r.value].request.id == id
    ensures r.Some? ==> forall j :: 0 <= j < r.value ==> entries[j].request.id != id
    ensures r.None? ==> forall j :: 0 <= j < |entries| ==> entries[j].request.id != id
  {
    if |entries| == 0 then None
    else if entries[0].request.id == id then Some(0)
    else match Find(entries[1..], id)
      case None => None
      case Some(k) => Some(k + 1)
  }

  predicate HasId(entries: seq<Entry>, id: RequestId) {
    exists i :: 0 <= i < |entries| && entries[i].request.id == id
  }

  predicate IdsDistinct(entries: seq<Entry>) {
    forall i, j :: 0 <= i < j < |entries| ==> entries[i].request.id != entries[j].request.id
  }

  /** A response, real or synthetic, belongs to the entry's request, and the
      duration is recorded exactly when a response is. */
  predicate WellFormed(e: Entry) {
    && (e.response.Some? <==> e.duration.Some?)
    && (e.response.Some? ==> e.response.value.requestId == e.request.id)
  }

  /** The invariant every reachable state keeps: ids are distinct and never
      ahead of the counter, every entry is well formed, and monitoring means
      listeners are attached. */
  predicate Valid(s: Inspector) {
    && IdsDistinct(s.entries)
    && (forall i :: 0 <= i < |s.entries| ==> 1 <= s.entries[i].request.id.serial <= s.counter)
    && (forall i :: 0 <= i < |s.entries| ==> WellFormed(s.entries[i]))
    && (s.isMonitoring ==> s.handlers > 0)
  }

  lemma InitialValid()
    ensures Valid(Initial)
  {
  }

  /** One `request` listener run: the counter is incremented before use, the
      new entry is pending, and the returned id is the tag written onto the
      request object. */
  function OnRequest(s: Inspector, info: RequestInfo, now: int): (r: (Inspector, RequestId))
    ensures r.1.serial == s.counter + 1 && r.1.stamp == now
    ensures r.0.counter == s.counter + 1
    ensures |r.0.entries| == |s.entries| + 1 && r.0.entries[..|s.entries|] == s.entries
    ensures r.0.isMonitoring == s.isMonitoring && r.0.handlers == s.handlers
  {
    var id := RequestId(s.counter + 1, now);
    var req := NetRequest(id, info.url, info.httpMethod, info.headers, info.postData, now, info.resourceType);
    (s.(entries := s.entries + [Entry(req, None, None)], counter := s.counter + 1), id)
  }

  /** The new entry carries exactly what the page reported, with no response
      and no duration, and in a valid state its id is fresh. */
  lemma OnRequestAddsPendingEntry(s: Inspector, info: RequestInfo, now: int)
    requires Valid(s)
    ensures var (s', id) := OnRequest(s, info, now);
      && !HasId(s.entries, id)
      && s'.entries[|s.entries|] == Entry(NetRequest(id, info.url, info.httpMethod, info.headers, info.postData, now, info.resourceType), None, None)
      && Valid(s')
  {
  }

  /** Attaches a response to the tagged entry, if the tag still names one.
      Shared by the `response` and `requestfailed` listeners. */
  function Attach(s: Inspector, tag: Option<RequestId>, url: string, status: int, statusText: string,
                  headers: Headers, now: int): (r: Inspector)
    ensures r.counter == s.counter && r.isMonitoring == s.isMonitoring && r.handlers == s.handlers
    ensures |r.entries| == |s.entries|
    ensures forall j :: 0 <= j < |s.entries| ==> r.entries[j].request == s.entries[j].request
  {
    if tag.None? then s
    else match Find(s.entries, tag.value)
      case None => s
      case Some(i) =>
        var e := s.entries[i];
        var resp := NetResponse(url, status, statusText, headers, now, tag.value);
        s.(entries := s.entries[i := Entry(e.request, Some(resp), Some(now - e.request.timestamp))])
  }

  /** One `response` listener run. */
  function OnResponse(s: Inspector, tag: Option<RequestId>, info: ResponseInfo, now: int): Inspector {
    Attach(s, tag, info.url, info.status, info.statusText, info.headers, now)
  }

  /** The status text of a failure: the reported error text unless it is
      missing or empty (both falsy), else "Request failed". */
  function FailureText(errorText: Option<string>): (t: string)
    ensures t != ""
    ensures errorText.Some? && errorText.value != "" ==> t == errorText.value
    ensures errorText.None? || errorText.value == "" ==> t == RequestFailedText
  {
    if errorText.Some? && errorText.value != "" then errorText.value else RequestFailedText
  }

  /** One `requestfailed` listener run: a synthetic response with status 0
      and no headers, on the first entry carrying the tag; nothing changes
      when the tag is missing or names no entry. */
  function OnRequestFailed(s: Inspector, tag: Option<RequestId>, url: string, errorText: Option<string>,
                           now: int): (r: Inspector)
    ensures tag.None? || Find(s.entries, tag.value).None? ==> r == s
    ensures |r.entries| == |s.entries|
    ensures tag.Some? && Find(s.entries, tag.value).Some? ==>
      var i := Find(s.entries, tag.value).value;
      && r.entries == s.entries[i := r.entries[i]]
      && r.entries[i].request == s.entries[i].request
      && r.entries[i].response == Some(NetResponse(url, 0, FailureText(errorText), map[], now, tag.value))
      && r.entries[i].duration == Some(now - s.entries[i].request.timestamp)
    ensures r.counter == s.counter && r.isMonitoring == s.isMonitoring && r.handlers == s.handlers
  {
    Attach(s, tag, url, 0, FailureText(errorText), map[], now)
  }

  /** In a valid state, attaching touches only the entry whose id is the tag:
      it gets the response and the duration `now - request time`; when the tag
      is missing or no entry carries it (say, after a clear) nothing changes. */
  lemma AttachUpdatesOnlyTagged(s: Inspector, tag: Option<RequestId>, url: string, status: int,
                                statusText: string, headers: Headers, now: int)
    requires Valid(s)
    ensures var r := Attach(s, tag, url, status, statusText, headers, now);
      && Valid(r)
      && (tag.None? || !HasId(s.entries, tag.value) ==> r == s)
      && (forall j :: 0 <= j < |s.entries| && Some(s.entries[j].request.id) != tag ==> r.entries[j] == s.entries[j])
      && (forall j :: 0 <= j < |s.entries| && Some(s.entries[j].request.id) == tag ==>
            && r.entries[j].response == Some(NetResponse(url, status, statusText, headers, now, tag.value))
            && r.entries[j].duration == Some(now - s.entries[j].request.timestamp))
  {
    var r := Attach(s, tag, url, status, statusText, headers, now);
    if tag.Some? {
      match Find(s.entries, tag.value)
      case None =>
      case Some(i) =>
        forall j | 0 <= j < |s.entries| && Some(s.entries[j].request.id) == tag
          ensures j == i
        {
        }
    }
  }

  /** A failure produces a response with status 0, empty headers and the
      failure text, and the duration from the request to the failure. */
  lemma FailureIsStatusZero(s: Inspector, id: RequestId, url: string, errorText: Option<string>, now: int)
    requires Valid(s)
    requires HasId(s.entries, id)
    ensures var r := OnRequestFailed(s, Some(id), url, errorText, now);
      forall j :: 0 <= j < |s.entries| && s.entries[j].request.id == id ==>
        && r.entries[j].response.Some?
        && r.entries[j].response.value.status == 0
        && r.entries[j].response.value.headers == map[]
        && r.entries[j].response.value.statusText == FailureText(errorText)
        && r.entries[j].duration == Some(now - s.entries[j].request.timestamp)
  {
    AttachUpdatesOnlyTagged(s, Some(id), url, 0, FailureText(errorText), map[], now);
  }

  /** Attaching the same response twice is the same as attaching it once. */
  lemma AttachIdempotent(s: Inspector, tag: Option<RequestId>, url: string, status: int,
                         statusText: string, headers: Headers, now: int)
    ensures var r := Attach(s, tag, url, status, statusText, headers, now);
      Attach(r, tag, url, status, statusText, headers, now) == r
  {
    var r := Attach(s, tag, url, status, statusText, headers, now);
    if tag.Some? {
      match Find(s.entries, tag.value)
      case None =>
      case Some(i) =>
        assert Find(r.entries, tag.value) == Some(i) by {
          FindSameIds(s.entries, r.entries, tag.value);
        }
    }
  }

  /** Find depends only on the ids. */
  lemma {:induction false} FindSameIds(a: seq<Entry>, b: seq<Entry>, id: RequestId)
    requires |a| == |b|
    requires forall j :: 0 <= j < |a| ==> a[j].request.id == b[j].request.id
    ensures Find(a, id) == Find(b, id)
    decreases |a|
  {
    if |a| > 0 {
      FindSameIds(a[1..], b[1..], id);
    }
  }

  /** A page event of kind `request`: every attached listener set runs in
      registration order; each mints its own entry and overwrites the tag, so
      the tag left on the request is the last one. */
  function DispatchRequest(s: Inspector, info: RequestInfo, now: int, k: nat): (r: (Inspector, Option<RequestId>))
    ensures |r.0.entries| == |s.entries| + k
    ensures r.0.entries[..|s.entries|] == s.entries
    ensures r.0.counter == s.counter + k
    ensures r.1.Some? <==> k > 0
    ensures r.1.Some? ==> r.1.value == RequestId(s.counter + k, now)
    ensures r.0.isMonitoring == s.isMonitoring && r.0.handlers == s.handlers
    decreases k
  {
    if k == 0 then (s, None)
    else
      var (s1, id) := OnRequest(s, info, now);
      var (s2, t) := DispatchRequest(s1, info, now, k - 1);
      assert s2.entries[..|s.entries|] == s1.entries[..|s1.entries|][..|s.entries|];
      (s2, if t.Some? then t else Some(id))
  }

  /** A `request` event on the page: one new pending entry per attached
      listener set, each with the next serial; the request keeps the last id. */
  function RequestEvent(s: Inspector, info: RequestInfo, now: int): (r: (Inspector, Option<RequestId>))
    ensures |r.0.entries| == |s.entries| + s.handlers
    ensures r.0.entries[..|s.entries|] == s.entries
    ensures forall j :: |s.entries| <= j < |r.0.entries| ==>
      && r.0.entries[j].request.id == RequestId(s.counter + (j - |s.entries|) + 1, now)
      && r.0.entries[j].response.None? && r.0.entries[j].duration.None?
    ensures r.0.counter == s.counter + s.handlers
    ensures r.1.Some? <==> s.handlers > 0
    ensures r.1.Some? ==> r.1.value == RequestId(s.counter + s.handlers, now)
  {
    DispatchRequestEntries(s, info, now, s.handlers);
    DispatchRequest(s, info, now, s.handlers)
  }

  /** The entries a request event appends are pending and numbered in order. */
  lemma {:induction false} DispatchRequestEntries(s: Inspector, info: RequestInfo, now: int, k: nat)
    ensures forall j :: |s.entries| <= j < |DispatchRequest(s, info, now, k).0.entries| ==>
      && DispatchRequest(s, info, now, k).0.entries[j].request.id == RequestId(s.counter + (j - |s.entries|) + 1, now)
      && DispatchRequest(s, info, now, k).0.entries[j].response.None?
      && DispatchRequest(s, info, now, k).0.entries[j].duration.None?
    decreases k
  {
    if k > 0 {
      var (s1, id) := OnRequest(s, info, now);
      DispatchRequestEntries(s1, info, now, k - 1);
      var r := DispatchRequest(s, info, now, k).0;
      assert r == DispatchRequest(s1, info, now, k - 1).0;
      assert r.entries[|s.entries|] == s1.entries[|s.entries|];
      forall j | |s.entries| <= j < |r.entries|
        ensures && r.entries[j].request.id == RequestId(s.counter + (j - |s.entries|) + 1, now)
                && r.entries[j].response.None? && r.entries[j].duration.None?
      {
        if j > |s.entries| {
          assert |s1.entries| <= j;
        }
      }
    }
  }

  /** A page event of kind `response`: every attached listener set runs the
      response handler with the same tag. */
  function DispatchResponse(s: Inspector, tag: Option<RequestId>, info: ResponseInfo, now: int, k: nat): Inspector
    decreases k
  {
    if k == 0 then s else DispatchResponse(OnResponse(s, tag, info, now), tag, info, now, k - 1)
  }

  /** A `response` event on the page: however many listener sets are
      attached, the effect is that of one response handler run, or none when
      no set is attached. */
  function ResponseEvent(s: Inspector, tag: Option<RequestId>, info: ResponseInfo, now: int): (r: Inspector)
    ensures s.handlers == 0 ==> r == s
    ensures s.handlers > 0 ==> r == OnResponse(s, tag, info, now)
  {
    DispatchResponseOnce(s, tag, info, now, s.handlers);
    DispatchResponse(s, tag, info, now, s.handlers)
  }

  /** A page event of kind `requestfailed`. */
  function DispatchFailure(s: Inspector, tag: Option<RequestId>, url: string, errorText: Option<string>,
                           now: int, k: nat): Inspector
    decreases k
  {
    if k == 0 then s else DispatchFailure(OnRequestFailed(s, tag, url, errorText, now), tag, url, errorText, now, k - 1)
  }

  /** A `requestfailed` event on the page: the effect of one failure
      handler run, or none when no listener set is attached. */
  function FailureEvent(s: Inspector, tag: Option<RequestId>, url: string, errorText: Option<string>, now: int): (r: Inspector)
    ensures s.handlers == 0 ==> r == s
    ensures s.handlers > 0 ==> r == OnRequestFailed(s, tag, url, errorText, now)
  {
    DispatchFailureOnce(s, tag, url, errorText, now, s.handlers);
    DispatchFailure(s, tag, url, errorText, now, s.handlers)
  }

  /** However many listener sets are attached, a response event has the
      effect of one response handler run (or none when no set is attached). */
  lemma {:induction false} DispatchResponseOnce(s: Inspector, tag: Option<RequestId>, info: ResponseInfo, now: int, k: nat)
    ensures DispatchResponse(s, tag, info, now, k) == if k == 0 then s else OnResponse(s, tag, info, now)
    decreases k
  {
    if k > 1 {
      var s1 := OnResponse(s, tag, info, now);
      AttachIdempotent(s, tag, info.url, info.status, info.statusText, info.headers, now);
      DispatchResponseOnce(s1, tag, info, now, k - 1);
    }
  }

  lemma {:induction false} DispatchFailureOnce(s: Inspector, tag: Option<RequestId>, url: string,
                                               errorText: Option<string>, now: int, k: nat)
    ensures DispatchFailure(s, tag, url, errorText, now, k) == if k == 0 then s else OnRequestFailed(s, tag, url, errorText, now)
    decreases k
  {
    if k > 1 {
      var s1 := OnRequestFailed(s, tag, url, errorText, now);
      AttachIdempotent(s, tag, url, 0, FailureText(errorText), map[], now);
      DispatchFailureOnce(s1, tag, url, errorText, now, k - 1);
    }
  }

  /** `registerNetworkListeners` as written: the monitoring flag is the only
      guard, and `stop` clears it while leaving the listeners attached. */
  function RegisterAsWritten(s: Inspector): (r: Inspector)
    ensures s.isMonitoring ==> r == s
    ensures !s.isMonitoring ==> r.isMonitoring && r.handlers == s.handlers + 1
    ensures r.entries == s.entries && r.counter == s.counter
  {
    if s.isMonitoring then s else s.(isMonitoring := true, handlers := s.handlers + 1)
  }

  /** `registerNetworkListeners` as intended: listeners are attached only when
      none are attached yet, so restarting after `stop` only raises the flag. */
  function Register(s: Inspector): (r: Inspector)
    ensures s.isMonitoring ==> r == s
    ensures r.isMonitoring
    ensures !s.isMonitoring ==> r.handlers == if s.handlers == 0 then 1 else s.handlers
    ensures r.entries == s.entries && r.counter == s.counter
  {
    if s.isMonitoring then s
    else if s.handlers > 0 then s.(isMonitoring := true)
    else s.(isMonitoring := true, handlers := 1)
  }

  /** The `stop` action: only the flag changes. */
  function Stop(s: Inspector): (r: Inspector)
    ensures !r.isMonitoring
    ensures r.entries == s.entries && r.counter == s.counter && r.handlers == s.handlers
  {
    s.(isMonitoring := false)
  }

  /** The `clear` action: the table is emptied and the counter reset; the
      flag and the listeners stay. */
  function Clear(s: Inspector): (r: Inspector)
    ensures r.entries == [] && r.counter == 0
    ensures r.isMonitoring == s.isMonitoring && r.handlers == s.handlers
  {
    s.(entries := [], counter := 0)
  }

  /** Starting while monitoring changes nothing, so a second `start` never
      adds listeners; and a `stop` followed by `start` returns to the very
      state the first `start` reached, so any number of restarts keeps one
      listener set attached. */
  lemma RegisterKeepsOneHandler(s: Inspector)
    requires Valid(s) && s.handlers <= 1
    ensures Register(s).handlers == 1
    ensures Register(Register(s)) == Register(s)
    ensures Register(Stop(Register(s))) == Register(s)
    ensures Register(Stop(Register(s))).handlers == 1
  {
  }

  /** With exactly one listener set attached, a request event adds exactly
      one entry, pending, keyed by the next counter value. */
  lemma RequestEventAddsOneEntry(s: Inspector, info: RequestInfo, now: int)
    requires Valid(s) && s.handlers == 1
    ensures var (s', tag) := RequestEvent(s, info, now);
      && tag == Some(RequestId(s.counter + 1, now))
      && |s'.entries| == |s.entries| + 1
      && s'.entries[..|s.entries|] == s.entries
      && s'.entries[|s.entries|].response.None? && s'.entries[|s.entries|].duration.None?
      && s'.entries[|s.entries|].request.id == tag.value
      && !HasId(s.entries, tag.value)
      && Valid(s')
  {
    OnRequestAddsPendingEntry(s, info, now);
  }

  /** Every page event and every action keeps the invariant. */
  lemma {:induction false} DispatchRequestValid(s: Inspector, info: RequestInfo, now: int, k: nat)
    requires Valid(s)
    ensures Valid(DispatchRequest(s, info, now, k).0)
    decreases k
  {
    if k > 0 {
      OnRequestAddsPendingEntry(s, info, now);
      DispatchRequestValid(OnRequest(s, info, now).0, info, now, k - 1);
    }
  }

  lemma EventsKeepValid(s: Inspector, info: RequestInfo, tag: Option<RequestId>, resp: ResponseInfo,
                        url: string, errorText: Option<string>, now: int)
    requires Valid(s)
    ensures Valid(RequestEvent(s, info, now).0)
    ensures Valid(ResponseEvent(s, tag, resp, now))
    ensures Valid(FailureEvent(s, tag, url, errorText, now))
    ensures Valid(Register(s)) && Valid(RegisterAsWritten(s)) && Valid(Stop(s)) && Valid(Clear(s))
  {
    DispatchRequestValid(s, info, now, s.handlers);
    DispatchResponseOnce(s, tag, resp, now, s.handlers);
    AttachUpdatesOnlyTagged(s, tag, resp.url, resp.status, resp.statusText, resp.headers, now);
    DispatchFailureOnce(s, tag, url, errorText, now, s.handlers);
    AttachUpdatesOnlyTagged(s, tag, url, 0, FailureText(errorText), map[], now);
  }

  /** Serial numbers of the entries, in table order. */
  function Serials(entries: seq<Entry>): (r: seq<nat>)
    ensures |r| == |entries|
    ensures forall i :: 0 <= i < |entries| ==> r[i] == entries[i].request.id.serial
  {
    if |entries| == 0 then [] else [entries[0].request.id.serial] + Serials(entries[1..])
  }

  /** The serials 1, 2, ..., n. */
  function CountUp(n: nat): (r: seq<nat>)
    ensures |r| == n
    ensures forall i :: 0 <= i < n ==> r[i] == i + 1
  {
    if n == 0 then [] else CountUp(n - 1) + [n]
  }

  /** Feeds a sequence of requests to the page, one event each, every
      request with its own time. */
  function RequestAll(s: Inspector, run: seq<(RequestInfo, int)>): (r: Inspector)
    ensures r.handlers == s.handlers
    decreases |run|
  {
    if |run| == 0 then s else RequestAll(RequestEvent(s, run[0].0, run[0].1).0, run[1..])
  }

  /** After a clear, the serials are 1, 2, ..., n in table order whenever the
      requests happen: with one listener set attached the k-th request gets
      serial k, and with several each request takes the next serials. */
  lemma {:induction false} SerialsAfterClear(s: Inspector, run: seq<(RequestInfo, int)>)
    ensures Serials(RequestAll(Clear(s), run).entries) == CountUp(|run| * s.handlers)
  {
    RequestAllCounts(Clear(s), run);
  }

  /** One request event keeps the serials 1..counter, advancing the counter
      by the number of attached listener sets. */
  lemma RequestEventCounts(s: Inspector, info: RequestInfo, now: int)
    requires Serials(s.entries) == CountUp(s.counter)
    ensures var r := RequestEvent(s, info, now).0;
      r.counter == s.counter + s.handlers && Serials(r.entries) == CountUp(r.counter)
  {
    var r := RequestEvent(s, info, now).0;
    assert |s.entries| == s.counter;
    forall i | 0 <= i < |r.entries| ensures Serials(r.entries)[i] == i + 1 {
      if i < |s.entries| {
        assert r.entries[i] == r.entries[..|s.entries|][i];
        assert Serials(s.entries)[i] == i + 1;
      }
    }
  }

  lemma MulSucc(n: nat, h: nat)
    ensures (n + 1) * h == h + n * h
  {
  }

  /** If the serials so far are 1..counter, a run of requests keeps them
      1..counter, and each request advances the counter by the number of
      attached listener sets. */
  lemma {:induction false} RequestAllCounts(s: Inspector, run: seq<(RequestInfo, int)>)
    requires Serials(s.entries) == CountUp(s.counter)
    ensures var r := RequestAll(s, run);
      r.counter == s.counter + |run| * s.handlers && Serials(r.entries) == CountUp(r.counter)
    decreases |run|
  {
    if |run| > 0 {
      var s1 := RequestEvent(s, run[0].0, run[0].1).0;
      RequestEventCounts(s, run[0].0, run[0].1);
      RequestAllCounts(s1, run[1..]);
      MulSucc(|run[1..]|, s.handlers);
      assert |run| == |run[1..]| + 1;
    }
  }

  /** Ids are not unique across a `clear`: the counter restarts at 0, so a
      request in the same millisecond as one issued before the clear gets
      the same id, and the late response to the old request is attached to
      the new entry. */
  lemma ClearReusesIds(info: RequestInfo, info2: RequestInfo, resp: ResponseInfo, now: int, later: int)
    ensures var s1 := RequestEvent(Register(Initial), info, now);
      var s2 := RequestEvent(Clear(s1.0), info2, now);
      var r := ResponseEvent(s2.0, s1.1, resp, later);
      && s1.1 == s2.1 == Some(RequestId(1, now))
      && |r.entries| == 1
      && r.entries[0].request.url == info2.url
      && r.entries[0].response == Some(NetResponse(resp.url, resp.status, resp.statusText, resp.headers, later, RequestId(1, now)))
  {
    var s0 := Register(Initial);
    RequestEventAddsOneEntry(s0, info, now);
    var s1 := RequestEvent(s0, info, now);
    RequestEventAddsOneEntry(Clear(s1.0), info2, now);
    var s2 := RequestEvent(Clear(s1.0), info2, now);
    AttachUpdatesOnlyTagged(s2.0, s1.1, resp.url, resp.status, resp.statusText, resp.headers, later);
  }
}
