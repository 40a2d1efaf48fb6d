/** The `get` query over the network table: the filters applied one after
    another, a stable ascending sort by request time, and the tail `limit`. */
module NetworkQuery {
  import opened Wrappers
  import opened Text
  import opened NetworkModel

  /** The `filter` argument. Every field is optional, and a field whose value
      is falsy (the empty string, the number 0) is not applied at all. */
  datatype Filter = Filter(
    httpMethod: Option<string>,
    url: Option<string>,
    status: Option<int>,
    resourceType: Option<string>,
    minDuration: Option<int>)

  const NoFilter := Filter(None, None, None, None, None)

  /** JavaScript truthiness of an optional string or number. */
  predicate StringSet(o: Option<string>) {
    o.Some? && o.value != ""
  }

  predicate NumberSet(o: Option<int>) {
    o.Some? && o.value != 0
  }

  /** The five filters, in the order the tool applies them. */
  datatype Criterion = ByMethod | ByUrl | ByStatus | ByResourceType | ByMinDuration

  /** Whether criterion `c` of filter `f` is applied at all. */
  predicate Active(f: Filter, c: Criterion) {
    match c
    case ByMethod => StringSet(f.httpMethod)
    case ByUrl => StringSet(f.url)
    case ByStatus => NumberSet(f.status)
    case ByResourceType => StringSet(f.resourceType)
    case ByMinDuration => NumberSet(f.minDuration)
  }

  /** Whether entry `e` passes criterion `c` of `f`, assuming it is applied.
      A zero duration is falsy and so fails a minimum-duration filter. */
  predicate Passes(e: Entry, f: Filter, c: Criterion)
    requires Active(f, c)
  {
    match c
    case ByMethod => EqualsIgnoringCase(e.request.httpMethod, f.httpMethod.value)
    case ByUrl => Contains(e.request.url, f.url.value)
    case ByStatus => e.response.Some? && e.response.value.status == f.status.value
    case ByResourceType => e.request.resourceType == f.resourceType.value
    case ByMinDuration => e.duration.Some? && e.duration.value != 0 && e.duration.value >= f.minDuration.value
  }

  /** One filter pass, keeping the order of the survivors. */
  function Keep(s: seq<Entry>, f: Filter, c: Criterion): (r: seq<Entry>)
    requires Active(f, c)
    ensures |r| <= |s|
    ensures forall e :: e in r <==> e in s && Passes(e, f, c)
  {
    if |s| == 0 then []
    else
      assert s == [s[0]] + s[1..];
      if Passes(s[0], f, c) then [s[0]] + Keep(s[1..], f, c)
      else Keep(s[1..], f, c)
  }

  /** A pass that is skipped when its field is falsy. */
  function Stage(s: seq<Entry>, f: Filter, c: Criterion): (r: seq<Entry>)
    ensures |r| <= |s|
    ensures !Active(f, c) ==> r == s
    ensures forall e :: e in r <==> e in s && (Active(f, c) ==> Passes(e, f, c))
  {
    if Active(f, c) then Keep(s, f, c) else s
  }

  /** The filter chain as the tool runs it: method, url, status, resource
      type, minimum duration, each pass only when its field is truthy. An
      entry survives exactly when it passes every applied filter. */
  function ApplyFilters(s: seq<Entry>, f: Filter): (r: seq<Entry>)
    ensures |r| <= |s|
    ensures forall e :: e in r <==> e in s && Matches(e, f)
  {
    var s1 := Stage(s, f, ByMethod);
    var s2 := Stage(s1, f, ByUrl);
    var s3 := Stage(s2, f, ByStatus);
    var s4 := Stage(s3, f, ByResourceType);
    Stage(s4, f, ByMinDuration)
  }

  /** The reference: an entry matches when it passes every applied filter. */
  predicate Matches(e: Entry, f: Filter) {
    && (Active(f, ByMethod) ==> Passes(e, f, ByMethod))
    && (Active(f, ByUrl) ==> Passes(e, f, ByUrl))
    && (Active(f, ByStatus) ==> Passes(e, f, ByStatus))
    && (Active(f, ByResourceType) ==> Passes(e, f, ByResourceType))
    && (Active(f, ByMinDuration) ==> Passes(e, f, ByMinDuration))
  }

  /** One pass over the table keeping the matching entries in order. */
  function Select(s: seq<Entry>, f: Filter): (r: seq<Entry>)
    ensures |r| <= |s|
  {
    if |s| == 0 then []
    else if Matches(s[0], f) then [s[0]] + Select(s[1..], f)
    else Select(s[1..], f)
  }

  lemma {:induction false} SelectMembership(s: seq<Entry>, f: Filter)
    ensures forall e :: e in Select(s, f) <==> e in s && Matches(e, f)
    decreases |s|
  {
    if |s| > 0 {
      SelectMembership(s[1..], f);
      assert s == [s[0]] + s[1..];
    }
  }

  lemma StageCons(x: Entry, t: seq<Entry>, f: Filter, c: Criterion)
    ensures Stage([x] + t, f, c) ==
      if !Active(f, c) || Passes(x, f, c) then [x] + Stage(t, f, c) else Stage(t, f, c)
  {
    assert ([x] + t)[1..] == t;
  }

  /** Running the filters one after another keeps exactly the entries that
      match all of them, in table order. */
  lemma {:induction false} FiltersAreConjunction(s: seq<Entry>, f: Filter)
    ensures ApplyFilters(s, f) == Select(s, f)
    decreases |s|
  {
    if |s| > 0 {
      var x, t := s[0], s[1..];
      assert s == [x] + t;
      FiltersAreConjunction(t, f);
      var t1 := Stage(t, f, ByMethod);
      var t2 := Stage(t1, f, ByUrl);
      var t3 := Stage(t2, f, ByStatus);
      var t4 := Stage(t3, f, ByResourceType);
      StageCons(x, t, f, ByMethod);
      if !Active(f, ByMethod) || Passes(x, f, ByMethod) {
        StageCons(x, t1, f, ByUrl);
        if !Active(f, ByUrl) || Passes(x, f, ByUrl) {
          StageCons(x, t2, f, ByStatus);
          if !Active(f, ByStatus) || Passes(x, f, ByStatus) {
            StageCons(x, t3, f, ByResourceType);
            if !Active(f, ByResourceType) || Passes(x, f, ByResourceType) {
              StageCons(x, t4, f, ByMinDuration);
            }
          }
        }
      }
    }
  }

  /** Every entry matches the empty filter, and the zero values of `status`
      and `minDuration` filter nothing out. */
  lemma ZeroFiltersIgnored(e: Entry, f: Filter)
    requires f.httpMethod.None? && f.url.None? && f.resourceType.None?
    requires f.status.None? || f.status == Some(0)
    requires f.minDuration.None? || f.minDuration == Some(0)
    ensures Matches(e, f)
  {
  }

  // ---------------------------------------------------------------- sorting

  function Time(e: Entry): int {
    e.request.timestamp
  }

  predicate SortedByTime(s: seq<Entry>) {
    forall i, j :: 0 <= i < j < |s| ==> Time(s[i]) <= Time(s[j])
  }

  /** The entries with request time `t`, in order. */
  function WithTime(s: seq<Entry>, t: int): seq<Entry> {
    if |s| == 0 then []
    else if Time(s[0]) == t then [s[0]] + WithTime(s[1..], t)
    else WithTime(s[1..], t)
  }

  /** Inserts `x` before the first element that is not earlier than it, so
      that `x` precedes the entries with its own time. */
  function Insert(x: Entry, s: seq<Entry>): (r: seq<Entry>)
    ensures |r| == |s| + 1
    ensures multiset(r) == multiset(s) + multiset{x}
  {
    if |s| == 0 || Time(x) <= Time(s[0]) then [x] + s
    else
      assert s == [s[0]] + s[1..];
      [s[0]] + Insert(x, s[1..])
  }

  /** `Array.prototype.sort` with comparator `a.timestamp - b.timestamp`,
      which is stable: an insertion sort. */
  function SortByTime(s: seq<Entry>): (r: seq<Entry>)
    ensures |r| == |s|
    ensures multiset(r) == multiset(s)
  {
    if |s| == 0 then []
    else
      assert s == [s[0]] + s[1..];
      Insert(s[0], SortByTime(s[1..]))
  }

  lemma {:induction false} InsertSorted(x: Entry, s: seq<Entry>)
    requires SortedByTime(s)
    ensures SortedByTime(Insert(x, s))
    decreases |s|
  {
    if |s| > 0 && Time(x) > Time(s[0]) {
      InsertSorted(x, s[1..]);
      var r := Insert(x, s[1..]);
      forall k | 0 <= k < |r| ensures Time(s[0]) <= Time(r[k]) {
        assert r[k] in multiset(r);
        assert r[k] in multiset(s[1..]) + multiset{x};
        if r[k] != x {
          assert r[k] in s[1..];
        }
      }
    }
  }

  /** Insertion places `x` before every entry that shares its time. */
  lemma {:induction false} InsertWithTime(x: Entry, s: seq<Entry>, t: int)
    ensures WithTime(Insert(x, s), t) == if Time(x) == t then [x] + WithTime(s, t) else WithTime(s, t)
    decreases |s|
  {
    if |s| == 0 || Time(x) <= Time(s[0]) {
      assert ([x] + s)[1..] == s;
    } else {
      InsertWithTime(x, s[1..], t);
      var r := [s[0]] + Insert(x, s[1..]);
      assert r[1..] == Insert(x, s[1..]);
    }
  }

  /** The sort orders by time, keeps every entry, and is stable: the entries
      sharing one time come out in the order they went in. */
  lemma {:induction false} SortByTimeCorrect(s: seq<Entry>)
    ensures SortedByTime(SortByTime(s))
    ensures forall t :: WithTime(SortByTime(s), t) == WithTime(s, t)
    decreases |s|
  {
    if |s| > 0 {
      SortByTimeCorrect(s[1..]);
      InsertSorted(s[0], SortByTime(s[1..]));
      forall t ensures WithTime(SortByTime(s), t) == WithTime(s, t) {
        InsertWithTime(s[0], SortByTime(s[1..]), t);
      }
    }
  }

  // ------------------------------------------------------------------ limit

  /** `entries.slice(-limit)` when `limit > 0`: the last `limit` entries, or
      all of them when there are fewer; a non-positive limit keeps all. */
  function TakeLast(s: seq<Entry>, limit: int): (r: seq<Entry>)
    ensures limit <= 0 ==> r == s
    ensures limit > 0 ==> |r| == if limit < |s| then limit else |s|
    ensures r == s[|s| - |r|..]
  {
    if limit > 0 && limit < |s| then s[|s| - limit..] else s
  }


  /** A tail of a sorted sequence is sorted and holds only its elements. */
  lemma TakeLastOfSorted(s: seq<Entry>, limit: int)
    requires SortedByTime(s)
    ensures SortedByTime(TakeLast(s, limit))
    ensures forall e :: e in TakeLast(s, limit) ==> e in s
  {
    var r := TakeLast(s, limit);
    forall i, j | 0 <= i < j < |r| ensures Time(r[i]) <= Time(r[j]) {
      assert r[i] == s[|s| - |r| + i];
      assert r[j] == s[|s| - |r| + j];
    }
  }

  /** The sorted matches are exactly the matching entries of the table. */
  lemma SortedMatches(entries: seq<Entry>, f: Filter)
    ensures var sorted := SortByTime(ApplyFilters(entries, f));
      && SortedByTime(sorted)
      && |sorted| == |Select(entries, f)|
      && multiset(sorted) == multiset(Select(entries, f))
      && (forall e :: e in sorted <==> e in entries && Matches(e, f))
  {
    FiltersAreConjunction(entries, f);
    SelectMembership(entries, f);
    var sel := Select(entries, f);
    SortByTimeCorrect(sel);
    var sorted := SortByTime(sel);
    forall e ensures e in sorted <==> e in sel {
      assert e in sorted <==> e in multiset(sorted);
      assert e in sel <==> e in multiset(sel);
    }
  }

  /** The result of `get`: the matching entries, oldest first, then the
      tail. It is exactly the last entries of the stable sort of the
      matches, so requests sharing a time keep their table order. It returns the most recent matches in ascending time order:
      sorted, each a match from the table, as many as `limit` allows, and
      with no positive limit exactly the matching entries. */
  function Query(entries: seq<Entry>, f: Filter, limit: int): (r: seq<Entry>)
    ensures var n := |Select(entries, f)|;
      && SortedByTime(r)
      && (forall e :: e in r ==> e in entries && Matches(e, f))
      && (limit > 0 ==> |r| == if limit < n then limit else n)
      && (limit <= 0 ==> forall e :: e in r <==> e in entries && Matches(e, f))
      && (limit <= 0 ==> multiset(r) == multiset(Select(entries, f)))
    ensures r == SortByTime(Select(entries, f))[|Select(entries, f)| - |r|..]
  {
    FiltersAreConjunction(entries, f);
    SortedMatches(entries, f);
    TakeLastOfSorted(SortByTime(ApplyFilters(entries, f)), limit);
    TakeLast(SortByTime(ApplyFilters(entries, f)), limit)
  }

  /** Every match later than some returned entry is returned too: the limit
      keeps the newest entries, not the first ones. */
  lemma QueryKeepsNewest(entries: seq<Entry>, f: Filter, limit: int)
    ensures var sorted := SortByTime(ApplyFilters(entries, f));
      var r := Query(entries, f, limit);
      forall i :: 0 <= i < |sorted| && i >= |sorted| - |r| ==> sorted[i] in r
  {
    var sorted := SortByTime(ApplyFilters(entries, f));
    var r := Query(entries, f, limit);
    forall i | 0 <= i < |sorted| && i >= |sorted| - |r| ensures sorted[i] in r {
      assert sorted[i] == r[i - (|sorted| - |r|)];
    }
  }
}
