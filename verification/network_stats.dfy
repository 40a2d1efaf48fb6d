/** `getNetworkStats`: an aggregate over every entry of the table. */
module NetworkStats {
  import opened Wrappers
  import opened NetworkModel

  datatype Stats = Stats(
    total: nat,
    completed: nat,
    pending: nat,
    methods: map<string, nat>,
    resourceTypes: map<string, nat>,
    statusCodes: map<int, nat>,
    averageDuration: int)

  /** Completed means a response is present and the duration is truthy
      (present and non-zero). */
  predicate Completed(e: Entry) {
    e.response.Some? && e.duration.Some? && e.duration.value != 0
  }

  function CompletedEntries(s: seq<Entry>): (r: seq<Entry>)
    ensures |r| <= |s|
    ensures forall e :: e in r <==> e in s && Completed(e)
    ensures forall e :: multiset(r)[e] == if Completed(e) then multiset(s)[e] else 0
  {
    if |s| == 0 then []
    else
      assert s == [s[0]] + s[1..];
      if Completed(s[0]) then [s[0]] + CompletedEntries(s[1..])
      else CompletedEntries(s[1..])
  }

  /** `completed.reduce((sum, e) => sum + (e.duration || 0), 0)` */
  function DurationSum(s: seq<Entry>): int {
    if |s| == 0 then 0 else (if s[0].duration.Some? then s[0].duration.value else 0) + DurationSum(s[1..])
  }

  /** `Math.round(sum / n)`: the nearest integer, halves rounded up. With a
      positive divisor Dafny's division is floor division, so this is
      `floor(sum / n + 1/2)` for negative sums as well. */
  function RoundedMean(sum: int, n: nat): (r: int)
    requires n > 0
    ensures n * (2 * r - 1) <= 2 * sum < n * (2 * r + 1)
  {
    var q := (2 * sum + n) / (2 * n);
    assert 2 * n * q <= 2 * sum + n < 2 * n * q + 2 * n;
    q
  }

  /** Counting occurrences the way `forEach` does: one increment per element,
      in order, starting from a missing key as 0. */
  function Increment<K>(m: map<K, nat>, k: K): map<K, nat> {
    m[k := (if k in m then m[k] else 0) + 1]
  }

  function Tally<K(!new)>(xs: seq<K>): (m: map<K, nat>)
    ensures forall k :: k in m <==> k in xs
    ensures forall k :: k in m ==> m[k] == multiset(xs)[k]
    decreases |xs|
  {
    if |xs| == 0 then map[]
    else
      var init := xs[..|xs| - 1];
      assert xs == init + [xs[|xs| - 1]];
      Increment(Tally(init), xs[|xs| - 1])
  }

  /** Some key of a non-empty map. */
  ghost function Pick<K>(m: map<K, nat>): (k: K)
    requires |m| > 0
    ensures k in m
  {
    var k :| k in m; k
  }

  /** The sum of the values of a map. */
  ghost function MapTotal<K>(m: map<K, nat>): nat
    decreases |m|
  {
    if |m| == 0 then 0 else m[Pick(m)] + MapTotal(m - {Pick(m)})
  }

  lemma RemoveOne<K>(m: map<K, nat>, k: K)
    requires k in m
    ensures |m - {k}| == |m| - 1
  {
    assert (m - {k}).Keys == m.Keys - {k};
  }

  /** The sum does not depend on which key is taken first. */
  lemma {:induction false} MapTotalRemove<K>(m: map<K, nat>, k: K)
    requires k in m
    ensures MapTotal(m) == m[k] + MapTotal(m - {k})
    decreases |m|
  {
    var j := Pick(m);
    if j != k {
      var mj, mk := m - {j}, m - {k};
      RemoveOne(m, j);
      RemoveOne(m, k);
      MapTotalRemove(mj, k);
      MapTotalRemove(mk, j);
      assert mj - {k} == mk - {j};
    }
  }

  lemma MapTotalIncrement<K>(m: map<K, nat>, k: K)
    ensures MapTotal(Increment(m, k)) == MapTotal(m) + 1
  {
    var m' := Increment(m, k);
    MapTotalRemove(m', k);
    assert m' - {k} == m - {k};
    if k in m {
      MapTotalRemove(m, k);
    } else {
      assert m - {k} == m;
    }
  }

  /** The counts of a tally add up to the number of elements counted. */
  lemma {:induction false} TallyTotal<K(!new)>(xs: seq<K>)
    ensures MapTotal(Tally(xs)) == |xs|
    decreases |xs|
  {
    if |xs| > 0 {
      var init := xs[..|xs| - 1];
      TallyTotal(init);
      MapTotalIncrement(Tally(init), xs[|xs| - 1]);
    }
  }

  function Methods(s: seq<Entry>): (r: seq<string>)
    ensures |r| == |s|
    ensures forall i :: 0 <= i < |s| ==> r[i] == s[i].request.httpMethod
  {
    if |s| == 0 then [] else [s[0].request.httpMethod] + Methods(s[1..])
  }

  function ResourceTypes(s: seq<Entry>): (r: seq<string>)
    ensures |r| == |s|
    ensures forall i :: 0 <= i < |s| ==> r[i] == s[i].request.resourceType
  {
    if |s| == 0 then [] else [s[0].request.resourceType] + ResourceTypes(s[1..])
  }

  /** Status codes of the entries that have a response, real or synthetic. */
  function StatusCodes(s: seq<Entry>): seq<int> {
    if |s| == 0 then []
    else if s[0].response.Some? then [s[0].response.value.status] + StatusCodes(s[1..])
    else StatusCodes(s[1..])
  }

  function Responded(s: seq<Entry>): nat {
    if |s| == 0 then 0 else (if s[0].response.Some? then 1 else 0) + Responded(s[1..])
  }

  lemma {:induction false} StatusCodesCount(s: seq<Entry>)
    ensures |StatusCodes(s)| == Responded(s)
    ensures forall c :: c in StatusCodes(s) <==> exists i :: 0 <= i < |s| && s[i].response.Some? && s[i].response.value.status == c
    decreases |s|
  {
    if |s| > 0 {
      StatusCodesCount(s[1..]);
      forall c | c in StatusCodes(s[1..]) ensures exists i :: 0 <= i < |s| && s[i].response.Some? && s[i].response.value.status == c {
        var i :| 0 <= i < |s[1..]| && s[1..][i].response.Some? && s[1..][i].response.value.status == c;
        assert s[i + 1] == s[1..][i];
      }
      forall c, i | 0 <= i < |s| && s[i].response.Some? && s[i].response.value.status == c ensures c in StatusCodes(s) {
        if i > 0 {
          assert s[1..][i - 1] == s[i];
        }
      }
    }
  }

  lemma MethodsPresent(s: seq<Entry>)
    ensures forall m :: m in Methods(s) <==> exists i :: 0 <= i < |s| && s[i].request.httpMethod == m
  {
    var methods := Methods(s);
    forall m | m in methods ensures exists i :: 0 <= i < |s| && s[i].request.httpMethod == m {
      var i :| 0 <= i < |methods| && methods[i] == m;
    }
  }

  lemma ResourceTypesPresent(s: seq<Entry>)
    ensures forall t :: t in ResourceTypes(s) <==> exists i :: 0 <= i < |s| && s[i].request.resourceType == t
  {
    var types := ResourceTypes(s);
    forall t | t in types ensures exists i :: 0 <= i < |s| && s[i].request.resourceType == t {
      var i :| 0 <= i < |types| && types[i] == t;
    }
  }

  /** The mean duration of the completed entries, rounded; 0 with none. */
  function AverageDuration(entries: seq<Entry>): (a: int)
    ensures |CompletedEntries(entries)| == 0 ==> a == 0
    ensures |CompletedEntries(entries)| > 0 ==>
      var n, sum := |CompletedEntries(entries)|, DurationSum(CompletedEntries(entries));
      n * (2 * a - 1) <= 2 * sum < n * (2 * a + 1)
  {
    var done := CompletedEntries(entries);
    if |done| > 0 then RoundedMean(DurationSum(done), |done|) else 0
  }

  /** The statistics over the whole table. */
  function NetworkStats(s: Inspector): (r: Stats)
    ensures r.total == |s.entries|
    ensures r.total == r.completed + r.pending
    ensures r.completed == |CompletedEntries(s.entries)|
    ensures r.averageDuration == AverageDuration(s.entries)
    ensures r.methods == Tally(Methods(s.entries)) && r.resourceTypes == Tally(ResourceTypes(s.entries))
    ensures r.statusCodes == Tally(StatusCodes(s.entries))
  {
    var n := |CompletedEntries(s.entries)|;
    Stats(|s.entries|, n, |s.entries| - n, Tally(Methods(s.entries)), Tally(ResourceTypes(s.entries)), Tally(StatusCodes(s.entries)), AverageDuration(s.entries))
  }

  /** The method and resource-type keys are exactly those that occur in the
      table. */
  lemma StatsKeysPresent(s: Inspector)
    ensures var r := NetworkStats(s);
      && (forall m :: m in r.methods <==> exists i :: 0 <= i < |s.entries| && s.entries[i].request.httpMethod == m)
      && (forall t :: t in r.resourceTypes <==> exists i :: 0 <= i < |s.entries| && s.entries[i].request.resourceType == t)
  {
    MethodsPresent(s.entries);
    ResourceTypesPresent(s.entries);
  }

  /** The grouped counts: per method and per resource type they add up to the
      total, per status code to the number of entries with a response. */
  lemma StatsCountsAddUp(s: Inspector)
    ensures var r := NetworkStats(s);
      && MapTotal(r.methods) == r.total
      && MapTotal(r.resourceTypes) == r.total
      && MapTotal(r.statusCodes) == Responded(s.entries)
  {
    TallyTotal(Methods(s.entries));
    TallyTotal(ResourceTypes(s.entries));
    TallyTotal(StatusCodes(s.entries));
    StatusCodesCount(s.entries);
  }

  /** In a valid state, "completed" is "has a response with a non-zero
      duration", so a request that failed instantly counts as pending. */
  lemma CompletedInValidState(s: Inspector, e: Entry)
    requires Valid(s) && e in s.entries
    ensures Completed(e) <==> e.response.Some? && e.duration != Some(0)
  {
  }
}
