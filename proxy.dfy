/**
  The dispatcher's state: the metrics aggregator, its distribution report,
  and the routing prefix of a proxied request (select a backend, then record
  it) before any network work.
 */
module Proxy {
  import opened Ports
  import opened Counting
  import opened Rotation
  import opened LoadBalancer

  /** A (port, count) pair taken out of the count map, as the report's vector holds them. */
  type Entry = (Port, nat)

  /** One line of the distribution report. */
  datatype ReportLine = ReportLine(port: Port, count: nat, percentage: real)

  /** Share of `count` in `total`, in percent, with the division guarded against a zero total. */
  function Percentage(count: nat, total: nat): (pct: real)
    ensures total == 0 ==> pct == 0.0
  {
    if total > 0 then ((count as real) / (total as real)) * 100.0 else 0.0
  }

  /** A zero total gives 0%; otherwise the percentage times the total is 100 times the count, and a part of the total lies in [0, 100]. */
  lemma PercentageMeaning(count: nat, total: nat)
    ensures total == 0 ==> Percentage(count, total) == 0.0
    ensures total > 0 ==> Percentage(count, total) * (total as real) == (count as real) * 100.0
    ensures count <= total ==> 0.0 <= Percentage(count, total) <= 100.0
  {
  }

  /** Per-backend request counts and their running total. */
  class Metrics {
    var requestCounts: map<Port, nat>
    var totalRequests: nat

    /** The total is the sum of the per-port counts, and only ports with a request are stored. */
    ghost predicate Valid()
      reads this
    {
      && totalRequests == SumValues(requestCounts)
      && forall p :: p in requestCounts ==> requestCounts[p] >= 1
    }

    /** No port counted, total zero. */
    constructor ()
      ensures Valid()
      ensures requestCounts == map[] && totalRequests == 0
    {
      requestCounts := map[];
      totalRequests := 0;
    }

    /** Adds one request to `backendPort` (an unseen port starts at 0) and one to the total. */
    method RecordRequest(backendPort: Port)
      requires Valid()
      modifies this
      ensures Valid()
      ensures requestCounts == old(requestCounts)[backendPort := CountOf(old(requestCounts), backendPort) + 1]
      ensures CountOf(requestCounts, backendPort) == CountOf(old(requestCounts), backendPort) + 1
      ensures forall p :: p != backendPort ==> CountOf(requestCounts, p) == CountOf(old(requestCounts), p)
      ensures totalRequests == old(totalRequests) + 1
    {
      SumValuesUpdate(requestCounts, backendPort, CountOf(requestCounts, backendPort) + 1);
      requestCounts := requestCounts[backendPort := CountOf(requestCounts, backendPort) + 1];
      totalRequests := totalRequests + 1;
    }

    /**
      The distribution report: the total, then one line per recorded port in
      ascending port order, with its count and its share of the total.
     */
    method Report() returns (total: nat, lines: seq<ReportLine>)
      ensures total == totalRequests
      ensures |lines| == |requestCounts|
      ensures Lists(lines, requestCounts)
      ensures Ascending(lines)
      ensures SharesOf(lines, totalRequests)
    {
      total := totalRequests;
      var a := SortedEntries(requestCounts);
      lines := [];
      for i := 0 to a.Length
        invariant |lines| == i
        invariant forall k :: 0 <= k < i ==> lines[k] == LineOf(a[k], totalRequests)
      {
        var (port, count) := a[i];
        lines := lines + [ReportLine(port, count, Percentage(count, totalRequests))];
      }
      SortedEntriesGiveReport(a[..], lines, requestCounts, totalRequests);
    }
  }

  /** The entries of the count map, collected into a vector and sorted by port. */
  method SortedEntries(m: map<Port, nat>) returns (a: array<Entry>)
    ensures fresh(a)
    ensures a.Length == |m|
    ensures EntriesOf(a[..], m) && SortedByPort(a[..])
  {
    var entries := CollectEntries(m);
    a := new Entry[|entries|](i requires 0 <= i < |entries| => entries[i]);
    assert a[..] == entries;
    SortByPort(a);
    EntriesPermuted(entries, a[..], m);
  }

  /** The report line of one entry: its port, its count and that count's share of `total`. */
  function LineOf(e: Entry, total: nat): (line: ReportLine)
    ensures line.port == e.0 && line.count == e.1
    ensures total == 0 ==> line.percentage == 0.0
  {
    ReportLine(e.0, e.1, Percentage(e.1, total))
  }

  /** Lines made one per entry from the sorted entries of `m` list `m` in strictly ascending port order. */
  lemma SortedEntriesGiveReport(s: seq<Entry>, lines: seq<ReportLine>, m: map<Port, nat>, total: nat)
    requires EntriesOf(s, m) && SortedByPort(s)
    requires |lines| == |s|
    requires forall k :: 0 <= k < |s| ==> lines[k] == LineOf(s[k], total)
    ensures Lists(lines, m) && Ascending(lines)
    ensures SharesOf(lines, total)
  {
  }

  /** The lines give every port of `m` with its count, and nothing else. */
  ghost predicate Lists(lines: seq<ReportLine>, m: map<Port, nat>)
  {
    && (forall i :: 0 <= i < |lines| ==> lines[i].port in m && lines[i].count == m[lines[i].port])
    && (forall p :: p in m ==> exists i :: 0 <= i < |lines| && lines[i].port == p)
  }

  /** Strictly ascending ports: sorted, and no port listed twice. */
  predicate Ascending(lines: seq<ReportLine>)
  {
    forall i, j :: 0 <= i < j < |lines| ==> lines[i].port < lines[j].port
  }

  /** Entries agree with `m` and carry no port twice. */
  ghost predicate EntriesOf(s: seq<Entry>, m: map<Port, nat>)
  {
    && (forall i :: 0 <= i < |s| ==> s[i].0 in m && s[i].1 == m[s[i].0])
    && (forall i, j :: 0 <= i < j < |s| ==> s[i].0 != s[j].0)
    && (forall p :: p in m ==> exists i :: 0 <= i < |s| && s[i].0 == p)
  }

  /** Collects the entries of the count map, in the map's own (unspecified) iteration order. */
  method CollectEntries(m: map<Port, nat>) returns (s: seq<Entry>)
    ensures |s| == |m|
    ensures EntriesOf(s, m)
  {
    s := [];
    var rest := m.Keys;
    while rest != {}
      invariant rest <= m.Keys
      invariant |s| + |rest| == |m|
      invariant forall i :: 0 <= i < |s| ==> s[i].0 in m && s[i].0 !in rest && s[i].1 == m[s[i].0]
      invariant forall i, j :: 0 <= i < j < |s| ==> s[i].0 != s[j].0
      invariant forall p :: p in m && p !in rest ==> exists i :: 0 <= i < |s| && s[i].0 == p
      decreases |rest|
    {
      var p :| p in rest;
      ghost var before := s;
      s := s + [(p, m[p])];
      forall q | q in m && q !in rest - {p}
        ensures exists i :: 0 <= i < |s| && s[i].0 == q
      {
        if q == p {
          assert s[|s| - 1].0 == q;
        } else {
          var i :| 0 <= i < |before| && before[i].0 == q;
          assert s[i].0 == q;
        }
      }
      rest := rest - {p};
    }
  }

  /** Entries in ascending (not necessarily strict) port order. */
  predicate SortedByPort(s: seq<Entry>)
  {
    forall i, j :: 0 <= i < j < |s| ==> s[i].0 <= s[j].0
  }

  /** Sorts the entries in place by port (insertion sort). */
  method SortByPort(a: array<Entry>)
    modifies a
    ensures SortedByPort(a[..])
    ensures multiset(a[..]) == multiset(old(a[..]))
  {
    for i := 0 to a.Length
      invariant SortedByPort(a[..i])
      invariant multiset(a[..]) == multiset(old(a[..]))
    {
      InsertAt(a, i);
    }
  }

  /** Moves `a[i]` down into the sorted prefix `a[..i]`, leaving `a[..i + 1]` sorted. */
  method InsertAt(a: array<Entry>, i: nat)
    requires i < a.Length && SortedByPort(a[..i])
    modifies a
    ensures SortedByPort(a[..i + 1])
    ensures a[i + 1..] == old(a[i + 1..])
    ensures multiset(a[..]) == multiset(old(a[..]))
  {
    var j := i;
    while j > 0 && a[j - 1].0 > a[j].0
      invariant 0 <= j <= i
      invariant forall k, l :: 0 <= k < l <= i && k != j && l != j ==> a[k].0 <= a[l].0
      invariant forall l :: j < l <= i ==> a[j].0 <= a[l].0
      invariant a[i + 1..] == old(a[i + 1..])
      invariant multiset(a[..]) == multiset(old(a[..]))
    {
      SwapDown(a, j);
      j := j - 1;
    }
  }

  /** Exchanges `a[j - 1]` and `a[j]`. */
  method SwapDown(a: array<Entry>, j: nat)
    requires 0 < j < a.Length
    modifies a
    ensures a[j - 1] == old(a[j]) && a[j] == old(a[j - 1])
    ensures forall k :: 0 <= k < a.Length && k != j - 1 && k != j ==> a[k] == old(a[k])
    ensures multiset(a[..]) == multiset(old(a[..]))
  {
    a[j - 1], a[j] := a[j], a[j - 1];
  }

  /** Two equal elements at two positions make an element occur at least twice. */
  lemma CountTwo(t: seq<Entry>, i: nat, j: nat)
    requires i < j < |t|
    ensures t[i] == t[j] ==> multiset(t)[t[i]] >= 2
  {
    assert t == t[..j] + t[j..];
    assert t[i] in t[..j];
    assert t[j..][0] == t[j];
  }

  /** Entries with distinct ports occur once each. */
  lemma {:induction false} CountOne(s: seq<Entry>, x: Entry)
    requires forall i, j :: 0 <= i < j < |s| ==> s[i].0 != s[j].0
    ensures multiset(s)[x] <= 1
  {
    if s != [] {
      assert s == [s[0]] + s[1..];
      CountOne(s[1..], x);
      if s[0] == x {
        assert x !in s[1..];
      }
    }
  }

  /** A permutation of the collected entries is still a list of the map's entries without repeated ports. */
  lemma EntriesPermuted(s: seq<Entry>, t: seq<Entry>, m: map<Port, nat>)
    requires EntriesOf(s, m)
    requires multiset(s) == multiset(t)
    ensures EntriesOf(t, m)
  {
    forall k | 0 <= k < |t|
      ensures t[k].0 in m && t[k].1 == m[t[k].0]
    {
      assert t[k] in multiset(s);
    }
    forall i, j | 0 <= i < j < |t|
      ensures t[i].0 != t[j].0
    {
      CountTwo(t, i, j);
      CountOne(s, t[i]);
    }
    forall p | p in m
      ensures exists k :: 0 <= k < |t| && t[k].0 == p
    {
      var i :| 0 <= i < |s| && s[i].0 == p;
      assert s[i] in multiset(t);
      var k :| 0 <= k < |t| && t[k] == s[i];
    }
  }

  /** Sum of the counts on the report lines. */
  function SumCounts(lines: seq<ReportLine>): nat
  {
    if lines == [] then 0 else lines[0].count + SumCounts(lines[1..])
  }

  /** Sum of the percentages on the report lines. */
  function SumPercentages(lines: seq<ReportLine>): real
  {
    if lines == [] then 0.0 else lines[0].percentage + SumPercentages(lines[1..])
  }

  /** Lines that list `m` exactly, each port once, add up to the sum of `m`. */
  lemma {:induction false} ListedSum(lines: seq<ReportLine>, m: map<Port, nat>)
    requires Lists(lines, m) && Ascending(lines)
    ensures SumCounts(lines) == SumValues(m)
  {
    if lines == [] {
      assert forall p :: p !in m;
      assert m == map[];
    } else {
      var p0, rest, m' := lines[0].port, lines[1..], m - {lines[0].port};
      forall p | p in m'
        ensures exists i :: 0 <= i < |rest| && rest[i].port == p
      {
        var i :| 0 <= i < |lines| && lines[i].port == p;
        assert rest[i - 1].port == p;
      }
      assert forall i :: 0 <= i < |rest| ==> rest[i].port == lines[i + 1].port;
      ListedSum(rest, m');
      SumValuesRemove(m, p0);
    }
  }

  /** Every line carries its count's percentage of `total`. */
  predicate SharesOf(lines: seq<ReportLine>, total: nat)
  {
    forall i :: 0 <= i < |lines| ==> lines[i].percentage == Percentage(lines[i].count, total)
  }

  /** Each line's percentage times the total is 100 times its count, so the same holds of the sums. */
  lemma {:induction false} ScaledSum(lines: seq<ReportLine>, total: nat)
    requires total > 0 && SharesOf(lines, total)
    ensures SumPercentages(lines) * (total as real) == 100.0 * (SumCounts(lines) as real)
  {
    if lines != [] {
      assert SharesOf(lines[1..], total) by {
        assert forall i :: 0 <= i < |lines| - 1 ==> lines[1..][i] == lines[i + 1];
      }
      ScaledSum(lines[1..], total);
      PercentageMeaning(lines[0].count, total);
      var t, c, pct := total as real, lines[0].count as real, lines[0].percentage;
      var restPct, restCount := SumPercentages(lines[1..]), SumCounts(lines[1..]) as real;
      assert (pct + restPct) * t == pct * t + restPct * t;
      assert 100.0 * (c + restCount) == 100.0 * c + 100.0 * restCount;
    }
  }

  /** When something was recorded, the report's percentages add up to 100. */
  lemma PercentagesSumTo100(lines: seq<ReportLine>, m: map<Port, nat>, total: nat)
    requires total == SumValues(m) && total > 0
    requires Lists(lines, m) && Ascending(lines) && SharesOf(lines, total)
    ensures SumPercentages(lines) == 100.0
  {
    ListedSum(lines, m);
    SharesOfWholeSum(lines, total);
  }

  /** Lines whose counts add up to a positive total have percentages adding up to 100. */
  lemma SharesOfWholeSum(lines: seq<ReportLine>, total: nat)
    requires total > 0 && SharesOf(lines, total) && SumCounts(lines) == total
    ensures SumPercentages(lines) == 100.0
  {
    ScaledSum(lines, total);
    var pcts, t, c := SumPercentages(lines), total as real, SumCounts(lines) as real;
    assert pcts * t == 100.0 * c;
    assert c == t;
    RealCancel(pcts, 100.0, t);
  }

  lemma RealCancel(x: real, y: real, t: real)
    requires t > 0.0 && x * t == y * t
    ensures x == y
  {
  }

  /** A map whose stored counts are all positive and sum to 0 is empty. */
  lemma ZeroTotalMeansEmpty(m: map<Port, nat>)
    requires forall p :: p in m ==> m[p] >= 1
    requires SumValues(m) == 0
    ensures m == map[]
  {
  }

  /** How one proxied request ends. */
  datatype Outcome =
    | Forwarded(port: Port)      // the upstream answered and its response is relayed
    | ForwardFailed(port: Port)  // connect, handshake or send failed: the request errors out
    | Panicked                   // select_backend found no backend and the request handler panicked

  /** The metrics are the tally of exactly the ports the balancer has handed out. */
  ghost predicate Consistent(lb: RoundRobinBalancer, metrics: Metrics)
    reads lb, metrics
  {
    && lb.Valid() && metrics.Valid()
    && metrics.requestCounts == Tally(lb.picks)
  }

  /** The metrics total is the number of selections made so far. */
  lemma TotalIsSelections(lb: RoundRobinBalancer, metrics: Metrics)
    requires Consistent(lb, metrics)
    ensures metrics.totalRequests == |lb.picks|
  {
    TallySum(lb.picks);
  }

  /**
    The routing prefix of a proxied request: select a backend, then record it,
    before any network work. Whether the forwarding that follows succeeds is
    given as `upstreamOk`; it does not affect what was recorded.
   */
  method HandleProxyRequest(lb: RoundRobinBalancer, metrics: Metrics, upstreamOk: bool) returns (outcome: Outcome)
    requires Consistent(lb, metrics)
    modifies lb, metrics
    ensures Consistent(lb, metrics)
    ensures old(lb.queue) == [] ==>
      && outcome == Panicked
      && lb.queue == [] && lb.picks == old(lb.picks)
      && metrics.requestCounts == old(metrics.requestCounts)
      && metrics.totalRequests == old(metrics.totalRequests)
    ensures old(lb.queue) != [] ==>
      && outcome == (if upstreamOk then Forwarded(old(lb.queue)[0]) else ForwardFailed(old(lb.queue)[0]))
      && lb.queue == old(lb.queue)[1..] + [old(lb.queue)[0]]
      && lb.picks == old(lb.picks) + [old(lb.queue)[0]]
      && metrics.requestCounts == old(metrics.requestCounts)[old(lb.queue)[0] := CountOf(old(metrics.requestCounts), old(lb.queue)[0]) + 1]
      && metrics.totalRequests == old(metrics.totalRequests) + 1
  {
    var choice := lb.SelectBackend();
    if choice.NoBackendsAvailable? {
      return Panicked;
    }
    var backendPort := choice.port;
    metrics.RecordRequest(backendPort);
    var picks := lb.picks;
    assert picks[..|picks| - 1] == old(lb.picks);
    outcome := if upstreamOk then Forwarded(backendPort) else ForwardFailed(backendPort);
  }

  /**
    Requests served one after another from a fresh balancer and fresh metrics:
    `upstream[i]` says whether request i's forwarding succeeds. With no
    backends every request panics on its own and nothing is recorded.
   */
  method ServeSequentially(backends: seq<Port>, upstream: seq<bool>) returns (counts: map<Port, nat>, total: nat)
    ensures backends == [] ==> counts == map[] && total == 0
    ensures backends != [] ==> counts == Tally(Picks(backends, |upstream|)) && total == |upstream|
  {
    var lb := new RoundRobinBalancer(backends);
    var metrics := new Metrics();
    for i := 0 to |upstream|
      invariant Consistent(lb, metrics)
      invariant lb.backends == backends
      invariant backends != [] ==> |lb.picks| == i
    {
      var _ := HandleProxyRequest(lb, metrics, upstream[i]);
    }
    TotalIsSelections(lb, metrics);
    counts, total := metrics.requestCounts, metrics.totalRequests;
  }

  /** With distinct backends, k requests per backend under round-robin record exactly k for each backend and nothing else. */
  lemma FairDistribution(backends: seq<Port>, k: nat)
    requires backends != [] && Distinct(backends)
    ensures forall p :: p in backends ==> CountOf(Tally(Picks(backends, k * |backends|)), p) == k
    ensures forall p :: p in Tally(Picks(backends, k * |backends|)) ==> p in backends
  {
    var t := Tally(Picks(backends, k * |backends|));
    forall p | p in backends
      ensures CountOf(t, p) == k
    {
      FairRounds(backends, k, p);
    }
    var picks := Picks(backends, k * |backends|);
    forall p | p in t
      ensures p in backends
    {
      assert p in multiset(picks);
      var i :| 0 <= i < |picks| && picks[i] == p;
    }
  }

  /** 300 requests against backends 3001, 3002 and 3003 give exactly 100 to each. */
  lemma ThreeHundredRequests()
    ensures var t := Tally(Picks([3001, 3002, 3003], 300));
      CountOf(t, 3001) == 100 && CountOf(t, 3002) == 100 && CountOf(t, 3003) == 100
  {
    FairDistribution([3001, 3002, 3003], 100);
  }
}
