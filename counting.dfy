/**
  Per-port request counts as values: the sum of a count map, the count the
  map gives a port (absent meaning 0), and the count map that recording a
  history of selections one by one produces.
 */
module Counting {
  import opened Ports

  /** The count a map gives a port, reading an absent port as 0. */
  function CountOf(m: map<Port, nat>, p: Port): (c: nat)
    ensures p !in m ==> c == 0
    ensures p in m ==> c == m[p]
  {
    if p in m then m[p] else 0
  }

  /** The sum of all counts stored in a map. */
  ghost function SumValues(m: map<Port, nat>): nat
    decreases |m|
  {
    if m == map[] then 0
    else
      var p :| p in m;
      assert |m - {p}| < |m| by {
        assert m.Keys - {p} < m.Keys;
      }
      m[p] + SumValues(m - {p})
  }

  /** The sum does not depend on which port is taken out first. */
  lemma {:induction false} SumValuesRemove(m: map<Port, nat>, p: Port)
    requires p in m
    ensures SumValues(m) == m[p] + SumValues(m - {p})
    decreases |m|
  {
    var q :| q in m && SumValues(m) == m[q] + SumValues(m - {q});
    if q != p {
      assert |m - {q}| < |m| by {
        assert m.Keys - {q} < m.Keys;
      }
      SumValuesRemove(m - {q}, p);
      assert |m - {p}| < |m| by {
        assert m.Keys - {p} < m.Keys;
      }
      SumValuesRemove(m - {p}, q);
      assert (m - {q}) - {p} == (m - {p}) - {q};
    }
  }

  /** Storing v for port p changes the sum by v minus the count p had. */
  lemma SumValuesUpdate(m: map<Port, nat>, p: Port, v: nat)
    ensures SumValues(m[p := v]) == SumValues(m) - CountOf(m, p) + v
  {
    SumValuesRemove(m[p := v], p);
    assert m[p := v] - {p} == m - {p};
    if p in m {
      SumValuesRemove(m, p);
    } else {
      assert m - {p} == m;
    }
  }

  /** The count map that recording every port of `s`, in order, produces from an empty map. */
  function Tally(s: seq<Port>): (t: map<Port, nat>)
    ensures forall p :: CountOf(t, p) == multiset(s)[p]
    ensures forall p :: p in t ==> t[p] >= 1
  {
    if s == [] then map[]
    else
      var init, last := s[..|s| - 1], s[|s| - 1];
      assert s == init + [last];
      var t := Tally(init);
      t[last := CountOf(t, last) + 1]
  }

  /** The counts of a tally add up to the length of the history. */
  lemma {:induction false} TallySum(s: seq<Port>)
    ensures SumValues(Tally(s)) == |s|
  {
    if s != [] {
      var init, last := s[..|s| - 1], s[|s| - 1];
      TallySum(init);
      SumValuesUpdate(Tally(init), last, CountOf(Tally(init), last) + 1);
    }
  }
}
