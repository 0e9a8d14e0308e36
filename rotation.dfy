/**
  The round-robin policy as values: what the queue of a `RoundRobinBalancer`
  looks like after k selections, and which ports those k selections returned.
  The class in module LoadBalancer is proved to follow these functions.
 */
module Rotation {
  import opened Ports

  /** One selection step on the queue: the front port moves to the back. */
  function Rotate(q: seq<Port>): (r: seq<Port>)
    requires q != []
    ensures |r| == |q|
  {
    q[1..] + [q[0]]
  }

  /** The queue after `k` selections, starting from queue `q`. */
  function Rotations(q: seq<Port>, k: nat): (r: seq<Port>)
    ensures |r| == |q|
  {
    if k == 0 || q == [] then q else Rotate(Rotations(q, k - 1))
  }

  /** Selections never add, drop or duplicate a backend: the queue stays a permutation of its start. */
  lemma {:induction false} RotationsPermute(q: seq<Port>, k: nat)
    ensures multiset(Rotations(q, k)) == multiset(q)
  {
    if k > 0 && q != [] {
      RotationsPermute(q, k - 1);
      var r := Rotations(q, k - 1);
      assert r == [r[0]] + r[1..];
    }
  }

  /** The ports returned by the first `k` selections, starting from queue `q`. */
  function Picks(q: seq<Port>, k: nat): (r: seq<Port>)
    requires q != []
    ensures |r| == k
    ensures forall i :: 0 <= i < k ==> r[i] in q
  {
    if k == 0 then []
    else
      var front := Rotations(q, k - 1)[0];
      RotationsPermute(q, k - 1);
      assert front in multiset(Rotations(q, k - 1));
      Picks(q, k - 1) + [front]
  }

  /** `r` is `q` cut at some point and its two halves swapped. */
  ghost predicate IsRotationOf(r: seq<Port>, q: seq<Port>)
  {
    exists j :: 0 <= j <= |q| && r == q[j..] + q[..j]
  }

  /** k selections made one after another equal a selections followed by b more. */
  lemma {:induction false} RotationsAdd(q: seq<Port>, a: nat, b: nat)
    ensures Rotations(q, a + b) == Rotations(Rotations(q, a), b)
  {
    if b > 0 && q != [] {
      RotationsAdd(q, a, b - 1);
    }
  }

  /** Within the first round, the queue after k selections is q cut at k. */
  lemma {:induction false} RotationsFirstRound(q: seq<Port>, k: nat)
    requires k <= |q|
    ensures Rotations(q, k) == q[k..] + q[..k]
  {
    if k > 0 {
      RotationsFirstRound(q, k - 1);
      var r := q[k - 1..] + q[..k - 1];
      assert r[0] == q[k - 1];
      assert r[1..] == q[k..] + q[..k - 1];
      assert q[..k] == q[..k - 1] + [q[k - 1]];
    }
  }

  /** A full round of |q| selections brings the queue back to its start. */
  lemma FullRound(q: seq<Port>)
    ensures Rotations(q, |q|) == q
  {
    RotationsFirstRound(q, |q|);
    assert q[|q|..] + q[..|q|] == q;
  }

  /** The queue after k selections is the initial queue cut at k mod |q|. */
  lemma {:induction false} RotationsMod(q: seq<Port>, k: nat)
    requires q != []
    ensures Rotations(q, k) == q[k % |q|..] + q[..k % |q|]
    ensures IsRotationOf(Rotations(q, k), q)
    decreases k
  {
    var n := |q|;
    if k < n {
      RotationsFirstRound(q, k);
      ModUnique(k, n, 0, k);
    } else {
      RotationsAdd(q, n, k - n);
      FullRound(q);
      assert Rotations(q, k) == Rotations(q, k - n);
      RotationsMod(q, k - n);
      ModMinus(k, n);
    }
  }

  /** a + b selections return the first a picks followed by b picks from the queue left after a. */
  lemma {:induction false} PicksAdd(q: seq<Port>, a: nat, b: nat)
    requires q != []
    ensures Rotations(q, a) != []
    ensures Picks(q, a + b) == Picks(q, a) + Picks(Rotations(q, a), b)
  {
    if b > 0 {
      PicksAdd(q, a, b - 1);
      RotationsAdd(q, a, b - 1);
    }
  }

  /** Within the first round, the k picks are the first k configured backends. */
  lemma {:induction false} PicksFirstRound(q: seq<Port>, k: nat)
    requires q != [] && k <= |q|
    ensures Picks(q, k) == q[..k]
  {
    if k > 0 {
      PicksFirstRound(q, k - 1);
      RotationsFirstRound(q, k - 1);
      assert q[..k] == q[..k - 1] + [q[k - 1]];
    }
  }

  /** |q| consecutive selections return every backend once, in configured order. */
  lemma OneRoundInOrder(q: seq<Port>)
    requires q != []
    ensures Picks(q, |q|) == q
    ensures Rotations(q, |q|) == q
  {
    PicksFirstRound(q, |q|);
    FullRound(q);
  }

  /** Selection wraps around: |q| + k selections are one full round followed by the first k picks again. */
  lemma WrapAround(q: seq<Port>, k: nat)
    requires q != []
    ensures Picks(q, |q| + k) == q + Picks(q, k)
  {
    PicksAdd(q, |q|, k);
    OneRoundInOrder(q);
  }

  /** Pick number i (from 0) is the configured backend at position i mod |q|. */
  lemma {:induction false} PickAt(q: seq<Port>, k: nat, i: nat)
    requires q != [] && i < k
    ensures Picks(q, k)[i] == q[i % |q|]
    decreases k
  {
    var n := |q|;
    if k <= n {
      PicksFirstRound(q, k);
      ModUnique(i, n, 0, i);
    } else {
      WrapAround(q, k - n);
      assert Picks(q, k) == q + Picks(q, k - n);
      if i >= n {
        PickAt(q, k - n, i - n);
        ModMinus(i, n);
      } else {
        ModUnique(i, n, 0, i);
      }
    }
  }

  /** Any |q| consecutive selections, from selection a on, return the queue as it stood before selection a, in order. */
  lemma WindowInOrder(q: seq<Port>, a: nat)
    requires q != []
    ensures Picks(q, a + |q|)[a..] == q[a % |q|..] + q[..a % |q|]
  {
    PicksAdd(q, a, |q|);
    RotationsMod(q, a);
    OneRoundInOrder(Rotations(q, a));
  }

  /** `q` repeated `m` times. */
  function Repeat(q: seq<Port>, m: nat): (r: seq<Port>)
    ensures |r| == m * |q|
  {
    if m == 0 then [] else Repeat(q, m - 1) + q
  }

  /** m * |q| selections return the configured order m times over, and leave the queue as it started. */
  lemma {:induction false} RoundsRepeat(q: seq<Port>, m: nat)
    requires q != []
    ensures Picks(q, m * |q|) == Repeat(q, m)
    ensures Rotations(q, m * |q|) == q
  {
    if m > 0 {
      var n, before := |q|, (m - 1) * |q|;
      RoundsRepeat(q, m - 1);
      MulStep(m, n);
      assert m * n == before + n;
      PicksAdd(q, before, n);
      RotationsAdd(q, before, n);
      OneRoundInOrder(q);
      assert Picks(q, m * n) == Repeat(q, m - 1) + q;
    }
  }

  /** Every port occurs m times as often in `Repeat(q, m)` as in `q`. */
  lemma {:induction false} RepeatCount(q: seq<Port>, m: nat, p: Port)
    ensures multiset(Repeat(q, m))[p] == m * multiset(q)[p]
  {
    if m > 0 {
      RepeatCount(q, m - 1, p);
      assert multiset(Repeat(q, m)) == multiset(Repeat(q, m - 1)) + multiset(q);
      assert (m - 1) * multiset(q)[p] + multiset(q)[p] == m * multiset(q)[p];
    }
  }

  /** In a list without repeats, each element occurs exactly once. */
  lemma {:induction false} DistinctCountOne(q: seq<Port>, p: Port)
    requires Distinct(q) && p in q
    ensures multiset(q)[p] == 1
  {
    assert q == [q[0]] + q[1..];
    if q[0] == p {
      assert p !in q[1..];
    } else {
      DistinctCountOne(q[1..], p);
    }
  }

  /** With distinct backends, m * |q| selections return every backend exactly m times. */
  lemma FairRounds(q: seq<Port>, m: nat, p: Port)
    requires Distinct(q) && p in q
    ensures multiset(Picks(q, m * |q|))[p] == m
  {
    RoundsRepeat(q, m);
    RepeatCount(q, m, p);
    DistinctCountOne(q, p);
  }

  // Arithmetic facts about Euclidean division used above.

  lemma ModUnique(x: int, n: int, d: int, r: int)
    requires n > 0 && 0 <= r < n && x == d * n + r
    ensures x % n == r
  {
    var d', r' := x / n, x % n;
    assert (d - d') * n == r' - r;
    MulBounds(d - d', n);
  }

  lemma MulBounds(e: int, n: int)
    requires n > 0
    ensures e >= 1 ==> e * n >= n
    ensures e <= -1 ==> e * n <= -n
  {
  }

  lemma ModMinus(k: int, n: int)
    requires n > 0 && k >= n
    ensures (k - n) % n == k % n
  {
    ModUnique(k - n, n, k / n - 1, k % n);
  }

  lemma MulStep(m: nat, n: nat)
    requires m > 0
    ensures m * n == (m - 1) * n + n
  {
  }
}
