/**
 * Random selection: `Math.random()` as data, the index draws the bot derives
 * from it (`selectRandom`, the `| 0` truncations) and the Fisher–Yates
 * `shuffle`, which permutes a copy of its input in place.
 */
module RandomSelection {
  import opened Basics

  /** A fraction num/den; `Random` below keeps only those in [0, 1). */
  datatype Fraction = Fraction(num: nat, den: nat)

  /** One value of `Math.random()`: an exact rational in [0, 1). */
  type Random = f: Fraction | f.num < f.den witness Fraction(0, 1)

  /** The draws one handler makes: its k-th call of `Math.random()` yields `rand(k)`. */
  type Oracle = nat -> Random

  /**
   * The index `floor(u * n)` (written `Math.floor(Math.random() * n)` or
   * `(Math.random() * n) | 0` in the bot): always a valid index of an
   * n-element array.
   */
  function Pick(u: Random, n: nat): (k: nat)
    requires n > 0
    ensures k < n
  {
    assert u.num * n < u.den * n by {
      MulStrict(u.num, u.den, n);
    }
    DivBelow(u.num * n, u.den, n);
    (u.num * n) / u.den
  }

  lemma MulStrict(a: nat, b: nat, n: nat)
    requires a < b && n > 0
    ensures a * n < b * n
  {
  }

  lemma DivBelow(x: nat, d: nat, n: nat)
    requires d > 0 && x < d * n
    ensures x / d < n
  {
  }

  /** `Pick` is the floor: it yields k exactly when k/n <= u < (k+1)/n. */
  lemma PickIsFloor(u: Random, n: nat, k: nat)
    requires n > 0
    ensures Pick(u, n) == k <==> k * u.den <= u.num * n < (k + 1) * u.den
  {
    var q := (u.num * n) / u.den;
    var r := (u.num * n) % u.den;
    assert u.num * n == q * u.den + r && 0 <= r < u.den;
    if k < q {
      assert (k + 1) * u.den <= q * u.den;
    } else if k > q {
      assert (q + 1) * u.den <= k * u.den;
    }
  }

  /** Every index can be drawn: u = k/n picks k. */
  lemma PickReaches(k: nat, n: nat)
    requires k < n
    ensures Pick(Fraction(k, n), n) == k
  {
    PickIsFloor(Fraction(k, n), n, k);
  }

  /** `selectRandom(arr)`: the element at the drawn index. */
  function SelectRandom<T>(a: seq<T>, u: Random): (x: T)
    requires |a| > 0
    ensures x in a
  {
    a[Pick(u, |a|)]
  }

  /** Every element of the array can be the one selected. */
  lemma SelectRandomReaches<T>(a: seq<T>, i: nat)
    requires i < |a|
    ensures SelectRandom(a, Fraction(i, |a|)) == a[i]
  {
    PickReaches(i, |a|);
  }

  /** The sequence with the elements at i and j exchanged. */
  function Swap<T>(s: seq<T>, i: nat, j: nat): (r: seq<T>)
    requires i < |s| && j < |s|
    ensures |r| == |s|
  {
    s[i := s[j]][j := s[i]]
  }

  lemma SwapPermutes<T>(s: seq<T>, i: nat, j: nat)
    requires i < |s| && j < |s|
    ensures multiset(Swap(s, i, j)) == multiset(s)
  {
    var t := s[i := s[j]];
    assert multiset(t) == multiset(s) - multiset{s[i]} + multiset{s[j]};
    assert multiset(t[j := s[i]]) == multiset(t) - multiset{t[j]} + multiset{s[i]};
  }

  /**
   * The `shuffle` loop from position i down to 1: step i draws j = Pick(u, i + 1)
   * with u the k-th random value and exchanges positions i and j.
   */
  function ShuffleSteps<T>(s: seq<T>, i: nat, rand: Oracle, k: nat): (r: seq<T>)
    requires i < |s| || i == 0
    ensures |r| == |s|
    decreases i
  {
    if i == 0 then s
    else ShuffleSteps(Swap(s, i, Pick(rand(k), i + 1)), i - 1, rand, k + 1)
  }

  /** `shuffle(arr)` with its draws taken from `rand(k)`, `rand(k + 1)`, … */
  function Shuffled<T>(s: seq<T>, rand: Oracle, k: nat): (r: seq<T>)
    ensures |r| == |s|
  {
    if |s| == 0 then s else ShuffleSteps(s, |s| - 1, rand, k)
  }

  lemma {:induction false} ShuffleStepsPermutes<T>(s: seq<T>, i: nat, rand: Oracle, k: nat)
    requires i < |s| || i == 0
    ensures |ShuffleSteps(s, i, rand, k)| == |s|
    ensures multiset(ShuffleSteps(s, i, rand, k)) == multiset(s)
    decreases i
  {
    if i > 0 {
      var j := Pick(rand(k), i + 1);
      SwapPermutes(s, i, j);
      ShuffleStepsPermutes(Swap(s, i, j), i - 1, rand, k + 1);
    }
  }

  /** Whatever the draws, the shuffle is a permutation of its input. */
  lemma ShuffledPermutes<T>(s: seq<T>, rand: Oracle, k: nat)
    ensures |Shuffled(s, rand, k)| == |s|
    ensures multiset(Shuffled(s, rand, k)) == multiset(s)
  {
    if |s| > 0 {
      ShuffleStepsPermutes(s, |s| - 1, rand, k);
    }
  }

  lemma {:induction false} ShuffleStepsMap<T, U>(f: T -> U, s: seq<T>, i: nat, rand: Oracle, k: nat)
    requires i < |s| || i == 0
    ensures ShuffleSteps(Map(f, s), i, rand, k) == Map(f, ShuffleSteps(s, i, rand, k))
    decreases i
  {
    if i > 0 {
      var j := Pick(rand(k), i + 1);
      assert Swap(Map(f, s), i, j) == Map(f, Swap(s, i, j));
      ShuffleStepsMap(f, Swap(s, i, j), i - 1, rand, k + 1);
    }
  }

  /**
   * The shuffle moves positions only: it commutes with any per-element
   * projection (for instance, taking each answer button's tag).
   */
  lemma ShuffledMap<T, U>(f: T -> U, s: seq<T>, rand: Oracle, k: nat)
    ensures Shuffled(Map(f, s), rand, k) == Map(f, Shuffled(s, rand, k))
  {
    if |s| > 0 {
      ShuffleStepsMap(f, s, |s| - 1, rand, k);
    }
  }

  /**
   * The draws that make the shuffle step at position m exchange it with
   * position lo and every other step keep its element in place. The step at
   * position i takes draw `top - i`, where `top` is the first draw index plus
   * the last position.
   */
  function Steer(top: int, m: nat, lo: nat): Oracle
    requires lo <= m
  {
    d => var i := top - d;
         if i > 0 && i == m then Fraction(lo, m + 1)
         else if i > 0 then Fraction(i, i + 1)
         else Fraction(0, 1)
  }

  /** Steps that never reach position m keep every element in place. */
  lemma {:induction false} SteerKeeps<T>(s: seq<T>, i: nat, top: int, m: nat, lo: nat, d: nat)
    requires lo <= m && i < m && (i < |s| || i == 0) && i + d == top
    ensures ShuffleSteps(s, i, Steer(top, m, lo), d) == s
    decreases i
  {
    if i > 0 {
      PickReaches(i, i + 1);
      assert Swap(s, i, i) == s;
      SteerKeeps(s, i - 1, top, m, lo, d + 1);
    }
  }

  /** Steps from a position at or above m exchange positions m and lo, and nothing else. */
  lemma {:induction false} SteerSwaps<T>(s: seq<T>, i: nat, top: int, m: nat, lo: nat, d: nat)
    requires lo <= m <= i < |s| && i + d == top
    ensures ShuffleSteps(s, i, Steer(top, m, lo), d) == Swap(s, m, lo)
    decreases i
  {
    if i == 0 {
      assert Swap(s, 0, 0) == s;
    } else if i == m {
      PickReaches(lo, m + 1);
      SteerKeeps(Swap(s, m, lo), i - 1, top, m, lo, d + 1);
    } else {
      PickReaches(i, i + 1);
      assert Swap(s, i, i) == s;
      SteerSwaps(s, i - 1, top, m, lo, d + 1);
    }
  }

  /**
   * No position is out of reach: for any position p and any element s[q],
   * some draws make the shuffle put s[q] at p.
   */
  lemma ShuffledReaches<T>(s: seq<T>, p: nat, q: nat, k: nat)
    requires p < |s| && q < |s|
    ensures Shuffled(s, Steer(k + |s| - 1, if p < q then q else p, if p < q then p else q), k)[p] == s[q]
    ensures exists rand: Oracle :: Shuffled(s, rand, k)[p] == s[q]
  {
    var m := if p < q then q else p;
    var lo := if p < q then p else q;
    var rand := Steer(k + |s| - 1, m, lo);
    SteerSwaps(s, |s| - 1, k + |s| - 1, m, lo, k);
    assert Shuffled(s, rand, k)[p] == s[q];
  }

  /** `arr.slice()`: a fresh array with the same elements. */
  method Copy<T>(arr: array<T>) returns (result: array<T>)
    ensures fresh(result)
    ensures result[..] == arr[..]
  {
    result := new T[arr.Length](n reads arr requires 0 <= n < arr.Length => arr[n]);
    assert result[..] == arr[..];
  }

  /** `[arr[i], arr[j]] = [arr[j], arr[i]]`: exchange two positions in place. */
  method Exchange<T>(a: array<T>, i: nat, j: nat)
    requires i < a.Length && j < a.Length
    modifies a
    ensures a[..] == Swap(old(a[..]), i, j)
  {
    var t := a[i];
    a[i] := a[j];
    a[j] := t;
  }

  /**
   * `shuffle(arr)`: copy the array (`arr.slice()`), then walk i from the last
   * index down to 1, exchanging position i with a drawn j in [0, i].
   * The input array is not modified.
   */
  method Shuffle<T>(arr: array<T>, rand: Oracle, k: nat) returns (result: array<T>)
    ensures fresh(result)
    ensures arr[..] == old(arr[..])
    ensures result[..] == Shuffled(arr[..], rand, k)
    ensures multiset(result[..]) == multiset(arr[..])
  {
    result := Copy(arr);
    ghost var target := Shuffled(arr[..], rand, k);
    var i := result.Length - 1;
    var draw := k;
    while i > 0
      invariant -1 <= i < result.Length
      invariant i == -1 ==> result.Length == 0
      invariant i >= 0 ==> ShuffleSteps(result[..], i, rand, draw) == target
    {
      var j := Pick(rand(draw), i + 1);
      ghost var before := result[..];
      Exchange(result, i, j);
      assert ShuffleSteps(before, i, rand, draw) == ShuffleSteps(Swap(before, i, j), i - 1, rand, draw + 1);
      i := i - 1;
      draw := draw + 1;
    }
    ShuffledPermutes(arr[..], rand, k);
  }
}
