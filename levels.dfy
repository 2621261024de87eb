/** Aggregate statistics over a sequence of engagement levels, as the
    client computes them with `reduce`, `slice` and `filter`. Levels are
    integers; averages and variances are exact rationals. */
module Levels {

  /** `levels.reduce((a, b) => a + b, 0)`. */
  function Sum(s: seq<int>): int {
    if s == [] then 0 else Sum(s[..|s| - 1]) + s[|s| - 1]
  }

  lemma {:induction false} SumAppend(a: seq<int>, b: seq<int>)
    ensures Sum(a + b) == Sum(a) + Sum(b)
    decreases |b|
  {
    if b == [] {
      assert a + b == a;
    } else {
      assert (a + b)[..|a + b| - 1] == a + b[..|b| - 1];
      SumAppend(a, b[..|b| - 1]);
    }
  }

  /** The arithmetic mean; the client divides the sum by the length. */
  function Mean(s: seq<int>): (m: real)
    requires |s| > 0
    ensures m * |s| as real == Sum(s) as real
  {
    Sum(s) as real / |s| as real
  }

  /** `s.slice(-Math.min(k, n))`: the last `min(k, |s|)` elements. */
  function Tail(s: seq<int>, k: nat): (t: seq<int>)
    ensures |t| == if k < |s| then k else |s|
    ensures forall i :: 0 <= i < |t| ==> t[i] == s[|s| - |t| + i]
  {
    if k < |s| then s[|s| - k..] else s
  }

  /** The number of elements equal to `v`. */
  function Count(s: seq<int>, v: int): nat {
    if s == [] then 0 else Count(s[..|s| - 1], v) + (if s[|s| - 1] == v then 1 else 0)
  }

  lemma {:induction false} CountPositive(s: seq<int>, v: int)
    ensures Count(s, v) > 0 <==> v in s
  {
    if s != [] {
      CountPositive(s[..|s| - 1], v);
      assert s == s[..|s| - 1] + [s[|s| - 1]];
    }
  }

  lemma {:induction false} CountAtMostLength(s: seq<int>, v: int)
    ensures Count(s, v) <= |s|
  {
    if s != [] {
      CountAtMostLength(s[..|s| - 1], v);
    }
  }

  /** Every element equals `v` exactly when all of them are counted. */
  lemma {:induction false} CountFull(s: seq<int>, v: int)
    ensures Count(s, v) == |s| <==> forall i :: 0 <= i < |s| ==> s[i] == v
  {
    if s != [] {
      var p := s[..|s| - 1];
      CountFull(p, v);
      CountAtMostLength(p, v);
      assert forall i :: 0 <= i < |p| ==> p[i] == s[i];
    }
  }

  /** The sum of squared deviations from `m`. */
  function SquaredDeviation(s: seq<int>, m: real): real {
    if s == [] then 0.0
    else SquaredDeviation(s[..|s| - 1], m) + (s[|s| - 1] as real - m) * (s[|s| - 1] as real - m)
  }

  /** The population variance: squared deviations from the mean, divided
      by `n` rather than `n - 1`. */
  function Variance(s: seq<int>): real
    requires |s| > 0
  {
    SquaredDeviation(s, Mean(s)) / |s| as real
  }

  lemma {:induction false} SquaredDeviationNonNegative(s: seq<int>, m: real)
    ensures SquaredDeviation(s, m) >= 0.0
  {
    if s != [] {
      SquaredDeviationNonNegative(s[..|s| - 1], m);
      var d := s[|s| - 1] as real - m;
      assert d * d >= 0.0;
    }
  }

  lemma VarianceNonNegative(s: seq<int>)
    requires |s| > 0
    ensures Variance(s) >= 0.0
  {
    SquaredDeviationNonNegative(s, Mean(s));
  }

  /** Every element of `s` equals `c`. */
  predicate Constant(s: seq<int>, c: int) {
    forall i :: 0 <= i < |s| ==> s[i] == c
  }

  lemma {:induction false} SumConstant(s: seq<int>, c: int)
    requires Constant(s, c)
    ensures Sum(s) == |s| * c
  {
    if s != [] {
      SumConstant(s[..|s| - 1], c);
    }
  }

  lemma {:induction false} SquaredDeviationConstant(s: seq<int>, c: int)
    requires Constant(s, c)
    ensures SquaredDeviation(s, c as real) == 0.0
  {
    if s != [] {
      SquaredDeviationConstant(s[..|s| - 1], c);
    }
  }

  /** A constant history has that constant as its mean and no variance. */
  lemma ConstantStatistics(s: seq<int>, c: int)
    requires |s| > 0 && Constant(s, c)
    ensures Mean(s) == c as real
    ensures Variance(s) == 0.0
  {
    SumConstant(s, c);
    SquaredDeviationConstant(s, c);
  }

  lemma {:induction false} SumBounds(s: seq<int>, lo: int, hi: int)
    requires forall i :: 0 <= i < |s| ==> lo <= s[i] <= hi
    ensures |s| * lo <= Sum(s) <= |s| * hi
  {
    if s != [] {
      SumBounds(s[..|s| - 1], lo, hi);
    }
  }

  /** A mean `m` of `n` values totalling `total` is below `k` exactly when
      the total is below `k * n`. */
  lemma MeanBelow(m: real, n: real, total: real, k: real)
    requires n > 0.0 && m * n == total
    ensures m < k <==> total < k * n
  {
    if m < k {
      assert m * n < k * n;
    } else {
      assert m * n >= k * n;
    }
  }

  /** The same with `<=`. */
  lemma MeanAtMost(m: real, n: real, total: real, k: real)
    requires n > 0.0 && m * n == total
    ensures m <= k <==> total <= k * n
  {
    if m <= k {
      assert m * n <= k * n;
    } else {
      assert m * n > k * n;
    }
  }

  /** The mean lies between the smallest and the largest possible level. */
  lemma MeanBounds(s: seq<int>, lo: int, hi: int)
    requires |s| > 0
    requires forall i :: 0 <= i < |s| ==> lo <= s[i] <= hi
    ensures lo as real <= Mean(s) <= hi as real
  {
    SumBounds(s, lo, hi);
    var n := |s| as real;
    var total := Sum(s) as real;
    assert n * lo as real <= total <= n * hi as real;
    MeanBelow(Mean(s), n, total, lo as real);
    MeanAtMost(Mean(s), n, total, hi as real);
  }
}
