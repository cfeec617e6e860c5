/** Sample statistics over the reals, and the correctness of Welford's online update. */
module Statistics {

  function Sum(s: seq<real>): real {
    if |s| == 0 then 0.0 else Sum(s[..|s| - 1]) + s[|s| - 1]
  }

  function Mean(s: seq<real>): real {
    if |s| == 0 then 0.0 else Sum(s) / (|s| as real)
  }

  /** Sum of squared deviations from `c`. */
  function SquaredDeviation(s: seq<real>, c: real): real {
    if |s| == 0 then 0.0
    else SquaredDeviation(s[..|s| - 1], c) + (s[|s| - 1] - c) * (s[|s| - 1] - c)
  }

  /** Population variance: the square of the source's stddev. */
  function Variance(s: seq<real>): real {
    if |s| == 0 then 0.0 else SquaredDeviation(s, Mean(s)) / (|s| as real)
  }

  /** stddev >= bound for a non-negative bound, without the square root. */
  predicate StddevAtLeast(variance: real, bound: real) {
    variance >= bound * bound
  }

  ghost predicate IsMin(s: seq<real>, m: real) {
    m in s && forall i :: 0 <= i < |s| ==> m <= s[i]
  }

  ghost predicate IsMax(s: seq<real>, m: real) {
    m in s && forall i :: 0 <= i < |s| ==> s[i] <= m
  }

  lemma SumAppend(s: seq<real>, x: real)
    ensures Sum(s + [x]) == Sum(s) + x
  {
    assert (s + [x])[..|s|] == s;
  }

  lemma SquaredDeviationAppend(s: seq<real>, x: real, c: real, e: real)
    requires e == x - c
    ensures SquaredDeviation(s + [x], c) == SquaredDeviation(s, c) + e * e
  {
    assert (s + [x])[..|s|] == s;
  }

  lemma MeanTimesCount(s: seq<real>)
    ensures Mean(s) * (|s| as real) == Sum(s)
  {
  }

  /** The tap's running mean: the mean of `n` values, extended by one more. */
  function NextMean(mean: real, n: nat, x: real): real {
    (mean * (n as real) + x) / (n as real + 1.0)
  }

  /** The running-mean update keeps the arithmetic mean. */
  lemma RunningMean(s: seq<real>, x: real)
    ensures Mean(s + [x]) == NextMean(Mean(s), |s|, x)
  {
    SumAppend(s, x);
    MeanTimesCount(s);
  }

  lemma Square(x: real)
    ensures x * x >= 0.0
  {
    if x < 0.0 {
      assert x * x == (-x) * (-x);
    }
  }

  lemma SquareOfSum(a: real, b: real)
    ensures (a + b) * (a + b) == a * a + 2.0 * a * b + b * b
  {
    assert (a + b) * (a + b) == a * (a + b) + b * (a + b);
  }

  lemma ShiftStep(n: real, t: real, k: real, e: real)
    ensures n * (k * k) - 2.0 * k * t + (e - k) * (e - k)
         == (n + 1.0) * (k * k) - 2.0 * k * (t + e) + e * e
  {
    SquareOfSum(e, -k);
    assert 2.0 * k * (t + e) == 2.0 * k * t + 2.0 * k * e;
  }

  lemma ShiftAlgebra(n: real, sum: real, c: real, k: real, x: real, e: real, f: real)
    requires e == x - c && f == x - (c + k)
    ensures n * (k * k) - 2.0 * k * (sum - n * c) + f * f
         == (n + 1.0) * (k * k) - 2.0 * k * ((sum + x) - (n + 1.0) * c) + e * e
  {
    ShiftStep(n, sum - n * c, k, e);
    assert f == e - k;
    assert (sum + x) - (n + 1.0) * c == (sum - n * c) + e;
  }

  /** Moving the centre of a sum of squared deviations by `k`. */
  lemma {:induction false} ShiftCentre(s: seq<real>, c: real, k: real)
    ensures SquaredDeviation(s, c + k) ==
            SquaredDeviation(s, c) + (|s| as real) * (k * k)
            - 2.0 * k * (Sum(s) - (|s| as real) * c)
  {
    if |s| > 0 {
      var rest, x := s[..|s| - 1], s[|s| - 1];
      ShiftCentre(rest, c, k);
      ShiftAlgebra(|rest| as real, Sum(rest), c, k, x, x - c, x - (c + k));
      assert |s| as real == |rest| as real + 1.0;
    }
  }

  /** About the mean `m` the cross term vanishes. */
  lemma ShiftFromMean(s: seq<real>, m: real, k: real)
    requires m * (|s| as real) == Sum(s)
    ensures SquaredDeviation(s, m + k) == SquaredDeviation(s, m) + (|s| as real) * (k * k)
  {
    hide Sum, SquaredDeviation;
    ShiftCentre(s, m, k);
    VanishingCross(k, Sum(s) - (|s| as real) * m);
  }

  lemma VanishingCross(k: real, t: real)
    requires t == 0.0
    ensures 2.0 * k * t == 0.0
  {
  }

  lemma QuotientStep(m: real, n: real, x: real)
    requires n >= 0.0
    ensures (m * n + x) / (n + 1.0) == m + (x - m) / (n + 1.0)
    ensures ((x - m) / (n + 1.0)) * (n + 1.0) == x - m
  {
    var k := (x - m) / (n + 1.0);
    assert k * (n + 1.0) == x - m;
    assert m * n + x == (m + k) * (n + 1.0);
  }

  lemma WelfordMean(s: seq<real>, x: real)
    ensures Mean(s + [x]) == Mean(s) + (x - Mean(s)) / (|s| as real + 1.0)
  {
    RunningMean(s, x);
    QuotientStep(Mean(s), |s| as real, x);
  }

  lemma WelfordAlgebra(n: real, k: real, e: real, f: real)
    requires k * (n + 1.0) == e && f == e - k
    ensures n * (k * k) + f * f == e * f
  {
    assert f == k * n;
    assert n * (k * k) == k * f;
    assert k * f + f * f == (k + f) * f;
  }

  lemma WelfordSpread(s: seq<real>, m: real, x: real, k: real, e: real, f: real)
    requires m * (|s| as real) == Sum(s)
    requires e == x - m && f == x - (m + k)
    requires k * (|s| as real + 1.0) == e
    ensures SquaredDeviation(s + [x], m + k) == SquaredDeviation(s, m) + e * f
  {
    hide Sum, SquaredDeviation;
    ShiftFromMean(s, m, k);
    WelfordAlgebra(|s| as real, k, e, f);
    SquaredDeviationAppend(s, x, m + k, f);
  }

  /** One Welford step: the online mean and m2 stay the exact mean and the exact
      two-pass sum of squared deviations of everything seen so far. */
  lemma Welford(s: seq<real>, x: real, d1: real, mean: real, d2: real)
    requires d1 == x - Mean(s)
    requires mean == Mean(s) + d1 / (|s| as real + 1.0)
    requires d2 == x - mean
    ensures Mean(s + [x]) == mean
    ensures SquaredDeviation(s + [x], mean) == SquaredDeviation(s, Mean(s)) + d1 * d2
  {
    WelfordMean(s, x);
    var m, k := Mean(s), d1 / (|s| as real + 1.0);
    assert m * (|s| as real) == Sum(s) by {
      MeanTimesCount(s);
    }
    assert k * (|s| as real + 1.0) == d1 by {
      QuotientStep(m, |s| as real, x);
    }
    WelfordSpread(s, m, x, k, d1, d2);
  }

  /** Variance is never negative, so comparing it with a squared bound is comparing
      the standard deviation with the bound. */
  lemma {:induction false} SquaredDeviationNonNegative(s: seq<real>, c: real)
    ensures SquaredDeviation(s, c) >= 0.0
  {
    if |s| > 0 {
      SquaredDeviationNonNegative(s[..|s| - 1], c);
      Square(s[|s| - 1] - c);
    }
  }

  lemma {:induction false} ConstantSum(s: seq<real>, c: real)
    requires forall i :: 0 <= i < |s| ==> s[i] == c
    ensures Sum(s) == (|s| as real) * c
    ensures SquaredDeviation(s, c) == 0.0
  {
    if |s| > 0 {
      ConstantSum(s[..|s| - 1], c);
    }
  }

  /** A constant series has no spread. */
  lemma ConstantVariance(s: seq<real>, c: real)
    requires forall i :: 0 <= i < |s| ==> s[i] == c
    ensures Variance(s) == 0.0
  {
    ConstantSum(s, c);
    if |s| > 0 {
      assert Mean(s) == c;
    }
  }
}
