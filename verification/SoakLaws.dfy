/** The soak judge in plain numbers, and how much jitter of a real camera it tolerates. */
module SoakLaws {
  import opened Arithmetic
  import opened Statistics
  import opened TapHistory
  import opened SoakChecks
  import opened TimestampChecks

  // ---- the clauses -------------------------------------------------------------------------------

  /** Every full window of ten seconds is within 15% of the mean of the full windows. */
  predicate WindowsEven(buckets: seq<nat>) {
    |buckets| > 0 ==>
      var k, full := |buckets| - 1, buckets[..|buckets| - 1];
      forall b :: 0 <= b < k ==> 17 * NatSum(full) <= 20 * k * buckets[b] <= 23 * NatSum(full)
  }

  /** All clauses but the jitter: 100 frames, a gap in at most 0.1% of them, no stuck, black or white
      frame, even windows, and growth below 10 MiB. */
  predicate OthersClean(s: Snapshot, rssBefore: int, rssAfter: int) {
    && s.frames >= 100 && 1000 * s.hwSeqGaps <= s.frames
    && s.stuckFrames == 0 && s.blackFrames == 0 && s.whiteFrames == 0
    && WindowsEven(s.per10sFrames) && rssAfter - rssBefore < 10240
  }

  /** The stddev stays below a fifth of the nominal period, 1000 / fps ms; without a nominal rate
      there is no such clause. */
  predicate Calm(variance: real, fps: real) {
    fps > 0.0 ==> Scaled(variance, fps) < 40000.0
  }

  function Scaled(variance: real, fps: real): real { variance * fps * fps }

  lemma FifthOfPeriod(variance: real, fps: real, p: real)
    requires fps > 0.0 && p * fps == 200.0
    ensures variance >= p * p <==> Scaled(variance, fps) >= 40000.0
  {
    var q := fps * fps;
    assert q > 0.0;
    assert p * p * q == (p * fps) * (p * fps);
    assert p * p * q == 40000.0;
    Scale(variance, p * p, q);
    assert variance * q == variance * fps * fps;
  }

  lemma Scale(a: real, b: real, q: real)
    requires q > 0.0
    ensures a >= b <==> a * q >= b * q
  {
    if a < b {
      assert (b - a) * q > 0.0;
    } else {
      assert (a - b) * q >= 0.0;
    }
  }

  lemma JitterIsCalm(s: Snapshot, fps: real)
    ensures TooJittery(s, fps) <==> !Calm(s.intervalVariance, fps)
  {
    if fps > 0.0 {
      FifthTimesRate(fps);
      hide Scaled;
      FifthOfPeriod(s.intervalVariance, fps, 0.2 * (1000.0 / fps));
    }
  }

  lemma FifthTimesRate(fps: real)
    requires fps > 0.0
    ensures 0.2 * (1000.0 / fps) * fps == 200.0
  {
    assert (1000.0 / fps) * fps == 1000.0;
  }

  lemma SagsIsEven(buckets: seq<nat>)
    ensures NoSag(FullBuckets(buckets)) <==> WindowsEven(buckets)
  {
    hide NatSum, Sags;
    if |buckets| > 0 {
      var full := buckets[..|buckets| - 1];
      forall b | 0 <= b < |full|
        ensures !Sags(full[b], NatMean(full)) <==> 17 * NatSum(full) <= 20 * |full| * buckets[b] <= 23 * NatSum(full)
      {
        SagsIff(full[b], NatMean(full), NatSum(full), |full|);
      }
    }
  }

  /** The whole verdict in numbers. */
  lemma SoakInNumbers(s: Snapshot, fps: real, rssBefore: int, rssAfter: int)
    ensures SoakPasses(s, fps, rssBefore, rssAfter)
       <==> OthersClean(s, rssBefore, rssAfter) && Calm(s.intervalVariance, fps)
  {
    hide TooJittery, NoSag, FullBuckets, WindowsEven, Calm;
    JitterIsCalm(s, fps);
    SagsIsEven(s.per10sFrames);
  }

  /** When every other clause is clean, jitter is all that decides, and it is what the detail names. */
  lemma JitterDecides(r: SoakReason, s: Snapshot, fps: real, rssBefore: int, rssAfter: int)
    requires OthersClean(s, rssBefore, rssAfter) && fps > 0.0
    requires FirstFailing(r, s, fps, rssBefore, rssAfter)
    ensures r == if s.intervalVariance * fps * fps < 40000.0 then NoProblem else Jitter
  {
    hide TooJittery, NoSag, FirstSag, FullBuckets, WindowsEven, TooManyGaps, Calm;
    JitterIsCalm(s, fps);
    CalmIs(s.intervalVariance, fps);
    SagsIsEven(s.per10sFrames);
    GapsInNumbers(s);
    if r.RateSag? {
      NotFirstSag(FullBuckets(s.per10sFrames), r.bucket);
    }
  }

  lemma CalmIs(variance: real, fps: real)
    requires fps > 0.0
    ensures Calm(variance, fps) <==> variance * fps * fps < 40000.0
  {
  }

  lemma GapsInNumbers(s: Snapshot)
    ensures TooManyGaps(s) <==> 1000 * s.hwSeqGaps > s.frames
  {
  }

  lemma NotFirstSag(full: seq<nat>, b: nat)
    requires FirstSag(full, b)
    ensures !NoSag(full)
  {
  }

  // ---- an alternating camera -----------------------------------------------------------------------

  /** Frames `period + swing` and `period - swing` apart, in turn. */
  ghost predicate Alternates(h: History, period: int, swing: int) {
    forall k :: 0 < k < |h| ==>
      h[k].ptsNs - h[k - 1].ptsNs == if k % 2 == 1 then period + swing else period - swing
  }

  predicate Swings(d: seq<real>, p: real, e: real) {
    forall k :: 0 <= k < |d| ==> d[k] == if k % 2 == 0 then p + e else p - e
  }

  lemma {:induction false} SwingingSum(d: seq<real>, p: real, e: real)
    requires Swings(d, p, e)
    ensures Sum(d) == (|d| as real) * p + if |d| % 2 == 1 then e else 0.0
    ensures SquaredDeviation(d, p) == (|d| as real) * (e * e)
  {
    if |d| > 0 {
      var rest := d[..|d| - 1];
      SwingingSum(rest, p, e);
      assert |d| as real == (|rest| as real) + 1.0;
      assert (d[|d| - 1] - p) * (d[|d| - 1] - p) == e * e;
    }
  }

  function Odd(n: nat): real { if n % 2 == 1 then 1.0 else 0.0 }

  /** The variance is the square of the swing, less a little for an interval without a partner. */
  lemma SwingingVariance(d: seq<real>, p: real, e: real)
    requires Swings(d, p, e) && |d| > 0
    ensures var n := |d| as real; Variance(d) * (n * n) == e * e * (n * n - Odd(|d|))
  {
    hide Sum, SquaredDeviation, Mean, Swings, Variance;
    var m := Mean(d);
    SwingingSum(d, p, e);
    MeanTimesCount(d);
    ShiftFromMean(d, m, p - m);
    assert m + (p - m) == p;
    VarianceIs(d);
    OddTimes(|d|, e);
    LessMean(|d| as real, m, p, e, Odd(|d|), SquaredDeviation(d, m));
  }

  lemma OddTimes(n: nat, e: real)
    ensures Odd(n) * e == if n % 2 == 1 then e else 0.0
    ensures Odd(n) == 0.0 || Odd(n) == 1.0
  {
  }

  lemma VarianceIs(d: seq<real>)
    requires |d| > 0
    ensures Variance(d) == SquaredDeviation(d, Mean(d)) / (|d| as real)
  {
  }

  lemma LessMean(n: real, m: real, p: real, e: real, odd: real, spread: real)
    requires n > 0.0 && m * n == n * p + odd * e && (odd == 0.0 || odd == 1.0)
    requires spread + n * ((p - m) * (p - m)) == n * (e * e)
    ensures spread / n * (n * n) == e * e * (n * n - odd)
  {
    var k := n * (p - m);
    assert k == -(odd * e);
    assert k * k == odd * (e * e);
    assert n * (n * ((p - m) * (p - m))) == k * k;
    assert n * (spread + n * ((p - m) * (p - m))) == n * (n * (e * e));
    assert spread / n * (n * n) == n * spread by {
      assert spread / n * n == spread;
    }
  }

  /** A camera whose intervals swing evenly about their period, and which is clean otherwise, passes
      the soak exactly while the stddev of its n intervals, the swing or a little less, is below a
      fifth of the nominal period. */
  lemma AlternatingCameraPassesIff(
      s: Snapshot, h: History, period: int, swing: nat, fps: real, rssBefore: int, rssAfter: int)
    requires Summarizes(s, h) && Alternates(h, period, swing) && |h| > 1
    requires OthersClean(s, rssBefore, rssAfter) && fps > 0.0
    ensures var n, x := (|h| - 1) as real, (swing as real) * fps;
      SoakPasses(s, fps, rssBefore, rssAfter)
      <==> Squared(x) * (n * n - Odd(|h| - 1)) < Squared(200_000_000.0) * (n * n)
  {
    hide OthersClean, SoakPasses, Summarizes, Alternates, Scaled;
    SoakInNumbers(s, fps, rssBefore, rssAfter);
    AlternatingVariance(s, h, period, swing);
    SwingBelow(s.intervalVariance, fps, swing, |h| - 1);
  }

  /** So below 20% of the nominal period every such run passes, and with an even number of intervals
      no other. */
  lemma SwingBelowFifthPasses(
      s: Snapshot, h: History, period: int, swing: nat, fps: real, rssBefore: int, rssAfter: int)
    requires Summarizes(s, h) && Alternates(h, period, swing) && |h| > 1
    requires OthersClean(s, rssBefore, rssAfter) && fps > 0.0
    ensures (swing as real) * fps < 200_000_000.0 ==> SoakPasses(s, fps, rssBefore, rssAfter)
    ensures |h| % 2 == 1 && SoakPasses(s, fps, rssBefore, rssAfter) ==> (swing as real) * fps < 200_000_000.0
  {
    hide OthersClean, SoakPasses, Summarizes, Alternates, Squared;
    AlternatingCameraPassesIff(s, h, period, swing, fps, rssBefore, rssAfter);
    var n, x := (|h| - 1) as real, (swing as real) * fps;
    Positive(swing as real, fps);
    AtLeastOne(n);
    SquaresOrdered(x, 200_000_000.0, n * n, Odd(|h| - 1));
  }

  lemma AtLeastOne(n: real)
    requires n >= 1.0
    ensures n * n >= 1.0
  {
  }

  lemma SquaresOrdered(x: real, y: real, q: real, odd: real)
    requires 0.0 <= x && 0.0 < y && q >= 1.0 && 0.0 <= odd <= 1.0
    ensures x < y ==> Squared(x) * (q - odd) < Squared(y) * q
    ensures odd == 0.0 && Squared(x) * (q - odd) < Squared(y) * q ==> x < y
  {
    SquareOrder(x, y);
    var a, b := Squared(x), Squared(y);
    hide Squared;
    Weigh(a, b, q, odd);
  }

  lemma SquarePositive(x: real)
    requires x > 0.0
    ensures Squared(x) > 0.0
  {
    ProductPositive(x, x, Squared(x));
  }

  lemma ProductPositive(a: real, b: real, c: real)
    requires a > 0.0 && b > 0.0 && c == a * b
    ensures c > 0.0
  {
  }

  lemma SquareOrder(x: real, y: real)
    requires 0.0 <= x && 0.0 < y
    ensures Squared(x) >= 0.0 && Squared(y) > 0.0 && (x < y <==> Squared(x) < Squared(y))
  {
    SquarePositive(y);
    if x > 0.0 {
      SquarePositive(x);
    }
    assert (y - x) * (x + y) == Squared(y) - Squared(x);
    if x < y {
      Positive(y - x, x + y);
    } else {
      Positive(x - y, x + y);
      assert (x - y) * (x + y) == Squared(x) - Squared(y);
    }
  }

  lemma Weigh(a: real, b: real, q: real, odd: real)
    requires 0.0 <= a && 0.0 < b && q >= 1.0 && 0.0 <= odd <= 1.0
    ensures a < b ==> a * (q - odd) < b * q
    ensures odd == 0.0 && a * (q - odd) < b * q ==> a < b
  {
    Scale(a, b, q);
    assert a * (q - odd) == a * q - a * odd;
    if a > 0.0 {
      Positive(odd, a);
    }
  }

  lemma AlternatingVariance(s: Snapshot, h: History, period: int, swing: nat)
    requires Summarizes(s, h) && Alternates(h, period, swing) && |h| > 1
    ensures var n := (|h| - 1) as real;
      s.intervalVariance * (n * n) == Squared((swing as real) / 1_000_000.0) * (n * n - Odd(|h| - 1))
  {
    hide MeansOk, LevelsOk, BucketsOk, ExtremesOk, Gaps, HwSeqs, Mean, Variance, Intervals, Alternates, Swings;
    SwingInMs(h, period, swing);
    SwingingVariance(Intervals(PtsOf(h)), (period as real) / 1_000_000.0, (swing as real) / 1_000_000.0);
  }

  function Squared(x: real): real { x * x }

  lemma MsOfSum(a: int, b: int)
    ensures Milliseconds(a + b) == (a as real) / 1_000_000.0 + (b as real) / 1_000_000.0
    ensures Milliseconds(a - b) == (a as real) / 1_000_000.0 - (b as real) / 1_000_000.0
  {
  }

  lemma SwingInMs(h: History, period: int, swing: nat)
    requires Alternates(h, period, swing) && |h| > 1
    ensures |Intervals(PtsOf(h))| == |h| - 1
    ensures Swings(Intervals(PtsOf(h)), (period as real) / 1_000_000.0, (swing as real) / 1_000_000.0)
  {
    var d := Intervals(PtsOf(h));
    hide Intervals, PtsOf, Alternates;
    forall k | 0 <= k < |d|
      ensures d[k] == if k % 2 == 0 then (period as real) / 1_000_000.0 + (swing as real) / 1_000_000.0
        else (period as real) / 1_000_000.0 - (swing as real) / 1_000_000.0
    {
      IntervalAt(h, period, swing, k);
    }
  }

  lemma IntervalAt(h: History, period: int, swing: nat, k: nat)
    requires Alternates(h, period, swing) && k + 1 < |h|
    ensures |Intervals(PtsOf(h))| == |h| - 1
    ensures Intervals(PtsOf(h))[k] == if k % 2 == 0 then (period as real) / 1_000_000.0 + (swing as real) / 1_000_000.0
      else (period as real) / 1_000_000.0 - (swing as real) / 1_000_000.0
  {
    hide PtsOf, Milliseconds, Intervals;
    StepAt(h, period, swing, k);
    MsOfSum(period, swing);
    assert Intervals(PtsOf(h))[k] == Milliseconds(PtsOf(h)[k + 1] - PtsOf(h)[k]);
  }

  lemma StepAt(h: History, period: int, swing: int, k: nat)
    requires Alternates(h, period, swing) && k + 1 < |h|
    ensures h[k + 1].ptsNs - h[k].ptsNs == if k % 2 == 0 then period + swing else period - swing
  {
    var j := k + 1;
    assert h[j].ptsNs - h[j - 1].ptsNs == if j % 2 == 1 then period + swing else period - swing;
  }

  lemma SwingBelow(variance: real, fps: real, swing: nat, count: nat)
    requires fps > 0.0 && count > 0
    requires var n := count as real;
      variance * (n * n) == Squared((swing as real) / 1_000_000.0) * (n * n - Odd(count))
    ensures var n, x := count as real, (swing as real) * fps;
      Scaled(variance, fps) < 40000.0 <==> Squared(x) * (n * n - Odd(count)) < Squared(200_000_000.0) * (n * n)
  {
    var n, e := count as real, (swing as real) / 1_000_000.0;
    AtLeastOne(n);
    var q, r := n * n, n * n - Odd(count);
    var m := 1_000_000_000_000.0;
    Positive(q, m);
    Scale(Scaled(variance, fps), 40000.0, q * m);
    assert Scaled(variance, fps) * (q * m) == Squared((swing as real) * fps) * r by {
      Rescaled(variance, fps, swing as real, e, q, r);
    }
  }

  lemma Rescaled(variance: real, fps: real, swing: real, e: real, q: real, r: real)
    requires swing == e * 1_000_000.0 && variance * q == e * e * r
    ensures Scaled(variance, fps) * (q * 1_000_000_000_000.0) == Squared(swing * fps) * r
  {
    var f := fps * fps;
    assert Scaled(variance, fps) == variance * f;
    assert variance * f * q == (variance * q) * f;
    assert Squared(swing * fps) == (e * e) * f * 1_000_000_000_000.0;
    assert (e * e) * f * r == (e * e * r) * f;
  }

  lemma Positive(a: real, b: real)
    requires a >= 0.0 && b > 0.0
    ensures a * b >= 0.0 && (a > 0.0 ==> a * b > 0.0)
  {
  }

  // ---- the two-pass judge --------------------------------------------------------------------------

  lemma NominalJitter(variance: real, fps: real)
    requires fps > 0.0
    ensures StddevAtLeast(variance, 0.2 * NominalMs(fps)) <==> !Calm(variance, fps)
  {
    var p := 0.2 * NominalMs(fps);
    assert NominalMs(fps) * fps == 1000.0;
    assert p * fps == 200.0;
    FifthOfPeriod(variance, fps, p);
  }

  /** The interval is below three nominal periods. */
  predicate NoLongGap(ms: real, fps: real) { ms * fps < 3000.0 }

  lemma NominalGap(max: real, fps: real)
    requires fps > 0.0
    ensures max >= 3.0 * NominalMs(fps) <==> !NoLongGap(max, fps)
  {
    var nominal := NominalMs(fps);
    assert nominal * fps == 1000.0;
    hide NominalMs;
    ThreeTimes(max, nominal, fps);
  }

  lemma ThreeTimes(max: real, p: real, fps: real)
    requires fps > 0.0 && p * fps == 1000.0
    ensures max >= 3.0 * p <==> !NoLongGap(max, fps)
  {
    var d := max - 3.0 * p;
    assert d * fps == max * fps - 3000.0;
    if d >= 0.0 {
      Positive(d, fps);
    } else {
      Positive(-d, fps);
      assert (-d) * fps == -(d * fps);
    }
  }

  /** The timestamp verdict in numbers: at least 30 timestamps and a nominal rate; of all but the first
      six frames the statistics; then strictly rising timestamps, a stddev below 20% and a largest
      interval below three nominal periods, in this order. */
  lemma StabilityInNumbers(r: TimestampResult, pts: seq<int>, fps: real)
    requires StabilityJudged(r, pts, fps)
    ensures r.status.Skipped? <==> |pts| < 30 || fps <= 0.0
    ensures !r.status.Skipped? ==>
      && r.n == |pts| - 6
      && r.mean == Mean(Intervals(pts[5..])) && r.variance == Variance(Intervals(pts[5..]))
      && (r.monotonic <==> forall i :: 5 < i < |pts| ==> pts[i - 1] < pts[i])
      && (r.status.Pass? <==> r.monotonic && Calm(r.variance, fps) && NoLongGap(r.max, fps))
      && (r.reason.NotMonotonic? <==> !r.monotonic)
      && (r.reason.Jittery? <==> r.monotonic && !Calm(r.variance, fps))
      && (r.reason.GapTooLarge? <==>
            r.monotonic && Calm(r.variance, fps) && !NoLongGap(r.max, fps))
  {
    hide Mean, Variance, Intervals, IsMin, IsMax, StddevAtLeast, NominalMs, Calm, NoLongGap;
    if !r.status.Skipped? {
      NominalJitter(r.variance, fps);
      NominalGap(r.max, fps);
      assert |Intervals(pts[5..])| == |pts| - 6;
    }
  }
}
