/** The two-pass timestamp judge, and its agreement with the tap's online statistics. */
module TimestampChecks {
  import opened Statistics
  import opened TapHistory
  import opened SoakChecks

  const WARMUP_DELTAS: nat := 5
  const MIN_TIMESTAMP_SAMPLES: nat := 30

  datatype TimestampReason = TooFewSamples | InvalidFps | NotMonotonic | Jittery | GapTooLarge | Stable

  datatype TimestampResult = TimestampResult(
    status: QualStatus, reason: TimestampReason,
    n: nat, mean: real, variance: real, min: real, max: real, monotonic: bool)

  predicate StrictlyIncreasingFrom(pts: seq<int>, k: nat) {
    forall i :: k < i < |pts| ==> pts[i - 1] < pts[i]
  }

  /** The judged series: everything after the five warm-up differences. */
  function Judged(pts: seq<int>): seq<int>
    requires |pts| >= MIN_TIMESTAMP_SAMPLES
  {
    pts[WARMUP_DELTAS..]
  }

  /** The metrics are the exact statistics of the judged intervals. */
  ghost predicate Measures(r: TimestampResult, pts: seq<int>)
    requires |pts| >= MIN_TIMESTAMP_SAMPLES
  {
    var d := Intervals(Judged(pts));
    && r.n == |d|
    && r.mean == Mean(d)
    && r.variance == Variance(d)
    && IsMin(d, r.min) && IsMax(d, r.max)
    && r.monotonic == StrictlyIncreasingFrom(pts, WARMUP_DELTAS)
  }

  function NominalMs(fps: real): real
    requires fps > 0.0
  {
    1000.0 / fps
  }

  /** The metrics and the verdict, in the order of the clauses. */
  ghost predicate StabilityJudged(r: TimestampResult, pts: seq<int>, nominalFps: real) {
    && (r.status.Skipped? <==> |pts| < MIN_TIMESTAMP_SAMPLES || nominalFps <= 0.0)
    && (r.reason.TooFewSamples? <==> |pts| < MIN_TIMESTAMP_SAMPLES)
    && (!r.status.Skipped? ==>
          var nominalMs := NominalMs(nominalFps);
          var jitter := StddevAtLeast(r.variance, 0.2 * nominalMs);
          var gap := r.max >= 3.0 * nominalMs;
          && Measures(r, pts)
          && (r.status.Pass? <==> r.monotonic && !jitter && !gap)
          && (r.reason.NotMonotonic? <==> !r.monotonic)
          && (r.reason.Jittery? <==> r.monotonic && jitter)
          && (r.reason.GapTooLarge? <==> r.monotonic && !jitter && gap))
  }

  method CheckTimestampStability(pts: seq<int>, nominalFps: real) returns (r: TimestampResult)
    ensures StabilityJudged(r, pts, nominalFps)
  {
    hide Mean, Variance, Intervals, Judged, IsMin, IsMax, StddevAtLeast, StrictlyIncreasingFrom,
      NominalMs, Measures;
    if |pts| < MIN_TIMESTAMP_SAMPLES {
      return TimestampResult(Skipped, TooFewSamples, 0, 0.0, 0.0, 0.0, 0.0, true);
    }
    if nominalFps <= 0.0 {
      return TimestampResult(Skipped, InvalidFps, 0, 0.0, 0.0, 0.0, 0.0, true);
    }
    var monotonic, deltas := Deltas(pts);
    var mean := Average(deltas);
    var variance := Spread(deltas, mean);
    var min, max := Extremes(deltas);
    var nominalMs := NominalMs(nominalFps);
    r := TimestampResult(Pass, Stable, |deltas|, mean, variance, min, max, monotonic);
    if !monotonic {
      r := r.(status := Fail, reason := NotMonotonic);
    } else if StddevAtLeast(variance, 0.2 * nominalMs) {
      r := r.(status := Fail, reason := Jittery);
    } else if max >= 3.0 * nominalMs {
      r := r.(status := Fail, reason := GapTooLarge);
    }
    Measured(r, pts, deltas);
  }

  lemma Measured(r: TimestampResult, pts: seq<int>, d: seq<real>)
    requires |pts| >= MIN_TIMESTAMP_SAMPLES && d == Intervals(Judged(pts))
    requires r.n == |d| && r.mean == Mean(d) && r.variance == Variance(d)
    requires IsMin(d, r.min) && IsMax(d, r.max)
    requires r.monotonic == StrictlyIncreasingFrom(pts, WARMUP_DELTAS)
    ensures Measures(r, pts)
  {
  }

  lemma TakeOneMore<T>(s: seq<T>, i: nat)
    requires i < |s|
    ensures s[..i + 1] == s[..i] + [s[i]]
  {
  }

  /** The loop that discards the warm-up and watches for a step back. */
  method Deltas(pts: seq<int>) returns (monotonic: bool, deltas: seq<real>)
    requires |pts| >= MIN_TIMESTAMP_SAMPLES
    ensures deltas == Intervals(Judged(pts)) && |deltas| == |pts| - WARMUP_DELTAS - 1
    ensures monotonic == StrictlyIncreasingFrom(pts, WARMUP_DELTAS)
  {
    hide Milliseconds, Intervals;
    monotonic, deltas := true, [];
    var i := WARMUP_DELTAS + 1;
    while i < |pts|
      invariant WARMUP_DELTAS + 1 <= i <= |pts|
      invariant |deltas| == i - WARMUP_DELTAS - 1
      invariant forall k :: 0 <= k < |deltas| ==>
        deltas[k] == Milliseconds(pts[WARMUP_DELTAS + k + 1] - pts[WARMUP_DELTAS + k])
      invariant monotonic == forall k :: WARMUP_DELTAS < k < i ==> pts[k - 1] < pts[k]
    {
      var delta := pts[i] - pts[i - 1];
      if delta <= 0 {
        monotonic := false;
      }
      deltas := deltas + [Milliseconds(delta)];
      i := i + 1;
    }
    assert deltas == Intervals(Judged(pts)) by {
      forall k | 0 <= k < |deltas|
        ensures deltas[k] == Intervals(Judged(pts))[k]
      {
      }
    }
  }

  method Average(d: seq<real>) returns (mean: real)
    requires |d| > 0
    ensures mean == Mean(d)
  {
    var sum := 0.0;
    for i := 0 to |d|
      invariant sum == Sum(d[..i])
    {
      TakeOneMore(d, i);
      SumAppend(d[..i], d[i]);
      sum := sum + d[i];
    }
    assert d[..|d|] == d;
    mean := sum / (|d| as real);
  }

  method Spread(d: seq<real>, mean: real) returns (variance: real)
    requires |d| > 0 && mean == Mean(d)
    ensures variance == Variance(d)
  {
    hide Mean, SquaredDeviation;
    NoSpread(d[..0], mean);
    var sum := 0.0;
    for i := 0 to |d|
      invariant sum == SquaredDeviation(d[..i], mean)
    {
      TakeOneMore(d, i);
      SquaredDeviationAppend(d[..i], d[i], mean, d[i] - mean);
      sum := sum + (d[i] - mean) * (d[i] - mean);
    }
    assert d[..|d|] == d;
    variance := sum / (|d| as real);
  }

  lemma NoSpread(d: seq<real>, c: real)
    requires |d| == 0
    ensures SquaredDeviation(d, c) == 0.0
  {
  }

  method Extremes(d: seq<real>) returns (min: real, max: real)
    requires |d| > 0
    ensures IsMin(d, min) && IsMax(d, max)
  {
    min, max := d[0], d[0];
    for i := 1 to |d|
      invariant IsMin(d[..i], min) && IsMax(d[..i], max)
    {
      TakeOneMore(d, i);
      if d[i] < min {
        min := d[i];
      }
      if max < d[i] {
        max := d[i];
      }
    }
    assert d[..|d|] == d;
  }

  /** Online equals two-pass: a tap that was fed the judged timestamps reports exactly the
      mean, variance, minimum and maximum that the two-pass judge computes. */
  lemma OnlineAgreesWithTwoPass(s: Snapshot, h: History, pts: seq<int>, r: TimestampResult)
    requires |pts| >= MIN_TIMESTAMP_SAMPLES
    requires Summarizes(s, h) && PtsOf(h) == Judged(pts)
    requires Measures(r, pts)
    ensures s.intervalMeanMs == r.mean
    ensures s.intervalVariance == r.variance
    ensures s.intervalMinMs == r.min && s.intervalMaxMs == r.max
    ensures s.frames == r.n + 1
  {
    hide Mean, Variance, Gaps, HwSeqs, LevelsOk, BucketsOk, Intervals;
  }
}
