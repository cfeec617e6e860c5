/** The soak judge, and what its verdict says about the camera behind it. */
module SoakChecks {
  import opened Arithmetic
  import opened Fnv1a
  import opened PixelFormats
  import opened VideoFrames
  import opened FrameSampling
  import opened Statistics
  import opened TapHistory
  import opened FrameTaps

  datatype QualStatus = Pass | Fail | Skipped

  datatype SoakReason =
    | TooFewFrames
    | DroppedFrames
    | StuckFrames
    | BlackOrWhite
    | Jitter
    | RateSag(bucket: nat)
    | MemoryGrowth
    | NoProblem

  datatype SoakResult = SoakResult(status: QualStatus, reason: SoakReason)

  const MIN_SOAK_FRAMES: nat := 100
  const MAX_RSS_GROWTH_KB: int := 10240

  function NatSum(s: seq<nat>): nat {
    if |s| == 0 then 0 else NatSum(s[..|s| - 1]) + s[|s| - 1]
  }

  function NatMean(s: seq<nat>): real {
    if |s| == 0 then 0.0 else (NatSum(s) as real) / (|s| as real)
  }

  /** All buckets but the last, which may be partial. */
  function FullBuckets(buckets: seq<nat>): seq<nat> {
    if |buckets| == 0 then [] else buckets[..|buckets| - 1]
  }

  predicate TooManyGaps(s: Snapshot) {
    s.hwSeqGaps as real > 0.001 * (s.frames as real)
  }

  /** The interval stddev reaches 20% of the nominal period. */
  predicate TooJittery(s: Snapshot, nominalFps: real) {
    nominalFps > 0.0 && StddevAtLeast(s.intervalVariance, 0.2 * (1000.0 / nominalFps))
  }

  predicate Sags(count: nat, mean: real) {
    var d := count as real - mean;
    (if d < 0.0 then -d else d) > 0.15 * mean
  }

  predicate NoSag(full: seq<nat>) {
    forall i :: 0 <= i < |full| ==> !Sags(full[i], NatMean(full))
  }

  /** Every clause of the soak, with no order among them. */
  predicate SoakPasses(s: Snapshot, nominalFps: real, rssBefore: int, rssAfter: int) {
    && s.frames >= MIN_SOAK_FRAMES
    && !TooManyGaps(s)
    && s.stuckFrames == 0
    && s.blackFrames == 0 && s.whiteFrames == 0
    && !TooJittery(s, nominalFps)
    && NoSag(FullBuckets(s.per10sFrames))
    && rssAfter - rssBefore < MAX_RSS_GROWTH_KB
  }

  // The clauses up to each point of the order in which the judge looks at them.
  predicate GapsPass(s: Snapshot) { s.frames >= MIN_SOAK_FRAMES && !TooManyGaps(s) }

  predicate LevelsPass(s: Snapshot) { GapsPass(s) && s.stuckFrames == 0 && s.blackFrames == 0 && s.whiteFrames == 0 }

  predicate RatePasses(s: Snapshot, nominalFps: real) {
    LevelsPass(s) && !TooJittery(s, nominalFps) && NoSag(FullBuckets(s.per10sFrames))
  }

  predicate FirstSag(full: seq<nat>, b: nat) {
    b < |full| && Sags(full[b], NatMean(full)) && forall i :: 0 <= i < b ==> !Sags(full[i], NatMean(full))
  }

  /** The detail names the first clause that fails, in the judge's order, and none otherwise. */
  predicate FirstFailing(reason: SoakReason, s: Snapshot, nominalFps: real, rssBefore: int, rssAfter: int) {
    match reason
    case TooFewFrames => s.frames < MIN_SOAK_FRAMES
    case DroppedFrames => s.frames >= MIN_SOAK_FRAMES && TooManyGaps(s)
    case StuckFrames => GapsPass(s) && s.stuckFrames > 0
    case BlackOrWhite => GapsPass(s) && s.stuckFrames == 0 && (s.blackFrames > 0 || s.whiteFrames > 0)
    case Jitter => LevelsPass(s) && TooJittery(s, nominalFps)
    case RateSag(b) => LevelsPass(s) && !TooJittery(s, nominalFps) && FirstSag(FullBuckets(s.per10sFrames), b)
    case MemoryGrowth => RatePasses(s, nominalFps) && rssAfter - rssBefore >= MAX_RSS_GROWTH_KB
    case NoProblem => RatePasses(s, nominalFps) && rssAfter - rssBefore < MAX_RSS_GROWTH_KB
  }

  /** Every snapshot has one first failing clause at most. */
  lemma FirstFailingIsUnique(a: SoakReason, b: SoakReason, s: Snapshot, nominalFps: real, rssBefore: int, rssAfter: int)
    requires FirstFailing(a, s, nominalFps, rssBefore, rssAfter) && FirstFailing(b, s, nominalFps, rssBefore, rssAfter)
    ensures a == b
  {
    hide TooManyGaps, TooJittery, NatMean, Sags, FullBuckets;
  }

  method CheckSoak(s: Snapshot, nominalFps: real, rssBefore: int, rssAfter: int) returns (r: SoakResult)
    ensures FirstFailing(r.reason, s, nominalFps, rssBefore, rssAfter)
    ensures r.status == if r.reason.NoProblem? then Pass else if r.reason.TooFewFrames? then Skipped else Fail
    ensures r.status.Pass? <==> SoakPasses(s, nominalFps, rssBefore, rssAfter)
  {
    if s.frames < MIN_SOAK_FRAMES {
      return SoakResult(Skipped, TooFewFrames);
    }
    var full := s.per10sFrames;
    if |full| > 0 {
      full := full[..|full| - 1];
    }
    var bucketMean := 0.0;
    if |full| > 0 {
      var sum: nat := 0;
      for i := 0 to |full|
        invariant sum == NatSum(full[..i])
      {
        assert full[..i + 1][..i] == full[..i];
        sum := sum + full[i];
      }
      assert full[..|full|] == full;
      bucketMean := (sum as real) / (|full| as real);
    }
    if s.hwSeqGaps as real > 0.001 * (s.frames as real) {
      return SoakResult(Fail, DroppedFrames);
    }
    if s.stuckFrames > 0 {
      return SoakResult(Fail, StuckFrames);
    }
    if s.blackFrames + s.whiteFrames > 0 {
      return SoakResult(Fail, BlackOrWhite);
    }
    if TooJittery(s, nominalFps) {
      return SoakResult(Fail, Jitter);
    }
    for i := 0 to |full|
      invariant forall k :: 0 <= k < i ==> !Sags(full[k], bucketMean)
    {
      if Sags(full[i], bucketMean) {
        return SoakResult(Fail, RateSag(i));
      }
    }
    if rssAfter - rssBefore >= MAX_RSS_GROWTH_KB {
      return SoakResult(Fail, MemoryGrowth);
    }
    return SoakResult(Pass, NoProblem);
  }

  // ---- delivered frames -------------------------------------------------------

  predicate Increasing(q: seq<nat>) {
    forall i, j :: 0 <= i < j < |q| ==> q[i] < q[j]
  }

  /** Gaps telescope: what was delivered plus what was skipped spans the driver's range. */
  lemma {:induction false} GapsTelescope(q: seq<nat>)
    requires Increasing(q) && |q| > 0
    ensures Gaps(q) + |q| == q[|q| - 1] - q[0] + 1
  {
    if |q| > 1 {
      GapsTelescope(q[..|q| - 1]);
      assert q[|q| - 2] < q[|q| - 1];
    }
  }

  /** A soak pass on a V4L2 source certifies that at least 1000 of every 1001 frames
      the driver numbered in that span were delivered. */
  lemma PassDelivers(s: Snapshot, h: History, nominalFps: real, rssBefore: int, rssAfter: int)
    requires Summarizes(s, h) && SoakPasses(s, nominalFps, rssBefore, rssAfter)
    requires Increasing(HwSeqs(h)) && |HwSeqs(h)| == |h|
    ensures 1001 * |h| >= 1000 * (HwSeqs(h)[|h| - 1] - HwSeqs(h)[0] + 1)
  {
    GapsTelescope(HwSeqs(h));
    assert (1000 * s.hwSeqGaps) as real <= s.frames as real;
  }

  // ---- a perfect camera -------------------------------------------------------

  const SEQUENCE_MODULUS: nat := 0x1_0000_0000

  /** Frames exactly one period apart, driver numbers consecutive (they wrap at 32 bits,
      and may pass through 0), no repeated checksum, and a mid-range mean. */
  ghost predicate PerfectRun(h: History, periodNs: nat, firstSeq: nat) {
    && periodNs > 0
    && (forall k :: 0 <= k < |h| ==> h[k].ptsNs == h[0].ptsNs + k * periodNs)
    && (forall k :: 0 <= k < |h| ==> h[k].hwSeq == (firstSeq + k) % SEQUENCE_MODULUS)
    && (forall k :: 0 < k < |h| ==> h[k].checksum != h[k - 1].checksum)
    && (forall k :: 0 <= k < |h| ==> 8.0 <= h[k].y <= 247.0)
  }

  lemma PerfectPrefix(h: History, periodNs: nat, firstSeq: nat)
    requires PerfectRun(h, periodNs, firstSeq) && |h| > 0
    ensures PerfectRun(h[..|h| - 1], periodNs, firstSeq)
  {
  }

  lemma {:induction false} PerfectLevels(h: History, periodNs: nat, firstSeq: nat)
    requires PerfectRun(h, periodNs, firstSeq)
    ensures Stuck(h) == 0 && Black(Ys(h)) == 0 && White(Ys(h)) == 0
  {
    if |h| > 0 {
      PerfectPrefix(h, periodNs, firstSeq);
      PerfectLevels(h[..|h| - 1], periodNs, firstSeq);
      assert Ys(h)[..|h| - 1] == Ys(h[..|h| - 1]);
    }
  }

  /** What the last driver number `w` of a gapless run says about the counted ones. */
  predicate EndsAt(q: seq<nat>, w: nat) {
    if w != 0 then |q| > 0 && q[|q| - 1] == w
    else |q| == 0 || q[|q| - 1] == SEQUENCE_MODULUS - 1
  }

  lemma NextNumber(q: seq<nat>, a: nat)
    requires EndsAt(q, a % SEQUENCE_MODULUS)
    ensures var w := (a + 1) % SEQUENCE_MODULUS;
      if w == 0 then EndsAt(q, w)
      else EndsAt(q + [w], w) && (|q| > 0 ==> Missing(q[|q| - 1], w) == 0)
  {
    var w := a % SEQUENCE_MODULUS;
    assert (a + 1) % SEQUENCE_MODULUS == if w == SEQUENCE_MODULUS - 1 then 0 else w + 1;
  }

  /** Consecutive numbers leave no gap, not even across the wrap to 0. */
  lemma {:induction false} PerfectGaps(h: History, periodNs: nat, firstSeq: nat)
    requires PerfectRun(h, periodNs, firstSeq)
    ensures Gaps(HwSeqs(h)) == 0
    ensures if |h| == 0 then |HwSeqs(h)| == 0
            else EndsAt(HwSeqs(h), (firstSeq + |h| - 1) % SEQUENCE_MODULUS)
  {
    if |h| > 0 {
      hide Gaps, HwSeqs, EndsAt;
      var rest, o := h[..|h| - 1], h[|h| - 1];
      PerfectPrefix(h, periodNs, firstSeq);
      PerfectGaps(rest, periodNs, firstSeq);
      assert h == rest + [o];
      HwSeqsAppend(rest, o);
      GapsAppend(HwSeqs(rest), o.hwSeq);
      if |rest| > 0 {
        NextNumber(HwSeqs(rest), firstSeq + |h| - 2);
      } else {
        FirstNumber(HwSeqs(rest), o.hwSeq);
      }
    }
  }

  lemma FirstNumber(q: seq<nat>, w: nat)
    requires |q| == 0
    ensures if w == 0 then EndsAt(q, w) else EndsAt(q + [w], w)
  {
  }

  lemma PerfectIntervals(h: History, periodNs: nat, firstSeq: nat)
    requires PerfectRun(h, periodNs, firstSeq)
    ensures Variance(Intervals(PtsOf(h))) == 0.0
  {
    var d := Intervals(PtsOf(h));
    forall i | 0 <= i < |d|
      ensures d[i] == Milliseconds(periodNs)
    {
      assert (i + 1) * periodNs == i * periodNs + periodNs;
    }
    ConstantVariance(d, Milliseconds(periodNs));
  }

  /** Index of the first frame of a periodic series at or after the start of bucket b. */
  function FirstFrameOf(b: nat, periodNs: nat): nat
    requires periodNs > 0
  {
    (b * BUCKET_NS + periodNs - 1) / periodNs
  }

  lemma FirstFrameIs(b: nat, periodNs: nat, n: nat)
    requires periodNs > 0
    ensures n >= FirstFrameOf(b, periodNs) <==> n * periodNs >= b * BUCKET_NS
  {
    var x, q := b * BUCKET_NS, FirstFrameOf(b, periodNs);
    DivisionBounds(x + periodNs - 1, periodNs);
    if n >= q {
      assert (n - q) * periodNs >= 0;
    } else {
      assert (q - 1 - n) * periodNs >= 0;
    }
  }

  /** How many of the first `n` frames fall between two frame indices. */
  function Between(n: nat, lo: nat, hi: nat): nat {
    if n <= lo || hi <= lo then 0 else if n <= hi then n - lo else hi - lo
  }

  lemma {:induction false} PerfectBucket(pts: seq<int>, first: int, periodNs: nat, b: nat)
    requires periodNs > 0
    requires forall k :: 0 <= k < |pts| ==> pts[k] == first + k * periodNs
    ensures BucketCount(first, pts, b)
            == Between(|pts|, FirstFrameOf(b, periodNs), FirstFrameOf(b + 1, periodNs))
  {
    if |pts| > 0 {
      var k := |pts| - 1;
      PerfectBucket(pts[..k], first, periodNs, b);
      FirstFrameIs(b, periodNs, k);
      FirstFrameIs(b + 1, periodNs, k);
      FirstFrameStep(b, periodNs);
    }
  }

  lemma CeilingStep(x: int, p: nat, t: nat, c: int, c': int)
    requires p > 0 && t > 0
    requires x <= c * p < x + p && x + t <= c' * p < x + t + p
    ensures c <= c' && (c' - c - 1) * p < t < (c' - c + 1) * p
  {
    assert (c' - c) * p == c' * p - c * p;
    assert (c' - c - 1) * p == (c' - c) * p - p && (c' - c + 1) * p == (c' - c) * p + p;
    if c' < c {
      MulLe(c' - c + 1, 0, p);
    }
  }

  lemma FirstFrameBounds(b: nat, periodNs: nat)
    requires periodNs > 0
    ensures b * BUCKET_NS <= FirstFrameOf(b, periodNs) * periodNs < b * BUCKET_NS + periodNs
  {
    DivisionBounds(b * BUCKET_NS + periodNs - 1, periodNs);
  }

  /** A full 10 s window holds m frames with (m - 1) periods < 10 s < (m + 1) periods. */
  lemma FirstFrameStep(b: nat, periodNs: nat)
    requires periodNs > 0
    ensures FirstFrameOf(b, periodNs) <= FirstFrameOf(b + 1, periodNs)
    ensures var m := FirstFrameOf(b + 1, periodNs) - FirstFrameOf(b, periodNs);
            (m - 1) * periodNs < BUCKET_NS < (m + 1) * periodNs
  {
    hide FirstFrameOf;
    FirstFrameBounds(b, periodNs);
    FirstFrameBounds(b + 1, periodNs);
    CeilingStep(b * BUCKET_NS, periodNs, BUCKET_NS, FirstFrameOf(b, periodNs), FirstFrameOf(b + 1, periodNs));
  }

  lemma {:induction false} FirstFrameMonotone(b: nat, b': nat, periodNs: nat)
    requires periodNs > 0 && b <= b'
    ensures FirstFrameOf(b, periodNs) <= FirstFrameOf(b', periodNs)
    decreases b' - b
  {
    if b < b' {
      FirstFrameStep(b, periodNs);
      FirstFrameMonotone(b + 1, b', periodNs);
    }
  }

  /** The full buckets of a perfect run. */
  lemma PerfectFullBucket(h: History, periodNs: nat, firstSeq: nat, buckets: seq<nat>, b: nat)
    requires PerfectRun(h, periodNs, firstSeq) && |h| > 0
    requires BucketsOk(buckets, FirstPts(h), PtsOf(h))
    requires b + 1 < |buckets|
    ensures buckets[b] == FirstFrameOf(b + 1, periodNs) - FirstFrameOf(b, periodNs)
  {
    hide BucketCount, FirstFrameOf, PtsOf;
    var last := |buckets| - 1;
    PerfectBucket(PtsOf(h), FirstPts(h), periodNs, b);
    PerfectBucket(PtsOf(h), FirstPts(h), periodNs, last);
    FirstFrameStep(b, periodNs);
    FirstFrameMonotone(b + 1, last, periodNs);
    assert buckets[last] == BucketCount(FirstPts(h), PtsOf(h), last);
  }

  // ---- how many full windows there are -------------------------------------------

  /** Full 10 s windows that the tap reports for n frames: those before the window of the last
      frame that still has a bucket. */
  function FullWindows(n: nat, periodNs: nat): int
    requires periodNs > 0
  {
    (Min(n, FirstFrameOf(MAX_BUCKETS, periodNs)) - 1) * periodNs / BUCKET_NS
  }

  /** For periods up to 10 s: one less than the windows the run spans, at most 8639. */
  lemma FullWindowsUpTo10s(n: nat, periodNs: nat)
    requires n > 0 && 0 < periodNs <= BUCKET_NS
    ensures (n - 1) * periodNs >= 0
    ensures FullWindows(n, periodNs) == Min((n - 1) * periodNs / BUCKET_NS, MAX_BUCKETS - 1)
  {
    hide FirstFrameOf;
    var cap := FirstFrameOf(MAX_BUCKETS, periodNs);
    FirstFrameBounds(MAX_BUCKETS, periodNs);
    MulStep(cap, periodNs);
    MulLe(0, n - 1, periodNs);
    if n <= cap {
      MulLe(n, cap, periodNs);
      MulStep(n, periodNs);
    } else {
      MulLe(cap, n - 1, periodNs);
    }
  }

  /** Frame j of a periodic series lies in the window its offset divides into. */
  lemma FrameWindow(pts: seq<int>, first: int, periodNs: nat, j: nat, b: nat)
    requires j < |pts| && pts[j] == first + j * periodNs
    ensures InBucket(first, pts[j], b) <==> b == j * periodNs / BUCKET_NS
  {
    MulLe(0, j, periodNs);
    BucketIndex(first, pts[j], b);
  }

  /** The last frame below the cap determines the last bucket. */
  lemma LastBucket(pts: seq<int>, first: int, periodNs: nat, buckets: seq<nat>)
    requires periodNs > 0 && |pts| > 0
    requires forall k :: 0 <= k < |pts| ==> pts[k] == first + k * periodNs
    requires BucketsOk(buckets, first, pts)
    ensures |buckets| == FullWindows(|pts|, periodNs) + 1
  {
    hide BucketCount, InBucket, FirstFrameOf;
    var cap := FirstFrameOf(MAX_BUCKETS, periodNs);
    FirstFrameIs(MAX_BUCKETS, periodNs, 0);
    var i := Min(|pts|, cap) - 1;
    var w := i * periodNs / BUCKET_NS;
    MulLe(0, i, periodNs);
    FirstFrameIs(MAX_BUCKETS, periodNs, i);
    FrameWindow(pts, first, periodNs, i, w);
    BucketMembership(first, pts, w);
    assert |buckets| > w;
    var last := |buckets| - 1;
    BucketMembership(first, pts, last);
    var j: nat :| j < |pts| && InBucket(first, pts[j], last);
    FrameWindow(pts, first, periodNs, j, last);
    FirstFrameIs(MAX_BUCKETS, periodNs, j);
    MulLe(j, i, periodNs);
  }

  // ---- when the counts are even enough ---------------------------------------------

  /** Frames of a periodic camera in the b-th window. */
  function WindowCount(b: nat, periodNs: nat): int
    requires periodNs > 0
  {
    FirstFrameOf(b + 1, periodNs) - FirstFrameOf(b, periodNs)
  }

  /** No window holds less than 85% or more than 115% of the mean over k windows. */
  ghost predicate EvenWindows(k: int, periodNs: nat)
    requires periodNs > 0
  {
    forall b :: 0 <= b < k ==> EvenWindow(b, k, periodNs)
  }

  predicate EvenWindow(b: nat, k: nat, periodNs: nat)
    requires periodNs > 0
  {
    var total := FirstFrameOf(k, periodNs);
    17 * total <= 20 * (k * WindowCount(b, periodNs)) <= 23 * total
  }

  lemma ScaleLe(a: real, b: real, k: real)
    requires k > 0.0
    ensures a <= b <==> a * k <= b * k
  {
    if a <= b {
      assert (b - a) * k >= 0.0;
    } else {
      assert (a - b) * k > 0.0;
    }
  }

  lemma Tolerance(x: real, m: real, d: real, n: real, s: real)
    requires d > 0.0 && m * d == s && x * d == n
    ensures 0.85 * m <= x <= 1.15 * m <==> 0.85 * s <= n <= 1.15 * s
  {
    ScaleLe(0.85 * m, x, d);
    ScaleLe(x, 1.15 * m, d);
    Regroup(m, d, s);
  }

  lemma Regroup(m: real, d: real, s: real)
    requires m * d == s
    ensures (0.85 * m) * d == 0.85 * s && (1.15 * m) * d == 1.15 * s
  {
  }

  lemma SagsBeyond(c: nat, m: real)
    ensures !Sags(c, m) <==> 0.85 * m <= c as real <= 1.15 * m
  {
  }

  lemma ProductAsReal(k: nat, c: nat)
    ensures (c as real) * (k as real) == (k * c) as real
  {
  }

  /** The judge's tolerance in whole numbers. */
  lemma SagsIff(c: nat, m: real, sum: nat, k: nat)
    requires k > 0 && m * (k as real) == sum as real
    ensures !Sags(c, m) <==> 17 * sum <= 20 * (k * c) <= 23 * sum
  {
    hide Sags;
    SagsBeyond(c, m);
    ProductAsReal(k, c);
    var n := k * c;
    Tolerance(c as real, m, k as real, n as real, sum as real);
    Whole(n, sum);
  }

  lemma Whole(a: int, b: int)
    ensures 0.85 * (b as real) <= a as real <==> 17 * b <= 20 * a
    ensures a as real <= 1.15 * (b as real) <==> 20 * a <= 23 * b
  {
    assert (17 * b) as real == 17.0 * (b as real) && (20 * a) as real == 20.0 * (a as real);
    assert (23 * b) as real == 23.0 * (b as real);
  }

  lemma {:induction false} CountsTelescope(full: seq<nat>, periodNs: nat)
    requires periodNs > 0
    requires forall b :: 0 <= b < |full| ==> full[b] == WindowCount(b, periodNs)
    ensures NatSum(full) == FirstFrameOf(|full|, periodNs)
  {
    if |full| > 0 {
      CountsTelescope(full[..|full| - 1], periodNs);
    }
  }

  lemma NoSagIffEven(full: seq<nat>, periodNs: nat)
    requires periodNs > 0
    requires forall b :: 0 <= b < |full| ==> full[b] == WindowCount(b, periodNs)
    ensures NoSag(full) <==> EvenWindows(|full|, periodNs)
  {
    hide FirstFrameOf, WindowCount, NatSum, Sags;
    CountsTelescope(full, periodNs);
    forall b | 0 <= b < |full|
      ensures !Sags(full[b], NatMean(full)) <==> EvenWindow(b, |full|, periodNs)
    {
      SagsIff(full[b], NatMean(full), NatSum(full), |full|);
    }
  }

  /** The bucket clause on a perfect run, decided by the period and the number of frames. */
  lemma PerfectNoSag(h: History, periodNs: nat, firstSeq: nat, buckets: seq<nat>)
    requires PerfectRun(h, periodNs, firstSeq) && |h| > 0
    requires BucketsOk(buckets, FirstPts(h), PtsOf(h))
    ensures NoSag(FullBuckets(buckets)) <==> EvenWindows(FullWindows(|h|, periodNs), periodNs)
  {
    assert |PtsOf(h)| == |h|;
    hide PerfectRun, BucketsOk, FirstFrameOf, NoSag, FullWindows, EvenWindows, PtsOf, NatSum, NatMean;
    PerfectTimes(h, periodNs, firstSeq);
    LastBucket(PtsOf(h), FirstPts(h), periodNs, buckets);
    var full := FullBuckets(buckets);
    forall b | 0 <= b < |full|
      ensures full[b] == WindowCount(b, periodNs)
    {
      PerfectFullBucket(h, periodNs, firstSeq, buckets, b);
    }
    NoSagIffEven(full, periodNs);
  }

  lemma PerfectTimes(h: History, periodNs: nat, firstSeq: nat)
    requires PerfectRun(h, periodNs, firstSeq) && |h| > 0
    ensures periodNs > 0
    ensures forall k :: 0 <= k < |PtsOf(h)| ==> PtsOf(h)[k] == FirstPts(h) + k * periodNs
  {
  }

  lemma SteadyIsNotJittery(s: Snapshot, nominalFps: real)
    requires s.intervalVariance == 0.0
    ensures !TooJittery(s, nominalFps)
  {
    if nominalFps > 0.0 {
      var t := 0.2 * (1000.0 / nominalFps);
      assert t > 0.0;
      assert t * t > 0.0;
    }
  }

  /** Enough frames, memory in bounds, and windows that are even enough, which the period and the
      number of frames decide. */
  ghost predicate PerfectPasses(n: nat, periodNs: nat, growthKb: int) {
    periodNs > 0 && n >= MIN_SOAK_FRAMES && growthKb < MAX_RSS_GROWTH_KB
    && EvenWindows(FullWindows(n, periodNs), periodNs)
  }

  /** When a perfect camera passes the soak, exactly. */
  lemma PerfectCameraPassesIff(
      s: Snapshot, h: History, periodNs: nat, firstSeq: nat,
      nominalFps: real, rssBefore: int, rssAfter: int)
    requires Summarizes(s, h) && PerfectRun(h, periodNs, firstSeq)
    ensures SoakPasses(s, nominalFps, rssBefore, rssAfter) <==> PerfectPasses(|h|, periodNs, rssAfter - rssBefore)
  {
    hide PerfectRun, Summarizes, NoSag, TooJittery, EvenWindows, FullWindows, FullBuckets;
    PerfectClauses(s, h, periodNs, firstSeq, nominalFps);
  }

  /** All clauses but the frame count, the memory and the buckets hold; the buckets are decided. */
  lemma PerfectClauses(s: Snapshot, h: History, periodNs: nat, firstSeq: nat, nominalFps: real)
    requires Summarizes(s, h) && PerfectRun(h, periodNs, firstSeq)
    ensures periodNs > 0 && s.frames == |h|
    ensures s.hwSeqGaps == 0 && s.stuckFrames == 0 && s.blackFrames == 0 && s.whiteFrames == 0
    ensures !TooJittery(s, nominalFps)
    ensures |h| > 0 ==> (NoSag(FullBuckets(s.per10sFrames)) <==> EvenWindows(FullWindows(|h|, periodNs), periodNs))
  {
    assert periodNs > 0;
    hide PerfectRun, Mean, Ys, Us, Vs, PtsOf, FullBuckets, Gaps, HwSeqs, Stuck, Black, White, Intervals, Variance,
      BucketsOk, ExtremesOk, NoSag, TooJittery, EvenWindows, FullWindows;
    PerfectLevels(h, periodNs, firstSeq);
    PerfectGaps(h, periodNs, firstSeq);
    PerfectIntervals(h, periodNs, firstSeq);
    assert s.intervalVariance == 0.0;
    SteadyIsNotJittery(s, nominalFps);
    if |h| > 0 {
      PerfectNoSag(h, periodNs, firstSeq, s.per10sFrames);
    }
  }

  // ---- periods for which every run passes ----------------------------------------------

  lemma WindowCounts(m: int, m': int, p: nat, t: nat)
    requires (m - 1) * p < t < (m + 1) * p && (m' - 1) * p < t < (m' + 1) * p
    ensures m <= m' + 1
  {
    if m > m' + 1 {
      MulLe(m' + 1, m - 1, p);
    }
  }

  /** Up to 23/14 s a window holds at least 6 frames, and too few to exceed 115% of 10 s. */
  lemma CountInBounds(c: int, p: nat)
    requires p > 0 && 14 * p <= 23_000_000_000
    requires (c - 1) * p < BUCKET_NS < (c + 1) * p
    ensures 6 <= c && 20 * (c * p) <= 23 * BUCKET_NS
  {
    MulStep(c, p);
    if c < 6 {
      MulLe(c + 1, 6, p);
    } else if c <= 7 {
      MulLe(c, 7, p);
    } else {
      MulLe(8, c, p);
    }
  }

  lemma {:induction false} TotalAtMost(k: nat, periodNs: nat, m: int)
    requires periodNs > 0
    requires forall b :: 0 <= b < k ==> WindowCount(b, periodNs) <= m
    ensures FirstFrameOf(k, periodNs) <= k * m
  {
    if k == 0 {
      FirstFrameIs(0, periodNs, 0);
    } else {
      hide FirstFrameOf;
      TotalAtMost(k - 1, periodNs, m);
      MulStep(k, m);
      assert WindowCount(k - 1, periodNs) <= m;
    }
  }

  lemma EvenIfInBounds(c: int, k: nat, p: nat, total: nat)
    requires p > 0 && k > 0 && 6 <= c && 20 * (c * p) <= 23 * BUCKET_NS
    requires k * BUCKET_NS <= total * p && total <= k * (c + 1)
    ensures 17 * total <= 20 * (k * c) <= 23 * total
  {
    assert k * (c + 1) == k * c + k;
    assert 3 * (k * c) >= 17 * k by {
      MulLe(6, c, k);
    }
    MulLe(20 * (c * p), 23 * BUCKET_NS, k);
    assert (20 * (k * c)) * p == (20 * (c * p)) * k;
    assert (23 * total) * p == 23 * (total * p);
    CancelLe(20 * (k * c), 23 * total, p);
  }

  lemma CancelLe(a: int, b: int, p: nat)
    requires p > 0 && a * p <= b * p
    ensures a <= b
  {
    if a > b {
      MulLe(b + 1, a, p);
      MulStep(b, p);
    }
  }

  /** Whatever the number of windows, periods up to 23/14 s fill them evenly enough. */
  lemma ShortPeriodIsEven(k: int, periodNs: nat)
    requires periodNs > 0 && 14 * periodNs <= 23_000_000_000
    ensures EvenWindows(k, periodNs)
  {
    hide FirstFrameOf;
    forall b | 0 <= b < k
      ensures EvenWindow(b, k, periodNs)
    {
      var c := WindowCount(b, periodNs);
      FirstFrameStep(b, periodNs);
      CountInBounds(c, periodNs);
      forall j | 0 <= j < k
        ensures WindowCount(j, periodNs) <= c + 1
      {
        FirstFrameStep(j, periodNs);
        WindowCounts(WindowCount(j, periodNs), c, periodNs, BUCKET_NS);
      }
      TotalAtMost(k, periodNs, c + 1);
      FirstFrameBounds(k, periodNs);
      EvenIfInBounds(c, k, periodNs, FirstFrameOf(k, periodNs));
    }
  }

  /** A perfect camera with a period up to 23/14 s (so any up to 1 s) passes the soak: any length
      from 100 frames, any starting timestamp and driver number, any nominal rate. */
  lemma PerfectCameraPasses(
      s: Snapshot, h: History, periodNs: nat, firstSeq: nat,
      nominalFps: real, rssBefore: int, rssAfter: int)
    requires Summarizes(s, h)
    requires PerfectRun(h, periodNs, firstSeq) && |h| >= MIN_SOAK_FRAMES
    requires 14 * periodNs <= 23_000_000_000
    requires rssAfter - rssBefore < MAX_RSS_GROWTH_KB
    ensures SoakPasses(s, nominalFps, rssBefore, rssAfter)
  {
    hide PerfectRun, SoakPasses, Summarizes, EvenWindows, FullWindows;
    PerfectCameraPassesIff(s, h, periodNs, firstSeq, nominalFps, rssBefore, rssAfter);
    RunHasPeriod(h, periodNs, firstSeq);
    ShortPeriodIsEven(FullWindows(|h|, periodNs), periodNs);
  }

  lemma RunHasPeriod(h: History, periodNs: nat, firstSeq: nat)
    requires PerfectRun(h, periodNs, firstSeq)
    ensures periodNs > 0
  {
  }

  const SLOW_PERIOD_NS: nat := 1_650_000_000

  /** Just above 23/14 s a perfect camera can fail: at 1.65 s, 100 frames span sixteen full windows,
      the first with 7 frames and the others with 6, and 7 is more than 115% of the mean 97/16. */
  lemma SlowPerfectCameraFails(
      s: Snapshot, h: History, firstSeq: nat, nominalFps: real, rssBefore: int, rssAfter: int)
    requires Summarizes(s, h)
    requires PerfectRun(h, SLOW_PERIOD_NS, firstSeq) && |h| == MIN_SOAK_FRAMES
    ensures !SoakPasses(s, nominalFps, rssBefore, rssAfter)
  {
    hide PerfectRun, SoakPasses, Summarizes;
    PerfectCameraPassesIff(s, h, SLOW_PERIOD_NS, firstSeq, nominalFps, rssBefore, rssAfter);
    FullWindowsUpTo10s(MIN_SOAK_FRAMES, SLOW_PERIOD_NS);
    assert FullWindows(MIN_SOAK_FRAMES, SLOW_PERIOD_NS) == 16;
    assert FirstFrameOf(16, SLOW_PERIOD_NS) == 97;
    assert WindowCount(0, SLOW_PERIOD_NS) == 7;
    assert !EvenWindow(0, 16, SLOW_PERIOD_NS);
  }

  /** The frames of one soak, as the tap will see them. */
  function Observations(frames: seq<VideoFrame>): (h: History)
    requires forall i :: 0 <= i < |frames| ==> Readable(frames[i])
    ensures |h| <= |frames|
  {
    if |frames| == 0 then []
    else
      var rest, f := Observations(frames[..|frames| - 1]), frames[|frames| - 1];
      if Accepted(f) then rest + [Observe(f)] else rest
  }

  lemma NoObservations(frames: seq<VideoFrame>)
    requires |frames| == 0
    ensures Observations(frames) == []
  {
  }

  lemma ObservationsStep(frames: seq<VideoFrame>, i: nat)
    requires forall k :: 0 <= k < |frames| ==> Readable(frames[k])
    requires i < |frames|
    ensures Observations(frames[..i + 1]) ==
            Observations(frames[..i]) + (if Accepted(frames[i]) then [Observe(frames[i])] else [])
  {
    assert frames[..i + 1][..i] == frames[..i];
  }

  // ---- perfect cameras exist ----------------------------------------------------------

  /** The smallest picture: one grey pixel. */
  function OnePixel(level: Byte, ptsNs: int, hwSeq: nat): VideoFrame {
    VideoFrame(1, 1, Gray8, Some([level]), 1, 1, None, 0, None, 0, ptsNs, hwSeq)
  }

  lemma OneSample(mem: seq<Byte>, one: nat)
    requires one == 1 && |mem| == 1
    ensures SampleCount(one) == 1 && RowsFit(mem, one, one, one)
    ensures PlaneSamples(Some(mem), one, one, one) == mem
  {
    hide GridSamples;
    GridSampleAt(mem, one, one, one, 1, 0, 0);
  }

  lemma OneByteMean(s: seq<Byte>)
    requires |s| == 1
    ensures ByteMean(s) == s[0] as int as real
  {
    var rest := s[..|s| - 1];
    assert ByteSum(rest) == 0;
  }

  lemma OnePixelObserved(level: Byte, ptsNs: int, hwSeq: nat)
    ensures var f := OnePixel(level, ptsNs, hwSeq);
      && Accepted(f) && Readable(f)
      && Observe(f) == Observation(level as int as real, 0.0, 0.0, Fold(OFFSET_BASIS, [level]), ptsNs, hwSeq, 1, 1)
  {
    hide Fold, PlaneSamples, ByteMean, RowsFit, SampleCount;
    var f := OnePixel(level, ptsNs, hwSeq);
    OneSample([level], 1);
    OneByteMean([level]);
    NoBytesMean(USamples(f));
    assert SampledBytes(f) == [level];
  }

  lemma NoBytesMean(s: seq<Byte>)
    requires |s| == 0
    ensures ByteMean(s) == 0.0
  {
  }

  function PerfectFrame(k: nat, periodNs: nat, firstSeq: nat, start: int): VideoFrame {
    OnePixel(if k % 2 == 0 then 100 else 101, start + k * periodNs, (firstSeq + k) % SEQUENCE_MODULUS)
  }

  predicate ObservedAs(o: Observation, k: nat, periodNs: nat, firstSeq: nat, start: int) {
    && o.ptsNs == start + k * periodNs && o.hwSeq == (firstSeq + k) % SEQUENCE_MODULUS && 8.0 <= o.y <= 247.0
    && o.checksum == Fold(OFFSET_BASIS, [if k % 2 == 0 then 100 else 101])
  }

  lemma PerfectFrameObserved(k: nat, periodNs: nat, firstSeq: nat, start: int)
    ensures var f := PerfectFrame(k, periodNs, firstSeq, start);
      Accepted(f) && Readable(f) && ObservedAs(Observe(f), k, periodNs, firstSeq, start)
  {
    hide Observe, Fold, OnePixel;
    OnePixelObserved(if k % 2 == 0 then 100 else 101, start + k * periodNs, (firstSeq + k) % SEQUENCE_MODULUS);
  }

  lemma AlternatingChecksums(k: nat)
    ensures Fold(OFFSET_BASIS, [if k % 2 == 0 then 100 else 101])
         != Fold(OFFSET_BASIS, [if (k + 1) % 2 == 0 then 100 else 101])
  {
    hide Fold;
    var even: seq<Byte> := [100];
    OneByteChangesHash(OFFSET_BASIS, even, 0, 101);
    assert even[0 := 101] == [101];
  }

  /** Frames of a perfect camera, as a driver could deliver them, exist for every length, period
      and starting point; so the soak's promises are about something. */
  lemma {:induction false} PerfectCamerasExist(n: nat, periodNs: nat, firstSeq: nat, start: int)
    returns (frames: seq<VideoFrame>)
    requires periodNs > 0
    ensures |frames| == n && forall i :: 0 <= i < n ==> Readable(frames[i])
    ensures |Observations(frames)| == n
    ensures forall k :: 0 <= k < n ==> ObservedAs(Observations(frames)[k], k, periodNs, firstSeq, start)
    ensures PerfectRun(Observations(frames), periodNs, firstSeq)
  {
    hide Observe, Accepted, Readable, PerfectFrame, ObservedAs, PerfectRun;
    frames := [];
    if n > 0 {
      var before := PerfectCamerasExist(n - 1, periodNs, firstSeq, start);
      PerfectFrameObserved(n - 1, periodNs, firstSeq, start);
      frames := before + [PerfectFrame(n - 1, periodNs, firstSeq, start)];
      assert frames[..n - 1] == before;
    }
    AlikeIsPerfect(Observations(frames), periodNs, firstSeq, start);
  }

  lemma AlikeIsPerfect(h: History, periodNs: nat, firstSeq: nat, start: int)
    requires periodNs > 0
    requires forall k :: 0 <= k < |h| ==> ObservedAs(h[k], k, periodNs, firstSeq, start)
    ensures PerfectRun(h, periodNs, firstSeq)
  {
    hide Fold;
    assert |h| > 0 ==> ObservedAs(h[0], 0, periodNs, firstSeq, start);
    forall k | 0 <= k < |h|
      ensures h[k].ptsNs == h[0].ptsNs + k * periodNs
    {
      assert ObservedAs(h[k], k, periodNs, firstSeq, start);
    }
    forall k | 0 < k < |h|
      ensures h[k].checksum != h[k - 1].checksum
    {
      assert ObservedAs(h[k - 1], k - 1, periodNs, firstSeq, start);
      AlternatingChecksums(k - 1);
    }
  }

  /** A soak, end to end: reset the tap, let the source deliver, take a snapshot, judge it. On the
      frames of a perfect camera the verdict is decided by the period and the number of frames. */
  method Soak(tap: FrameTap, frames: seq<VideoFrame>, nominalFps: real, rssBefore: int, rssAfter: int)
    returns (r: SoakResult)
    requires tap.Valid()
    requires forall i :: 0 <= i < |frames| ==> Readable(frames[i])
    modifies tap
    ensures tap.Valid() && tap.history == Observations(frames)
    ensures forall period: nat, firstSeq: nat :: PerfectRun(Observations(frames), period, firstSeq) ==>
      (r.status.Pass? <==> PerfectPasses(|Observations(frames)|, period, rssAfter - rssBefore))
    ensures forall period: nat, firstSeq: nat ::
      PerfectRun(Observations(frames), period, firstSeq)
      && |Observations(frames)| >= MIN_SOAK_FRAMES
      && 14 * period <= 23_000_000_000
      && rssAfter - rssBefore < MAX_RSS_GROWTH_KB
      ==> r.status.Pass?
  {
    hide PerfectRun, SoakPasses, Summarizes, Observations, Accepted, Readable, Observe, FrameTap.Valid,
      PerfectPasses, FirstFailing;
    NoObservations(frames[..0]);
    tap.Reset();
    for i := 0 to |frames|
      invariant tap.Valid()
      invariant tap.history == Observations(frames[..i])
    {
      tap.OnFrame(frames[i]);
      ObservationsStep(frames, i);
    }
    assert frames[..|frames|] == frames;
    var s := tap.Take();
    r := CheckSoak(s, nominalFps, rssBefore, rssAfter);
    forall period: nat, firstSeq: nat | PerfectRun(tap.history, period, firstSeq)
      ensures r.status.Pass? <==> PerfectPasses(|tap.history|, period, rssAfter - rssBefore)
    {
      PerfectCameraPassesIff(s, tap.history, period, firstSeq, nominalFps, rssBefore, rssAfter);
    }
    forall period: nat, firstSeq: nat |
      PerfectRun(tap.history, period, firstSeq)
      && |tap.history| >= MIN_SOAK_FRAMES
      && 14 * period <= 23_000_000_000
      && rssAfter - rssBefore < MAX_RSS_GROWTH_KB
      ensures r.status.Pass?
    {
      PerfectCameraPasses(s, tap.history, period, firstSeq, nominalFps, rssBefore, rssAfter);
    }
  }
}
