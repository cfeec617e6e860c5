/** What every aggregate of the frame tap means, as functions of the history of
    accepted frames since the last Reset. */
module TapHistory {
  import opened VideoFrames
  import opened FrameSampling
  import opened Statistics

  type History = seq<Observation>

  const MAX_PTS_ENTRIES: nat := 4096
  const MAX_RECENT_MEANS: nat := 256
  const BUCKET_NS: nat := 10_000_000_000
  const MAX_BUCKETS: nat := 8640

  function Ys(h: History): (s: seq<real>)
    ensures |s| == |h| && forall i :: 0 <= i < |h| ==> s[i] == h[i].y
  {
    if |h| == 0 then [] else Ys(h[..|h| - 1]) + [h[|h| - 1].y]
  }

  function Us(h: History): (s: seq<real>)
    ensures |s| == |h| && forall i :: 0 <= i < |h| ==> s[i] == h[i].u
  {
    if |h| == 0 then [] else Us(h[..|h| - 1]) + [h[|h| - 1].u]
  }

  function Vs(h: History): (s: seq<real>)
    ensures |s| == |h| && forall i :: 0 <= i < |h| ==> s[i] == h[i].v
  {
    if |h| == 0 then [] else Vs(h[..|h| - 1]) + [h[|h| - 1].v]
  }

  function PtsOf(h: History): (s: seq<int>)
    ensures |s| == |h| && forall i :: 0 <= i < |h| ==> s[i] == h[i].ptsNs
  {
    if |h| == 0 then [] else PtsOf(h[..|h| - 1]) + [h[|h| - 1].ptsNs]
  }

  function Milliseconds(ns: int): real { (ns as real) / 1000000.0 }

  function Pred(n: nat): nat { if n == 0 then 0 else n - 1 }

  /** Successive timestamp differences, in milliseconds. */
  function Intervals(pts: seq<int>): (d: seq<real>)
    ensures |d| == Pred(|pts|)
    ensures forall i :: 0 <= i < |d| ==> d[i] == Milliseconds(pts[i + 1] - pts[i])
  {
    seq(Pred(|pts|), i requires 0 <= i < Pred(|pts|) => Milliseconds(pts[i + 1] - pts[i]))
  }

  /** The driver's sequence numbers; 0 marks a frame without one. */
  function HwSeqs(h: History): (q: seq<nat>)
    ensures forall i :: 0 <= i < |q| ==> q[i] != 0
  {
    if |h| == 0 then []
    else
      var rest := HwSeqs(h[..|h| - 1]);
      if h[|h| - 1].hwSeq == 0 then rest else rest + [h[|h| - 1].hwSeq]
  }

  function Missing(a: nat, b: nat): nat {
    if b - a - 1 > 0 then b - a - 1 else 0
  }

  /** Numbers the driver skipped between consecutive delivered ones. */
  function Gaps(q: seq<nat>): nat {
    if |q| < 2 then 0 else Gaps(q[..|q| - 1]) + Missing(q[|q| - 2], q[|q| - 1])
  }

  /** Frames whose checksum repeats the previous frame's. */
  function Stuck(h: History): nat {
    if |h| < 2 then 0
    else Stuck(h[..|h| - 1]) + (if h[|h| - 1].checksum == h[|h| - 2].checksum then 1 else 0)
  }

  function Black(ys: seq<real>): nat {
    if |ys| == 0 then 0 else Black(ys[..|ys| - 1]) + (if ys[|ys| - 1] < 8.0 then 1 else 0)
  }

  function White(ys: seq<real>): nat {
    if |ys| == 0 then 0 else White(ys[..|ys| - 1]) + (if ys[|ys| - 1] > 247.0 then 1 else 0)
  }

  /** Time `t` lies in the b-th 10 second window after `first`. */
  predicate InBucket(first: int, t: int, b: nat) {
    b * BUCKET_NS <= t - first < (b + 1) * BUCKET_NS
  }

  /** How many of the timestamps lie in the b-th 10 second window after `first`. */
  function BucketCount(first: int, pts: seq<int>, b: nat): nat {
    if |pts| == 0 then 0
    else BucketCount(first, pts[..|pts| - 1], b) + (if InBucket(first, pts[|pts| - 1], b) then 1 else 0)
  }

  function FirstPts(h: History): int { if |h| == 0 then 0 else h[0].ptsNs }

  datatype MeanSample = MeanSample(ptsNs: int, meanY: real)

  function SampleOf(o: Observation): MeanSample { MeanSample(o.ptsNs, o.y) }

  /** The last `n` samples, oldest first. */
  function LastSamples(h: History, n: nat): seq<MeanSample>
    requires n <= |h|
  {
    seq(n, i requires 0 <= i < n => SampleOf(h[|h| - n + i]))
  }

  function Min(a: nat, b: nat): nat { if a <= b then a else b }

  datatype Snapshot = Snapshot(
    frames: nat,
    ptsNs: seq<int>,
    meanY: real, meanU: real, meanV: real,
    width: int, height: int,
    hwSeqGaps: nat,
    stuckFrames: nat, blackFrames: nat, whiteFrames: nat,
    intervalMeanMs: real,
    intervalVariance: real,  // the square of the source's interval_stddev_ms
    intervalMinMs: real, intervalMaxMs: real,
    per10sFrames: seq<nat>)

  const EMPTY_SNAPSHOT :=
    Snapshot(0, [], 0.0, 0.0, 0.0, 0, 0, 0, 0, 0, 0, 0.0, 0.0, 0.0, 0.0, [])

  /** The bucket vector counts every frame at its offset from the first one, and ends
      with the last window that holds a frame. */
  ghost predicate BucketsOk(buckets: seq<nat>, first: int, pts: seq<int>) {
    && |buckets| <= MAX_BUCKETS
    && (forall b :: 0 <= b < |buckets| ==> buckets[b] == BucketCount(first, pts, b))
    && (forall b :: |buckets| <= b < MAX_BUCKETS ==> BucketCount(first, pts, b) == 0)
    && (|buckets| > 0 ==> buckets[|buckets| - 1] > 0)
  }

  ghost predicate ExtremesOk(d: seq<real>, min: real, max: real) {
    if |d| == 0 then min == max == 0.0 else IsMin(d, min) && IsMax(d, max)
  }

  ghost predicate MeansOk(s: Snapshot, h: History) {
    && s.frames == |h|
    && s.ptsNs == PtsOf(h)[..Min(|h|, MAX_PTS_ENTRIES)]
    && s.meanY == Mean(Ys(h)) && s.meanU == Mean(Us(h)) && s.meanV == Mean(Vs(h))
    && s.width == (if |h| == 0 then 0 else h[|h| - 1].width)
    && s.height == (if |h| == 0 then 0 else h[|h| - 1].height)
  }

  ghost predicate LevelsOk(stuck: nat, black: nat, white: nat, h: History) {
    stuck == Stuck(h) && black == Black(Ys(h)) && white == White(Ys(h))
  }

  /** A snapshot says of the history exactly what its field comments promise. */
  ghost predicate Summarizes(s: Snapshot, h: History) {
    && MeansOk(s, h)
    && s.hwSeqGaps == Gaps(HwSeqs(h))
    && LevelsOk(s.stuckFrames, s.blackFrames, s.whiteFrames, h)
    && s.intervalMeanMs == Mean(Intervals(PtsOf(h)))
    && s.intervalVariance == Variance(Intervals(PtsOf(h)))
    && ExtremesOk(Intervals(PtsOf(h)), s.intervalMinMs, s.intervalMaxMs)
    && BucketsOk(s.per10sFrames, FirstPts(h), PtsOf(h))
  }

  // ---- one more frame --------------------------------------------------------

  lemma ColumnsAppend(h: History, o: Observation)
    ensures Ys(h + [o]) == Ys(h) + [o.y]
    ensures Us(h + [o]) == Us(h) + [o.u]
    ensures Vs(h + [o]) == Vs(h) + [o.v]
    ensures PtsOf(h + [o]) == PtsOf(h) + [o.ptsNs]
  {
    assert (h + [o])[..|h|] == h;
  }

  lemma IntervalsAppend(pts: seq<int>, t: int)
    requires |pts| > 0
    ensures Intervals(pts + [t]) == Intervals(pts) + [Milliseconds(t - pts[|pts| - 1])]
  {
    hide Intervals, Milliseconds;
    var d, e := Intervals(pts + [t]), Intervals(pts) + [Milliseconds(t - pts[|pts| - 1])];
    forall i | 0 <= i < |e|
      ensures d[i] == e[i]
    {
      assert d[i] == Milliseconds((pts + [t])[i + 1] - (pts + [t])[i]);
    }
  }

  lemma HwSeqsAppend(h: History, o: Observation)
    ensures HwSeqs(h + [o]) == if o.hwSeq == 0 then HwSeqs(h) else HwSeqs(h) + [o.hwSeq]
  {
    assert (h + [o])[..|h|] == h;
  }

  lemma GapsAppend(q: seq<nat>, x: nat)
    ensures Gaps(q + [x]) == if |q| == 0 then 0 else Gaps(q) + Missing(q[|q| - 1], x)
  {
    assert (q + [x])[..|q|] == q;
  }

  lemma StuckAppend(h: History, o: Observation)
    ensures Stuck(h + [o]) ==
            Stuck(h) + (if |h| > 0 && o.checksum == h[|h| - 1].checksum then 1 else 0)
  {
    assert (h + [o])[..|h|] == h;
  }

  /** A frame that repeats the previous one in every sampled byte is counted as stuck. */
  lemma RepeatIsStuck(h: History, f: VideoFrame, g: VideoFrame)
    requires Accepted(f) && Readable(f) && Accepted(g) && Readable(g)
    requires |h| > 0 && h[|h| - 1] == Observe(f) && SampledBytes(f) == SampledBytes(g)
    ensures Stuck(h + [Observe(g)]) == Stuck(h) + 1
  {
    StuckAppend(h, Observe(g));
  }

  /** One changed byte among the samples is enough not to be counted. */
  lemma ChangeIsNotStuck(h: History, f: VideoFrame, g: VideoFrame, i: nat)
    requires Accepted(f) && Readable(f) && Accepted(g) && Readable(g)
    requires |h| > 0 && h[|h| - 1] == Observe(f) && DifferAt(SampledBytes(f), SampledBytes(g), i)
    ensures Stuck(h + [Observe(g)]) == Stuck(h)
  {
    StuckAppend(h, Observe(g));
    OneSampleChangesChecksum(f, g, i);
  }

  lemma BlackWhiteAppend(ys: seq<real>, y: real)
    ensures Black(ys + [y]) == Black(ys) + (if y < 8.0 then 1 else 0)
    ensures White(ys + [y]) == White(ys) + (if y > 247.0 then 1 else 0)
  {
    assert (ys + [y])[..|ys|] == ys;
  }

  lemma BucketCountAppend(first: int, pts: seq<int>, t: int, b: nat)
    ensures BucketCount(first, pts + [t], b) ==
            BucketCount(first, pts, b) + (if InBucket(first, t, b) then 1 else 0)
  {
    assert (pts + [t])[..|pts|] == pts;
  }

  /** Exactly one window holds a given non-negative offset: the one the source computes. */
  lemma BucketIndex(first: int, t: int, b: nat)
    ensures InBucket(first, t, b) <==> t >= first && b == (t - first) / BUCKET_NS
  {
  }

  lemma {:induction false} BucketMembership(first: int, pts: seq<int>, b: nat)
    ensures BucketCount(first, pts, b) > 0 <==> exists i :: 0 <= i < |pts| && InBucket(first, pts[i], b)
  {
    if |pts| > 0 {
      BucketMembership(first, pts[..|pts| - 1], b);
    }
  }
}
