/** The frame tap: constant-work accumulators behind the qualification checks. */
module FrameTaps {
  import opened PixelFormats
  import opened VideoFrames
  import opened Fnv1a
  import opened FrameSampling
  import opened Statistics
  import opened TapHistory

  ghost predicate HwCarry(hasPrev: bool, prev: nat, h: History) {
    && (hasPrev <==> |HwSeqs(h)| > 0)
    && (hasPrev ==> prev == HwSeqs(h)[|HwSeqs(h)| - 1])
  }

  ghost predicate ChecksumCarry(hasPrev: bool, prev: Hash, h: History) {
    && (hasPrev <==> |h| > 0)
    && (hasPrev ==> prev == h[|h| - 1].checksum)
  }

  ghost predicate PtsCarry(hasPrev: bool, prev: int, first: int, h: History) {
    && (hasPrev <==> |h| > 0)
    && (hasPrev ==> prev == h[|h| - 1].ptsNs && first == h[0].ptsNs)
  }

  ghost predicate WelfordOk(n: nat, mean: real, m2: real, d: seq<real>) {
    n == |d| && mean == Mean(d) && m2 == SquaredDeviation(d, mean)
  }

  /** The ring holds sample j of the history at slot j mod 256, for the last 256 of them. */
  ghost predicate RingOk(recent: seq<MeanSample>, next: nat, h: History) {
    && |recent| == Min(|h|, MAX_RECENT_MEANS)
    && next == (if |h| < MAX_RECENT_MEANS then 0 else |h| % MAX_RECENT_MEANS)
    && forall j :: |h| - |recent| <= j < |h| ==> recent[j % MAX_RECENT_MEANS] == SampleOf(h[j])
  }

  ghost predicate CountersOk(
      s: Snapshot, hasHw: bool, hw: nat, hasChecksum: bool, checksum: Hash, h: History) {
    && MeansOk(s, h)
    && HwCarry(hasHw, hw, h) && s.hwSeqGaps == Gaps(HwSeqs(h))
    && ChecksumCarry(hasChecksum, checksum, h)
    && LevelsOk(s.stuckFrames, s.blackFrames, s.whiteFrames, h)
  }

  ghost predicate TimingOk(
      s: Snapshot, hasPts: bool, pts: int, first: int, n: nat, mean: real, m2: real, h: History) {
    && PtsCarry(hasPts, pts, first, h)
    && WelfordOk(n, mean, m2, Intervals(PtsOf(h)))
    && s.intervalMeanMs == s.intervalVariance == 0.0  // folded in only by Take
    && ExtremesOk(Intervals(PtsOf(h)), s.intervalMinMs, s.intervalMaxMs)
    && BucketsOk(s.per10sFrames, FirstPts(h), PtsOf(h))
  }

  class FrameTap {
    var snap: Snapshot
    var hasPrevHwSeq: bool
    var prevHwSeq: nat
    var hasPrevChecksum: bool
    var prevChecksum: Hash
    var hasPrevPts: bool
    var prevPtsNs: int
    var firstPtsNs: int
    var intervalN: nat
    var intervalMean: real
    var intervalM2: real
    var recent: seq<MeanSample>
    var recentNext: nat

    /** The accepted frames since the last Reset, oldest first. */
    ghost var history: History

    ghost predicate Valid()
      reads this
    {
      && CountersOk(snap, hasPrevHwSeq, prevHwSeq, hasPrevChecksum, prevChecksum, history)
      && TimingOk(snap, hasPrevPts, prevPtsNs, firstPtsNs, intervalN, intervalMean, intervalM2, history)
      && RingOk(recent, recentNext, history)
    }

    constructor ()
      ensures Valid() && history == []
    {
      new;
      Reset();
    }

    method Reset()
      modifies this
      ensures Valid() && history == []
    {
      hide CountersOk, TimingOk, RingOk;
      ClearCounters();
      ClearTiming();
      history := [];
      EmptyHistory(history);
    }

    method ClearCounters()
      modifies this`snap, this`hasPrevHwSeq, this`prevHwSeq, this`hasPrevChecksum, this`prevChecksum
      ensures snap == EMPTY_SNAPSHOT && !hasPrevHwSeq && prevHwSeq == 0 && !hasPrevChecksum && prevChecksum == 0
    {
      snap := EMPTY_SNAPSHOT;
      hasPrevHwSeq, prevHwSeq := false, 0;
      hasPrevChecksum, prevChecksum := false, 0;
    }

    method ClearTiming()
      modifies this`hasPrevPts, this`prevPtsNs, this`firstPtsNs, this`intervalN, this`intervalMean, this`intervalM2,
        this`recent, this`recentNext
      ensures !hasPrevPts && prevPtsNs == firstPtsNs == intervalN == recentNext == 0 && recent == []
      ensures intervalMean == intervalM2 == 0.0
    {
      hasPrevPts, prevPtsNs, firstPtsNs := false, 0, 0;
      intervalN, intervalMean, intervalM2 := 0, 0.0, 0.0;
      recent, recentNext := [], 0;
    }

    /** Accepts a decoded frame into the history; ignores invalid and compressed ones. */
    method OnFrame(f: VideoFrame)
      requires Valid() && Readable(f)
      modifies this
      ensures Valid()
      ensures history == if Accepted(f) then old(history) + [Observe(f)] else old(history)
    {
      if !f.Valid() || IsCompressed(f.format) {
        return;
      }
      var checksum: Hash := OFFSET_BASIS;
      var y, u, v := 0.0, 0.0, 0.0;
      if f.format.I420? && f.plane1.Some? && f.plane2.Some? {
        y, checksum := PlaneMean(f.data, f.stride, f.width, f.height, checksum);
        u, checksum := PlaneMean(f.plane1, f.stride1, f.width / 2, f.height / 2, checksum);
        v, checksum := PlaneMean(f.plane2, f.stride2, f.width / 2, f.height / 2, checksum);
      } else {
        var bytesPerPx := 1;
        if !IsPlanar(f.format) {
          var bpp := BitsPerPixel(f.format);
          if bpp >= 8 {
            bytesPerPx := bpp / 8;
          }
        }
        y, checksum := PlaneMean(f.data, f.stride, f.width * bytesPerPx, f.height, checksum);
      }
      var o := Observation(y, u, v, checksum, f.ptsNs, f.hwSeq, f.width, f.height);
      ObserveAgrees(f, o);
      Accumulate(o);
    }

    /** The part of OnFrame that runs under the lock. */
    method Accumulate(o: Observation)
      requires Valid()
      modifies this
      ensures Valid()
      ensures history == old(history) + [o]
    {
      hide Mean, Ys, Us, Vs, PtsOf, Intervals, FirstPts, HwCarry, HwSeqs, Gaps, ChecksumCarry, Stuck, Black, White,
        PtsCarry, WelfordOk, ExtremesOk, BucketsOk, RingOk, NextMean, Step;
      CountFrame(o);
      CountGaps(o);
      CountLevels(o);
      CountInterval(o);
      CountBucket(o);
      RememberMean(o);
      history := history + [o];
    }

    /** Running plane means, geometry and the capped timestamp series. */
    method CountFrame(o: Observation)
      requires MeansOk(snap, history)
      modifies `snap
      ensures MeansOk(snap, history + [o])
      ensures snap == old(snap).(
        meanY := snap.meanY, meanU := snap.meanU, meanV := snap.meanV,
        frames := snap.frames, width := snap.width, height := snap.height, ptsNs := snap.ptsNs)
    {
      hide MeansOk, NextMean;
      snap := snap.(
        meanY := NextMean(snap.meanY, snap.frames, o.y),
        meanU := NextMean(snap.meanU, snap.frames, o.u),
        meanV := NextMean(snap.meanV, snap.frames, o.v),
        frames := snap.frames + 1,
        width := o.width,
        height := o.height);
      if |snap.ptsNs| < MAX_PTS_ENTRIES {
        snap := snap.(ptsNs := snap.ptsNs + [o.ptsNs]);
      }
      MeansStep(old(snap), snap, history, o);
    }

    /** Hardware sequence gaps; frames without a sequence number are ignored. */
    method CountGaps(o: Observation)
      requires HwCarry(hasPrevHwSeq, prevHwSeq, history) && snap.hwSeqGaps == Gaps(HwSeqs(history))
      modifies `snap, `hasPrevHwSeq, `prevHwSeq
      ensures HwCarry(hasPrevHwSeq, prevHwSeq, history + [o])
      ensures snap == old(snap).(hwSeqGaps := Gaps(HwSeqs(history + [o])))
    {
      hide HwCarry, Gaps, HwSeqs;
      HwStep(hasPrevHwSeq, prevHwSeq, history, o);
      if o.hwSeq != 0 {
        if hasPrevHwSeq {
          var gap := o.hwSeq - prevHwSeq - 1;
          if gap > 0 {
            snap := snap.(hwSeqGaps := snap.hwSeqGaps + gap);
          }
        }
        prevHwSeq := o.hwSeq;
        hasPrevHwSeq := true;
      }
    }

    /** Stuck, black and white frames. */
    method CountLevels(o: Observation)
      requires ChecksumCarry(hasPrevChecksum, prevChecksum, history)
      requires LevelsOk(snap.stuckFrames, snap.blackFrames, snap.whiteFrames, history)
      modifies `snap, `hasPrevChecksum, `prevChecksum
      ensures ChecksumCarry(hasPrevChecksum, prevChecksum, history + [o])
      ensures LevelsOk(snap.stuckFrames, snap.blackFrames, snap.whiteFrames, history + [o])
      ensures snap == old(snap).(stuckFrames := snap.stuckFrames, blackFrames := snap.blackFrames,
                                 whiteFrames := snap.whiteFrames)
    {
      hide ChecksumCarry, LevelsOk;
      LevelsStep(hasPrevChecksum, prevChecksum, snap.stuckFrames, snap.blackFrames, snap.whiteFrames,
                 history, o);
      if hasPrevChecksum && o.checksum == prevChecksum {
        snap := snap.(stuckFrames := snap.stuckFrames + 1);
      }
      prevChecksum := o.checksum;
      hasPrevChecksum := true;
      if o.y < 8.0 {
        snap := snap.(blackFrames := snap.blackFrames + 1);
      } else if o.y > 247.0 {
        snap := snap.(whiteFrames := snap.whiteFrames + 1);
      }
    }

    /** Welford statistics and extremes over successive timestamp differences. */
    method CountInterval(o: Observation)
      requires PtsCarry(hasPrevPts, prevPtsNs, firstPtsNs, history)
      requires WelfordOk(intervalN, intervalMean, intervalM2, Intervals(PtsOf(history)))
      requires ExtremesOk(Intervals(PtsOf(history)), snap.intervalMinMs, snap.intervalMaxMs)
      modifies `snap, `hasPrevPts, `prevPtsNs, `firstPtsNs, `intervalN, `intervalMean, `intervalM2
      ensures PtsCarry(hasPrevPts, prevPtsNs, firstPtsNs, history + [o])
      ensures firstPtsNs == FirstPts(history + [o])
      ensures WelfordOk(intervalN, intervalMean, intervalM2, Intervals(PtsOf(history + [o])))
      ensures ExtremesOk(Intervals(PtsOf(history + [o])), snap.intervalMinMs, snap.intervalMaxMs)
      ensures snap == old(snap).(intervalMinMs := snap.intervalMinMs, intervalMaxMs := snap.intervalMaxMs)
    {
      hide PtsCarry, WelfordOk, ExtremesOk, Intervals, PtsOf, FirstPts;
      PtsStep(hasPrevPts, prevPtsNs, firstPtsNs, history, o);
      if hasPrevPts {
        var deltaMs := Milliseconds(o.ptsNs - prevPtsNs);
        IntervalStep(intervalN, intervalMean, intervalM2, snap.intervalMinMs, snap.intervalMaxMs,
                     Intervals(PtsOf(history)), deltaMs);
        intervalN := intervalN + 1;
        var d1 := deltaMs - intervalMean;
        intervalMean := intervalMean + d1 / (intervalN as real);
        intervalM2 := intervalM2 + d1 * (deltaMs - intervalMean);
        if intervalN == 1 {
          snap := snap.(intervalMinMs := deltaMs, intervalMaxMs := deltaMs);
        } else {
          snap := snap.(
            intervalMinMs := if deltaMs < snap.intervalMinMs then deltaMs else snap.intervalMinMs,
            intervalMaxMs := if snap.intervalMaxMs < deltaMs then deltaMs else snap.intervalMaxMs);
        }
      } else {
        firstPtsNs := o.ptsNs;
      }
      prevPtsNs := o.ptsNs;
      hasPrevPts := true;
    }

    /** Frames per 10 second bucket, counted from the first timestamp. */
    method CountBucket(o: Observation)
      requires BucketsOk(snap.per10sFrames, FirstPts(history), PtsOf(history))
      requires firstPtsNs == FirstPts(history + [o])
      modifies `snap
      ensures BucketsOk(snap.per10sFrames, FirstPts(history + [o]), PtsOf(history + [o]))
      ensures snap == old(snap).(per10sFrames := snap.per10sFrames)
    {
      hide BucketsOk, PtsOf, FirstPts;
      BucketsStep(snap.per10sFrames, firstPtsNs, history, o);
      var offsetNs := o.ptsNs - firstPtsNs;
      if offsetNs >= 0 {
        var bucket := offsetNs / BUCKET_NS;
        if bucket < MAX_BUCKETS {
          var counts := snap.per10sFrames;
          if |counts| <= bucket {
            counts := counts + seq(bucket + 1 - |counts|, _ => 0);
          }
          snap := snap.(per10sFrames := counts[bucket := counts[bucket] + 1]);
        }
      }
    }

    /** The fixed ring behind RecentMeans: oldest entry at recentNext once full. */
    method RememberMean(o: Observation)
      requires RingOk(recent, recentNext, history)
      modifies `recent, `recentNext
      ensures RingOk(recent, recentNext, history + [o])
    {
      hide RingOk;
      RingStep(recent, recentNext, history, o);
      if |recent| < MAX_RECENT_MEANS {
        recent := recent + [MeanSample(o.ptsNs, o.y)];
      } else {
        recent := recent[recentNext := MeanSample(o.ptsNs, o.y)];
        recentNext := (recentNext + 1) % MAX_RECENT_MEANS;
      }
    }

    method Take() returns (out: Snapshot)
      requires Valid()
      ensures Summarizes(out, history)
    {
      out := snap;
      if intervalN > 0 {
        out := out.(intervalMeanMs := intervalMean,
                    intervalVariance := intervalM2 / (intervalN as real));
      }
    }

    method RecentMeans() returns (out: seq<MeanSample>)
      requires Valid()
      ensures out == LastSamples(history, Min(|history|, MAX_RECENT_MEANS))
    {
      hide CountersOk, TimingOk, RingOk, Step;
      RingSize(recent, recentNext, history);
      if |recent| < MAX_RECENT_MEANS {
        return recent;
      }
      out := [];
      for i := 0 to |recent|
        invariant |out| == i
        invariant forall k :: 0 <= k < i ==> out[k] == SampleOf(history[|history| - MAX_RECENT_MEANS + k])
      {
        RingRead(recent, recentNext, history, i);
        out := out + [recent[(recentNext + i) % MAX_RECENT_MEANS]];
      }
    }
  }

  lemma EmptyParts(h: History)
    requires |h| == 0
    ensures MeansOk(EMPTY_SNAPSHOT, h)
    ensures HwCarry(false, 0, h) && Gaps(HwSeqs(h)) == 0
    ensures ChecksumCarry(false, 0, h) && LevelsOk(0, 0, 0, h)
    ensures PtsCarry(false, 0, 0, h)
    ensures WelfordOk(0, 0.0, 0.0, Intervals(PtsOf(h))) && ExtremesOk(Intervals(PtsOf(h)), 0.0, 0.0)
    ensures BucketsOk(EMPTY_SNAPSHOT.per10sFrames, FirstPts(h), PtsOf(h))
  {
  }

  /** Zeroed accumulators describe the empty history. */
  lemma EmptyHistory(h: History)
    requires |h| == 0
    ensures CountersOk(EMPTY_SNAPSHOT, false, 0, false, 0, h)
    ensures TimingOk(EMPTY_SNAPSHOT, false, 0, 0, 0, 0.0, 0.0, h)
    ensures RingOk([], 0, h)
  {
    hide MeansOk, HwCarry, HwSeqs, Gaps, ChecksumCarry, LevelsOk, PtsCarry, WelfordOk, ExtremesOk,
      BucketsOk, Intervals, PtsOf, FirstPts;
    EmptyParts(h);
  }

  lemma ObserveAgrees(f: VideoFrame, o: Observation)
    requires Accepted(f) && Readable(f)
    requires o.y == ByteMean(YSamples(f)) && o.u == ByteMean(USamples(f)) && o.v == ByteMean(VSamples(f))
    requires o.checksum == Fold(Fold(Fold(OFFSET_BASIS, YSamples(f)), USamples(f)), VSamples(f))
    requires o.ptsNs == f.ptsNs && o.hwSeq == f.hwSeq && o.width == f.width && o.height == f.height
    ensures o == Observe(f)
  {
    FoldConcat(OFFSET_BASIS, YSamples(f), USamples(f));
    FoldConcat(OFFSET_BASIS, YSamples(f) + USamples(f), VSamples(f));
  }

  lemma MeansStep(s: Snapshot, s': Snapshot, h: History, o: Observation)
    requires MeansOk(s, h)
    requires s'.frames == s.frames + 1 && s'.width == o.width && s'.height == o.height
    requires s'.meanY == NextMean(s.meanY, s.frames, o.y)
    requires s'.meanU == NextMean(s.meanU, s.frames, o.u)
    requires s'.meanV == NextMean(s.meanV, s.frames, o.v)
    requires s'.ptsNs == if |s.ptsNs| < MAX_PTS_ENTRIES then s.ptsNs + [o.ptsNs] else s.ptsNs
    ensures MeansOk(s', h + [o])
  {
    hide Mean, NextMean;
    ColumnsAppend(h, o);
    RunningMean(Ys(h), o.y);
    RunningMean(Us(h), o.u);
    RunningMean(Vs(h), o.v);
  }

  lemma HwStep(hasPrev: bool, prev: nat, h: History, o: Observation)
    requires HwCarry(hasPrev, prev, h)
    ensures o.hwSeq == 0 ==> HwCarry(hasPrev, prev, h + [o]) && Gaps(HwSeqs(h + [o])) == Gaps(HwSeqs(h))
    ensures o.hwSeq != 0 ==> HwCarry(true, o.hwSeq, h + [o])
    ensures o.hwSeq != 0 ==>
      Gaps(HwSeqs(h + [o])) == Gaps(HwSeqs(h)) + (if hasPrev then Missing(prev, o.hwSeq) else 0)
  {
    HwSeqsAppend(h, o);
    GapsAppend(HwSeqs(h), o.hwSeq);
  }

  lemma LevelsStep(hasPrev: bool, prev: Hash, stuck: nat, black: nat, white: nat, h: History, o: Observation)
    requires ChecksumCarry(hasPrev, prev, h) && LevelsOk(stuck, black, white, h)
    ensures ChecksumCarry(true, o.checksum, h + [o])
    ensures LevelsOk(stuck + (if hasPrev && o.checksum == prev then 1 else 0),
                     black + (if o.y < 8.0 then 1 else 0),
                     white + (if o.y > 247.0 then 1 else 0), h + [o])
  {
    ColumnsAppend(h, o);
    StuckAppend(h, o);
    BlackWhiteAppend(Ys(h), o.y);
  }

  lemma PtsStep(hasPrev: bool, prev: int, first: int, h: History, o: Observation)
    requires PtsCarry(hasPrev, prev, first, h)
    ensures PtsCarry(true, o.ptsNs, if hasPrev then first else o.ptsNs, h + [o])
    ensures FirstPts(h + [o]) == if hasPrev then first else o.ptsNs
    ensures Intervals(PtsOf(h + [o])) ==
            if hasPrev then Intervals(PtsOf(h)) + [Milliseconds(o.ptsNs - prev)] else Intervals(PtsOf(h))
  {
    hide Intervals;
    ColumnsAppend(h, o);
    if hasPrev {
      IntervalsAppend(PtsOf(h), o.ptsNs);
    }
  }

  lemma IntervalStep(n: nat, mean: real, m2: real, min: real, max: real, d: seq<real>, x: real)
    requires WelfordOk(n, mean, m2, d) && ExtremesOk(d, min, max)
    ensures var d1 := x - mean;
            var mean' := mean + d1 / ((n + 1) as real);
            WelfordOk(n + 1, mean', m2 + d1 * (x - mean'), d + [x])
    ensures if n == 0 then ExtremesOk(d + [x], x, x)
            else ExtremesOk(d + [x], if x < min then x else min, if max < x then x else max)
  {
    hide Mean, SquaredDeviation;
    var d1 := x - mean;
    var mean' := mean + d1 / ((n + 1) as real);
    Welford(d, x, d1, mean', x - mean');
  }

  /** Once full, slot (next + i) mod 256 holds the i-th of the last 256 samples. */
  lemma RingRead(recent: seq<MeanSample>, next: nat, h: History, i: nat)
    requires RingOk(recent, next, h) && |h| >= MAX_RECENT_MEANS && i < MAX_RECENT_MEANS
    ensures recent[(next + i) % MAX_RECENT_MEANS] == SampleOf(h[|h| - MAX_RECENT_MEANS + i])
  {
    var j := |h| - MAX_RECENT_MEANS + i;
    assert (next + i) % MAX_RECENT_MEANS == j % MAX_RECENT_MEANS;
  }

  /** Until it is full, the ring is the history in order. */
  lemma RingSize(recent: seq<MeanSample>, next: nat, h: History)
    requires RingOk(recent, next, h)
    ensures |recent| == Min(|h|, MAX_RECENT_MEANS)
    ensures |h| < MAX_RECENT_MEANS ==> recent == LastSamples(h, |h|)
  {
    if |h| < MAX_RECENT_MEANS {
      forall j | 0 <= j < |h|
        ensures recent[j] == SampleOf(h[j])
      {
        assert j % MAX_RECENT_MEANS == j;
      }
    }
  }

  lemma RingStep(recent: seq<MeanSample>, next: nat, h: History, o: Observation)
    requires RingOk(recent, next, h)
    ensures |recent| < MAX_RECENT_MEANS ==> RingOk(recent + [SampleOf(o)], next, h + [o])
    ensures |recent| >= MAX_RECENT_MEANS ==>
      next < |recent| && RingOk(recent[next := SampleOf(o)], (next + 1) % MAX_RECENT_MEANS, h + [o])
  {
    var h' := h + [o];
    var recent' := if |recent| < MAX_RECENT_MEANS then recent + [SampleOf(o)] else recent[next := SampleOf(o)];
    forall j | |h'| - |recent'| <= j < |h'|
      ensures recent'[j % MAX_RECENT_MEANS] == SampleOf(h'[j])
    {
      if j < |h| {
        assert recent[j % MAX_RECENT_MEANS] == SampleOf(h[j]);
        assert |recent| == MAX_RECENT_MEANS ==> j % MAX_RECENT_MEANS != |h| % MAX_RECENT_MEANS;
      }
    }
  }

  lemma BucketsStep(buckets: seq<nat>, first: int, h: History, o: Observation)
    requires BucketsOk(buckets, FirstPts(h), PtsOf(h))
    requires first == FirstPts(h + [o])
    ensures var b := (o.ptsNs - first) / BUCKET_NS;
      if o.ptsNs >= first && b < MAX_BUCKETS
      then BucketsOk(Bumped(buckets, b), FirstPts(h + [o]), PtsOf(h + [o]))
      else BucketsOk(buckets, FirstPts(h + [o]), PtsOf(h + [o]))
  {
    ColumnsAppend(h, o);
    BucketsAppend(buckets, first, PtsOf(h), o.ptsNs);
  }

  function Bumped(buckets: seq<nat>, b: nat): (r: seq<nat>)
  {
    var wide := if |buckets| <= b then buckets + seq(b + 1 - |buckets|, _ => 0) else buckets;
    wide[b := wide[b] + 1]
  }

  lemma BucketsAppend(buckets: seq<nat>, first: int, pts: seq<int>, t: int)
    requires BucketsOk(buckets, first, pts)
    ensures var b := (t - first) / BUCKET_NS;
      if t >= first && b < MAX_BUCKETS
      then BucketsOk(Bumped(buckets, b), first, pts + [t])
      else BucketsOk(buckets, first, pts + [t])
  {
    forall b | 0 <= b < MAX_BUCKETS
      ensures BucketCount(first, pts + [t], b) ==
              BucketCount(first, pts, b) + (if InBucket(first, t, b) then 1 else 0)
      ensures InBucket(first, t, b) <==> t >= first && b == (t - first) / BUCKET_NS
    {
      BucketCountAppend(first, pts, t, b);
      BucketIndex(first, t, b);
    }
  }
}
