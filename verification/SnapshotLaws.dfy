/** What the fields of a snapshot say about the accepted frames, in counts and plain numbers. */
module SnapshotLaws {
  import opened FrameSampling
  import opened Statistics
  import opened TapHistory

  // The frames below n with the property that a field counts.
  function Dark(h: History, n: nat): set<nat>
    requires n <= |h|
  {
    set i: nat | i < n && h[i].y < 8.0
  }

  function Bright(h: History, n: nat): set<nat>
    requires n <= |h|
  {
    set i: nat | i < n && h[i].y > 247.0
  }

  function Repeats(h: History, n: nat): set<nat>
    requires n <= |h|
  {
    set i: nat | i < n && RepeatsLast(h, i)
  }

  predicate RepeatsLast(h: History, i: nat)
    requires i < |h|
  {
    i > 0 && h[i].checksum == h[i - 1].checksum
  }

  /** Frames in the b-th ten seconds after the first. */
  function InWindow(h: History, b: nat, n: nat): set<nat>
    requires n <= |h|
  {
    set i: nat | i < n && 10_000_000_000 * b <= h[i].ptsNs - h[0].ptsNs < 10_000_000_000 * (b + 1)
  }

  lemma OneMore(a: set<nat>, b: set<nat>, n: nat, also: bool)
    requires n !in a && b == if also then a + {n} else a
    ensures |b| == |a| + if also then 1 else 0
  {
  }

  lemma {:induction false} DarkCounts(h: History, n: nat)
    requires n <= |h|
    ensures Black(Ys(h)[..n]) == |Dark(h, n)|
  {
    if n > 0 {
      DarkCounts(h, n - 1);
      Shorter(Ys(h), n);
      OneMore(Dark(h, n - 1), Dark(h, n), n - 1, h[n - 1].y < 8.0);
    }
  }

  lemma {:induction false} BrightCounts(h: History, n: nat)
    requires n <= |h|
    ensures White(Ys(h)[..n]) == |Bright(h, n)|
  {
    if n > 0 {
      BrightCounts(h, n - 1);
      Shorter(Ys(h), n);
      OneMore(Bright(h, n - 1), Bright(h, n), n - 1, h[n - 1].y > 247.0);
    }
  }

  lemma Shorter<T>(s: seq<T>, n: nat)
    requires 0 < n <= |s|
    ensures s[..n][..n - 1] == s[..n - 1] && s[..n][n - 1] == s[n - 1]
  {
  }

  lemma {:induction false} RepeatCounts(h: History, n: nat)
    requires n <= |h|
    ensures Stuck(h[..n]) == |Repeats(h, n)|
  {
    if n > 0 {
      RepeatCounts(h, n - 1);
      Shorter(h, n);
      OneMore(Repeats(h, n - 1), Repeats(h, n), n - 1, RepeatsLast(h, n - 1));
    }
  }

  lemma {:induction false} WindowCounts(h: History, b: nat, n: nat)
    requires n <= |h|
    ensures BucketCount(FirstPts(h), PtsOf(h)[..n], b) == |InWindow(h, b, n)|
  {
    if n > 0 {
      WindowCounts(h, b, n - 1);
      Shorter(PtsOf(h), n);
      OneMore(InWindow(h, b, n - 1), InWindow(h, b, n), n - 1,
              10_000_000_000 * b <= h[n - 1].ptsNs - h[0].ptsNs < 10_000_000_000 * (b + 1));
    }
  }

  lemma Whole<T>(s: seq<T>)
    ensures s[..|s|] == s
  {
  }

  /** Black, white and stuck frames and the frames of each ten seconds are counted exactly, one by
      one. */
  lemma CountersCount(s: Snapshot, h: History)
    requires Summarizes(s, h)
    ensures s.frames == |h|
    ensures s.blackFrames == |Dark(h, |h|)| && s.whiteFrames == |Bright(h, |h|)|
    ensures s.stuckFrames == |Repeats(h, |h|)|
    ensures forall b :: 0 <= b < |s.per10sFrames| ==> s.per10sFrames[b] == |InWindow(h, b, |h|)|
  {
    hide Dark, Bright, Repeats, InWindow, Mean, Variance, Intervals, HwSeqs, Gaps, ExtremesOk;
    DarkCounts(h, |h|);
    BrightCounts(h, |h|);
    RepeatCounts(h, |h|);
    Whole(Ys(h));
    Whole(h);
    Whole(PtsOf(h));
    forall b | 0 <= b < |s.per10sFrames|
      ensures s.per10sFrames[b] == |InWindow(h, b, |h|)|
    {
      WindowCounts(h, b, |h|);
    }
  }

  /** Every frame of the first 24 hours is in some bucket, and no later frame makes one. */
  lemma DayOfBuckets(s: Snapshot, h: History, i: nat)
    requires Summarizes(s, h) && i < |h|
    ensures |s.per10sFrames| <= 8640
    ensures var offset := h[i].ptsNs - h[0].ptsNs;
      0 <= offset < 86_400_000_000_000 ==>
        offset / 10_000_000_000 < |s.per10sFrames| && s.per10sFrames[offset / 10_000_000_000] > 0
  {
    hide MeansOk, LevelsOk, HwSeqs, Gaps, Mean, Variance, Intervals, ExtremesOk;
    var offset := h[i].ptsNs - h[0].ptsNs;
    if 0 <= offset < 86_400_000_000_000 {
      var b := offset / 10_000_000_000;
      BucketIndex(FirstPts(h), h[i].ptsNs, b);
      assert PtsOf(h)[i] == h[i].ptsNs;
      BucketMembership(FirstPts(h), PtsOf(h), b);
      assert BucketCount(FirstPts(h), PtsOf(h), b) > 0;
    }
  }

  /** The kept timestamps are those of the first 4096 frames. */
  lemma KeptTimestamps(s: Snapshot, h: History, i: nat)
    requires Summarizes(s, h)
    ensures |s.ptsNs| == if |h| < 4096 then |h| else 4096
    ensures i < |s.ptsNs| ==> s.ptsNs[i] == h[i].ptsNs
  {
    hide LevelsOk, HwSeqs, Gaps, Mean, Variance, Intervals, ExtremesOk, BucketsOk;
  }

  /** A driver number that repeats or falls back, as after a restart of the stream, is no gap; one
      that leaps ahead is a gap of the numbers between. */
  lemma GapOfOneNumber(q: seq<nat>, w: nat)
    requires |q| > 0
    ensures Gaps(q + [w]) - Gaps(q) == if w > q[|q| - 1] then w - q[|q| - 1] - 1 else 0
  {
    GapsAppend(q, w);
  }

  /** The ring shows timestamp and luma of the last 256 frames, oldest first. */
  lemma RingShowsLast256(h: History, out: seq<MeanSample>, k: nat)
    requires out == LastSamples(h, Min(|h|, MAX_RECENT_MEANS))
    ensures |out| == if |h| < 256 then |h| else 256
    ensures k < |out| ==> out[k].ptsNs == h[|h| - |out| + k].ptsNs && out[k].meanY == h[|h| - |out| + k].y
  {
    if k < |out| {
      assert out[k] == SampleOf(h[|h| - |out| + k]);
    }
  }
}
