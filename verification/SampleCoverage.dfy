/** Which part of the picture the tap's samples cover, for every uncompressed format. */
module SampleCoverage {
  import opened Arithmetic
  import opened PixelFormats
  import opened VideoFrames
  import opened FrameSampling
  import opened TapHistory

  /** Just these frames are looked at. */
  lemma AcceptedIff(f: VideoFrame)
    ensures Accepted(f) <==>
      && f.data.Some? && f.width > 0 && f.height > 0
      && f.format != Unknown && f.format != Mjpeg && f.format != H264
  {
  }

  /** Bytes of one pixel in plane 0. */
  function PixelBytes(f: PixelFormat): nat {
    match f
    case Gray8 | Nv12 | I420 => 1
    case Yuyv => 2
    case Rgb8 | Bgr8 => 3
    case Rgba8 | Bgra8 => 4
    case _ => 0
  }

  /** n is how many of 0, 8, 16, .. lie below len. */
  predicate Eighths(n: nat, len: int) {
    if len <= 0 then n == 0 else 8 * (n - 1) < len <= 8 * n
  }

  lemma EighthsCount(n: nat, len: int)
    requires Eighths(n, len)
    ensures n == SampleCount(len)
  {
  }

  lemma FactorOutStride(r: nat, stride: int)
    ensures 8 * r * stride == 8 * (r * stride)
  {
  }

  lemma PlaneSampleAt(mem: seq<Byte>, stride: int, width: int, height: int, rows: nat, cols: nat, r: nat, c: nat)
    requires RowsFit(mem, stride, width, height) && width > 0 && height > 0
    requires Eighths(rows, height) && Eighths(cols, width) && r < rows && c < cols
    ensures var samples := PlaneSamples(Some(mem), stride, width, height);
      && |samples| == rows * cols && 0 <= r * cols + c < |samples| && 0 <= 8 * r * stride + 8 * c < |mem|
      && samples[r * cols + c] == mem[8 * r * stride + 8 * c]
  {
    hide RowsFit, GridSamples;
    EighthsCount(rows, height);
    EighthsCount(cols, width);
    GridSampleAt(mem, stride, width, height, rows, r, c);
  }

  lemma PlaneWidth(f: VideoFrame)
    requires Accepted(f) && Readable(f)
    ensures f.width * PixelBytes(f.format) > 0
    ensures PlaneReadable(f.data, f.stride, f.width * PixelBytes(f.format), f.height)
    ensures YSamples(f) == PlaneSamples(f.data, f.stride, f.width * PixelBytes(f.format), f.height)
  {
    assert ThreePlanes(f) ==> PixelBytes(f.format) == 1;
    MulLe(1, f.width, PixelBytes(f.format));
  }

  /** Plane 0 is sampled over its whole rows: byte (8r, 8c) for every 8c below the row length, every
      pixel of the row included, and nothing else. */
  lemma YSampleAt(f: VideoFrame, rows: nat, cols: nat, r: nat, c: nat)
    requires Accepted(f) && Readable(f)
    requires Eighths(rows, f.height) && Eighths(cols, f.width * PixelBytes(f.format)) && r < rows && c < cols
    ensures |YSamples(f)| == rows * cols
    ensures 0 <= r * cols + c < rows * cols && 0 <= 8 * r * f.stride + 8 * c < |f.data.value|
    ensures YSamples(f)[r * cols + c] == f.data.value[8 * r * f.stride + 8 * c]
  {
    PlaneWidth(f);
    PlaneSampleAt(f.data.value, f.stride, f.width * PixelBytes(f.format), f.height, rows, cols, r, c);
  }

  /** The chroma planes are sampled only of an I420 frame that has both, on half the width and height,
      rounded down. */
  lemma ChromaSampleAt(f: VideoFrame, rows: nat, cols: nat, r: nat, c: nat)
    requires Accepted(f) && Readable(f) && f.format.I420? && f.plane1.Some? && f.plane2.Some?
    requires Eighths(rows, f.height / 2) && Eighths(cols, f.width / 2) && r < rows && c < cols
    ensures |USamples(f)| == |VSamples(f)| == rows * cols
    ensures 0 <= r * cols + c < rows * cols
    ensures 0 <= 8 * r * f.stride1 + 8 * c < |f.plane1.value| && 0 <= 8 * r * f.stride2 + 8 * c < |f.plane2.value|
    ensures USamples(f)[r * cols + c] == f.plane1.value[8 * r * f.stride1 + 8 * c]
    ensures VSamples(f)[r * cols + c] == f.plane2.value[8 * r * f.stride2 + 8 * c]
  {
    PlaneSampleAt(f.plane1.value, f.stride1, f.width / 2, f.height / 2, rows, cols, r, c);
    PlaneSampleAt(f.plane2.value, f.stride2, f.width / 2, f.height / 2, rows, cols, r, c);
  }

  lemma NoChromaOtherwise(f: VideoFrame)
    requires Accepted(f) && Readable(f) && !(f.format.I420? && f.plane1.Some? && f.plane2.Some?)
    ensures |USamples(f)| == |VSamples(f)| == 0
  {
  }

  // ---- the level of an even picture ------------------------------------------------------------

  lemma {:induction false} EvenSum(s: seq<Byte>, b: Byte)
    requires forall k :: 0 <= k < |s| ==> s[k] == b
    ensures ByteSum(s) == |s| * b as nat
  {
    if |s| > 0 {
      EvenSum(s[..|s| - 1], b);
      MulStep(|s|, b as nat);
    }
  }

  lemma EvenMean(s: seq<Byte>, b: Byte)
    requires |s| > 0 && forall k :: 0 <= k < |s| ==> s[k] == b
    ensures ByteMean(s) == b as int as real
  {
    EvenSum(s, b);
    assert (|s| * b as nat) as real == (|s| as real) * (b as int as real);
  }

  /** A picture whose samples all have one level is counted as black exactly below level 8 and as
      white exactly above level 247. */
  lemma EvenPictureLevels(h: History, f: VideoFrame, b: Byte)
    requires Accepted(f) && Readable(f) && |YSamples(f)| > 0
    requires forall k :: 0 <= k < |YSamples(f)| ==> YSamples(f)[k] == b
    ensures Black(Ys(h + [Observe(f)])) == Black(Ys(h)) + if b < 8 then 1 else 0
    ensures White(Ys(h + [Observe(f)])) == White(Ys(h)) + if b > 247 then 1 else 0
  {
    hide YSamples, Accepted, Readable, USamples, VSamples, SampledBytes;
    EvenMean(YSamples(f), b);
    ColumnsAppend(h, Observe(f));
    BlackWhiteAppend(Ys(h), Observe(f).y);
  }
}
