/** Which bytes of a frame the tap looks at: every 8th byte of every 8th row of each
    plane, folded into a mean and a checksum. */
module FrameSampling {
  import opened PixelFormats
  import opened VideoFrames
  import opened Fnv1a
  import opened Arithmetic

  /** How many of 0, 8, 16, ... lie below `n`. */
  function SampleCount(n: int): nat {
    if n <= 0 then 0 else (n + 7) / 8
  }

  function RowSamples(mem: seq<Byte>, off: nat, cols: nat): (s: seq<Byte>)
    requires cols > 0 ==> off + 8 * (cols - 1) < |mem|
    ensures |s| == cols
    ensures forall c :: 0 <= c < cols ==> s[c] == mem[off + 8 * c]
  {
    if cols == 0 then [] else RowSamples(mem, off, cols - 1) + [mem[off + 8 * (cols - 1)]]
  }

  /** Sampled rows 0, 8, ..., 8 * (rows - 1), one after the other. */
  function GridSamples(mem: seq<Byte>, stride: int, width: int, height: int, rows: nat): seq<Byte>
    requires RowsFit(mem, stride, width, height) && width > 0
    requires rows <= SampleCount(height)
    decreases rows
  {
    if rows == 0 then []
    else
      RowInside(mem, stride, width, height, 8 * (rows - 1));
      GridSamples(mem, stride, width, height, rows - 1)
      + RowSamples(mem, 8 * (rows - 1) * stride, SampleCount(width))
  }

  predicate PlaneReadable(base: Plane, stride: int, width: int, height: int) {
    base.Some? ==> RowsFit(base.value, stride, width, height)
  }

  function PlaneSamples(base: Plane, stride: int, width: int, height: int): seq<Byte>
    requires PlaneReadable(base, stride, width, height)
  {
    if base.None? || width <= 0 || height <= 0 then []
    else GridSamples(base.value, stride, width, height, SampleCount(height))
  }

  function ByteSum(s: seq<Byte>): nat {
    if |s| == 0 then 0 else ByteSum(s[..|s| - 1]) + s[|s| - 1] as nat
  }

  function ByteMean(s: seq<Byte>): real {
    if |s| == 0 then 0.0 else (ByteSum(s) as real) / (|s| as real)
  }

  /** Sample (r, c) of the grid is the byte at row 8r, column 8c of the plane. */
  lemma {:induction false} GridSampleAt(
      mem: seq<Byte>, stride: int, width: int, height: int, rows: nat, r: nat, c: nat)
    requires RowsFit(mem, stride, width, height) && width > 0
    requires r < rows <= SampleCount(height) && c < SampleCount(width)
    ensures |GridSamples(mem, stride, width, height, rows)| == rows * SampleCount(width)
    ensures 0 <= r * SampleCount(width) + c < rows * SampleCount(width)
    ensures 0 <= 8 * r * stride + 8 * c < |mem|
    ensures GridSamples(mem, stride, width, height, rows)[r * SampleCount(width) + c]
            == mem[8 * r * stride + 8 * c]
    decreases rows
  {
    var cols := SampleCount(width);
    RowInside(mem, stride, width, height, 8 * (rows - 1));
    GridLength(mem, stride, width, height, rows - 1);
    CellInside(r, c, rows, cols);
    MulStep(rows, cols);
    if r < rows - 1 {
      GridSampleAt(mem, stride, width, height, rows - 1, r, c);
    }
  }

  lemma {:induction false} GridLength(mem: seq<Byte>, stride: int, width: int, height: int, rows: nat)
    requires RowsFit(mem, stride, width, height) && width > 0
    requires rows <= SampleCount(height)
    ensures |GridSamples(mem, stride, width, height, rows)| == rows * SampleCount(width)
  {
    if rows > 0 {
      GridLength(mem, stride, width, height, rows - 1);
      RowInside(mem, stride, width, height, 8 * (rows - 1));
      MulStep(rows, SampleCount(width));
    }
  }

  /** Bytes per sample column of a format whose plane 0 alone is sampled. */
  function BytesPerPixel(f: PixelFormat): nat {
    if !IsPlanar(f) && BitsPerPixel(f) >= 8 then BitsPerPixel(f) / 8 else 1
  }

  predicate ThreePlanes(f: VideoFrame) {
    f.format.I420? && f.plane1.Some? && f.plane2.Some?
  }

  predicate Accepted(f: VideoFrame) {
    f.Valid() && !IsCompressed(f.format)
  }

  /** The memory a producer promises behind the plane pointers of a decoded frame. */
  predicate Readable(f: VideoFrame) {
    Accepted(f) ==>
      if ThreePlanes(f) then
        && PlaneReadable(f.data, f.stride, f.width, f.height)
        && PlaneReadable(f.plane1, f.stride1, f.width / 2, f.height / 2)
        && PlaneReadable(f.plane2, f.stride2, f.width / 2, f.height / 2)
      else
        PlaneReadable(f.data, f.stride, f.width * BytesPerPixel(f.format), f.height)
  }

  function YSamples(f: VideoFrame): seq<Byte>
    requires Accepted(f) && Readable(f)
  {
    if ThreePlanes(f) then PlaneSamples(f.data, f.stride, f.width, f.height)
    else PlaneSamples(f.data, f.stride, f.width * BytesPerPixel(f.format), f.height)
  }

  function USamples(f: VideoFrame): seq<Byte>
    requires Accepted(f) && Readable(f)
  {
    if ThreePlanes(f) then PlaneSamples(f.plane1, f.stride1, f.width / 2, f.height / 2) else []
  }

  function VSamples(f: VideoFrame): seq<Byte>
    requires Accepted(f) && Readable(f)
  {
    if ThreePlanes(f) then PlaneSamples(f.plane2, f.stride2, f.width / 2, f.height / 2) else []
  }

  /** Every byte of the frame that takes part in its checksum, in order. */
  function SampledBytes(f: VideoFrame): seq<Byte>
    requires Accepted(f) && Readable(f)
  {
    YSamples(f) + USamples(f) + VSamples(f)
  }

  /** What the tap derives from one accepted frame before it takes its lock. */
  datatype Observation = Observation(
    y: real, u: real, v: real, checksum: Hash,
    ptsNs: int, hwSeq: nat, width: int, height: int)

  function Observe(f: VideoFrame): Observation
    requires Accepted(f) && Readable(f)
  {
    Observation(
      ByteMean(YSamples(f)), ByteMean(USamples(f)), ByteMean(VSamples(f)),
      Fold(OFFSET_BASIS, SampledBytes(f)),
      f.ptsNs, f.hwSeq, f.width, f.height)
  }

  /** Equally long, and different at i alone. */
  predicate DifferAt(a: seq<Byte>, b: seq<Byte>, i: nat) {
    |a| == |b| && i < |a| && a[i] != b[i] && forall k :: 0 <= k < |a| && k != i ==> a[k] == b[k]
  }

  /** Frames of equal geometry that differ in exactly one sampled byte have different checksums. */
  lemma OneSampleChangesChecksum(f: VideoFrame, g: VideoFrame, i: nat)
    requires Accepted(f) && Readable(f) && Accepted(g) && Readable(g)
    requires DifferAt(SampledBytes(f), SampledBytes(g), i)
    ensures Observe(f).checksum != Observe(g).checksum
  {
    OneByteChangesHash(OFFSET_BASIS, SampledBytes(f), i, SampledBytes(g)[i]);
    assert SampledBytes(f)[i := SampledBytes(g)[i]] == SampledBytes(g);
  }

  /** The scan of one plane: its mean and its contribution to the running checksum. */
  method PlaneMean(base: Plane, stride: int, width: int, height: int, checksum: Hash)
    returns (mean: real, checksum': Hash)
    requires PlaneReadable(base, stride, width, height)
    ensures mean == ByteMean(PlaneSamples(base, stride, width, height))
    ensures checksum' == Fold(checksum, PlaneSamples(base, stride, width, height))
  {
    hide Step, Fold, ByteSum, GridSamples;
    ScanNothing(checksum);
    checksum' := checksum;
    if base.None? || width <= 0 || height <= 0 {
      return 0.0, checksum;
    }
    var mem := base.value;
    var sum: nat, count: nat := 0, 0;
    var y := 0;
    ghost var row: nat, done: seq<Byte> := 0, [];
    GridStart(mem, stride, width, height);
    while y < height
      invariant y == 8 * row && row <= SampleCount(height)
      invariant done == GridSamples(mem, stride, width, height, row)
      invariant Scanned(checksum, done, checksum', sum, count)
    {
      RowInside(mem, stride, width, height, y);
      var off: nat := y * stride;
      sum, count, checksum' := ScanRow(mem, off, width, sum, count, checksum', checksum, done);
      GridRow(mem, stride, width, height, row, off);
      done := done + RowSamples(mem, off, SampleCount(width));
      y, row := y + 8, row + 1;
    }
    mean := if count > 0 then (sum as real) / (count as real) else 0.0;
  }

  /** The inner loop: one row, after the samples `done` that the accumulators stand for. */
  method ScanRow(mem: seq<Byte>, off: nat, width: nat, sum: nat, count: nat, checksum: Hash,
                 ghost start: Hash, ghost done: seq<Byte>) returns (sum': nat, count': nat, checksum': Hash)
    requires off + width <= |mem| && Scanned(start, done, checksum, sum, count)
    ensures Scanned(start, done + RowSamples(mem, off, SampleCount(width)), checksum', sum', count')
  {
    hide Step, Fold, ByteSum;
    sum', count', checksum' := sum, count, checksum;
    var x := 0;
    ghost var col: nat, inRow: seq<Byte> := 0, [];
    assert done + inRow == done;
    while x < width
      invariant x == 8 * col && col <= SampleCount(width)
      invariant inRow == RowSamples(mem, off, col)
      invariant Scanned(start, done + inRow, checksum', sum', count')
    {
      var b := mem[off + x];
      ScanOne(start, done + inRow, b);
      sum' := sum' + b as nat;
      count' := count' + 1;
      checksum' := Step(checksum', b);
      assert (done + inRow) + [b] == done + (inRow + [b]);
      inRow := inRow + [b];
      x, col := x + 8, col + 1;
    }
  }

  lemma GridRow(mem: seq<Byte>, stride: int, width: int, height: int, row: nat, off: nat)
    requires RowsFit(mem, stride, width, height) && width > 0
    requires row < SampleCount(height) && off == 8 * row * stride
    requires off + width <= |mem|
    ensures GridSamples(mem, stride, width, height, row + 1)
            == GridSamples(mem, stride, width, height, row) + RowSamples(mem, off, SampleCount(width))
  {
  }

  /** The three accumulators of the scan after the bytes `s`. */
  predicate Scanned(h: Hash, s: seq<Byte>, h': Hash, sum: nat, count: nat) {
    h' == Fold(h, s) && sum == ByteSum(s) && count == |s|
  }

  lemma ScanNothing(h: Hash)
    ensures Scanned(h, [], h, 0, 0)
  {
  }

  lemma GridStart(mem: seq<Byte>, stride: int, width: int, height: int)
    requires RowsFit(mem, stride, width, height) && width > 0
    ensures GridSamples(mem, stride, width, height, 0) == []
  {
  }

  lemma ScanOne(h: Hash, s: seq<Byte>, b: Byte)
    ensures Scanned(h, s + [b], Step(Fold(h, s), b), ByteSum(s) + b as nat, |s| + 1)
  {
    assert (s + [b])[..|s|] == s;
  }
}
