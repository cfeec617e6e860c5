/** The decoded-frame handle that every sink receives. */
module VideoFrames {
  import opened Arithmetic
  import opened PixelFormats

  datatype Option<+T> = None | Some(value: T)

  newtype Byte = x: int | 0 <= x < 256

  /** The memory a plane pointer gives access to; None is the null pointer. */
  type Plane = Option<seq<Byte>>

  datatype VideoFrame = VideoFrame(
    width: int,
    height: int,
    format: PixelFormat,
    data: Plane,
    stride: int,
    dataSize: nat,
    plane1: Plane,
    stride1: int,
    plane2: Plane,
    stride2: int,
    ptsNs: int,
    hwSeq: nat)
  {
    predicate Valid() {
      data.Some? && width > 0 && height > 0 && !format.Unknown?
    }
  }

  /** `rows` rows of `cols` bytes, `stride` bytes apart, lie inside the plane. */
  predicate RowsFit(mem: seq<Byte>, stride: int, cols: int, rows: int) {
    0 <= stride && (cols > 0 && rows > 0 ==> (rows - 1) * stride + cols <= |mem|)
  }

  /** Row `r` of the plane starts where the source's pointer arithmetic says, and is readable. */
  lemma RowInside(mem: seq<Byte>, stride: int, cols: int, rows: int, r: int)
    requires RowsFit(mem, stride, cols, rows)
    requires 0 < cols && 0 <= r < rows
    ensures 0 <= r * stride && r * stride + cols <= |mem|
  {
    MulLe(r, rows - 1, stride);
  }
}
