/** Strided I420 planes to one tight buffer, as the recorder and the RTSP sink both do it. */
module I420Packing {
  import opened Arithmetic
  import opened PixelFormats
  import opened VideoFrames

  function ChromaWidth(width: int): int { (width + 1) / 2 }

  function ChromaHeight(height: int): int { (height + 1) / 2 }

  /** An I420 frame whose planes hold every visible row; strides may exceed the row width. */
  predicate Packable(f: VideoFrame) {
    && f.width > 0 && f.height > 0
    && f.data.Some? && f.plane1.Some? && f.plane2.Some?
    && RowsFit(f.data.value, f.stride, f.width, f.height)
    && RowsFit(f.plane1.value, f.stride1, ChromaWidth(f.width), ChromaHeight(f.height))
    && RowsFit(f.plane2.value, f.stride2, ChromaWidth(f.width), ChromaHeight(f.height))
  }

  /** The first `n` visible rows of a plane, without padding. */
  function Rows(mem: seq<Byte>, stride: int, cols: int, rows: int, n: nat): (s: seq<Byte>)
    requires RowsFit(mem, stride, cols, rows) && 0 < cols && n <= rows
  {
    if n == 0 then []
    else
      RowInside(mem, stride, cols, rows, n - 1);
      Rows(mem, stride, cols, rows, n - 1) + mem[(n - 1) * stride..(n - 1) * stride + cols]
  }

  function YRows(f: VideoFrame): seq<Byte>
    requires Packable(f)
  {
    Rows(f.data.value, f.stride, f.width, f.height, f.height)
  }

  function URows(f: VideoFrame): seq<Byte>
    requires Packable(f)
  {
    Rows(f.plane1.value, f.stride1, ChromaWidth(f.width), ChromaHeight(f.height), ChromaHeight(f.height))
  }

  function VRows(f: VideoFrame): seq<Byte>
    requires Packable(f)
  {
    Rows(f.plane2.value, f.stride2, ChromaWidth(f.width), ChromaHeight(f.height), ChromaHeight(f.height))
  }

  /** The tight buffer: the Y rows, then the U rows, then the V rows. */
  function Tight(f: VideoFrame): seq<Byte>
    requires Packable(f)
  {
    YRows(f) + URows(f) + VRows(f)
  }

  // ---- what the tight buffer holds ---------------------------------------------------

  lemma {:induction false} RowsLength(mem: seq<Byte>, stride: int, cols: int, rows: int, n: nat)
    requires RowsFit(mem, stride, cols, rows) && 0 < cols && n <= rows
    ensures |Rows(mem, stride, cols, rows, n)| == n * cols
  {
    if n > 0 {
      RowsLength(mem, stride, cols, rows, n - 1);
      RowInside(mem, stride, cols, rows, n - 1);
      MulStep(n, cols);
    }
  }

  /** Byte (r, c) of the plane is at r * cols + c of its tight rows. */
  lemma {:induction false} RowsAt(mem: seq<Byte>, stride: int, cols: int, rows: int, n: nat, r: nat, c: nat)
    requires RowsFit(mem, stride, cols, rows) && n <= rows
    requires r < n && c < cols
    ensures 0 <= r * cols + c < |Rows(mem, stride, cols, rows, n)|
    ensures 0 <= r * stride + c < |mem|
    ensures Rows(mem, stride, cols, rows, n)[r * cols + c] == mem[r * stride + c]
  {
    CellInside(r, c, n, cols);
    RowsLength(mem, stride, cols, rows, n);
    RowsLength(mem, stride, cols, rows, n - 1);
    RowInside(mem, stride, cols, rows, r);
    RowInside(mem, stride, cols, rows, n - 1);
    if r < n - 1 {
      RowsAt(mem, stride, cols, rows, n - 1, r, c);
    }
  }

  /** Two planes agree on their visible bytes. */
  ghost predicate SameVisible(a: seq<Byte>, strideA: int, b: seq<Byte>, strideB: int, cols: int, rows: int)
    requires RowsFit(a, strideA, cols, rows) && RowsFit(b, strideB, cols, rows)
  {
    forall r, c :: 0 <= r < rows && 0 <= c < cols ==>
      VisibleByte(a, strideA, cols, rows, r, c) == VisibleByte(b, strideB, cols, rows, r, c)
  }

  function VisibleByte(mem: seq<Byte>, stride: int, cols: int, rows: int, r: int, c: int): Byte
    requires RowsFit(mem, stride, cols, rows)
    requires 0 <= r < rows && 0 <= c < cols
  {
    RowInside(mem, stride, cols, rows, r);
    mem[r * stride + c]
  }

  lemma RowsHoldVisible(mem: seq<Byte>, stride: int, cols: int, rows: int, r: nat, c: nat)
    requires RowsFit(mem, stride, cols, rows) && 0 <= rows && r < rows && c < cols
    ensures 0 <= r * cols + c < |Rows(mem, stride, cols, rows, rows)|
    ensures Rows(mem, stride, cols, rows, rows)[r * cols + c] == VisibleByte(mem, stride, cols, rows, r, c)
  {
    RowsAt(mem, stride, cols, rows, rows, r, c);
  }

  lemma CellOf(k: nat, rows: nat, cols: nat) returns (r: nat, c: nat)
    requires 0 < cols && k < rows * cols
    ensures r < rows && c < cols && k == r * cols + c
  {
    r, c := k / cols, k % cols;
    DivisionBounds(k, cols);
    if r >= rows {
      MulLe(rows, r, cols);
    }
  }

  lemma SameVisibleSameRows(a: seq<Byte>, strideA: int, b: seq<Byte>, strideB: int, cols: int, rows: int)
    requires RowsFit(a, strideA, cols, rows) && RowsFit(b, strideB, cols, rows) && 0 < cols && 0 <= rows
    requires SameVisible(a, strideA, b, strideB, cols, rows)
    ensures Rows(a, strideA, cols, rows, rows) == Rows(b, strideB, cols, rows, rows)
  {
    hide Rows, RowsFit, VisibleByte;
    var x, y := Rows(a, strideA, cols, rows, rows), Rows(b, strideB, cols, rows, rows);
    RowsLength(a, strideA, cols, rows, rows);
    RowsLength(b, strideB, cols, rows, rows);
    forall k | 0 <= k < |x|
      ensures x[k] == y[k]
    {
      var r, c := CellOf(k, rows, cols);
      RowsHoldVisible(a, strideA, cols, rows, r, c);
      RowsHoldVisible(b, strideB, cols, rows, r, c);
    }
  }

  /** Padding never leaks, and nothing visible is lost: two planes have the same tight rows
      exactly when they agree on every visible byte. */
  lemma SameRowsIffSameVisible(
      a: seq<Byte>, strideA: int, b: seq<Byte>, strideB: int, cols: int, rows: int)
    requires RowsFit(a, strideA, cols, rows) && RowsFit(b, strideB, cols, rows) && 0 < cols && 0 <= rows
    ensures Rows(a, strideA, cols, rows, rows) == Rows(b, strideB, cols, rows, rows)
            <==> SameVisible(a, strideA, b, strideB, cols, rows)
  {
    hide Rows, RowsFit, VisibleByte;
    if SameVisible(a, strideA, b, strideB, cols, rows) {
      SameVisibleSameRows(a, strideA, b, strideB, cols, rows);
    }
    if Rows(a, strideA, cols, rows, rows) == Rows(b, strideB, cols, rows, rows) {
      forall r, c | 0 <= r < rows && 0 <= c < cols
        ensures VisibleByte(a, strideA, cols, rows, r, c) == VisibleByte(b, strideB, cols, rows, r, c)
      {
        RowsHoldVisible(a, strideA, cols, rows, r, c);
        RowsHoldVisible(b, strideB, cols, rows, r, c);
      }
    }
  }

  /** The three planes lie one after the other and fill the buffer: width * height bytes of Y
      and twice the rounded-up quarter for chroma, for odd sizes too. */
  lemma TightLayout(f: VideoFrame)
    requires Packable(f)
    ensures var w, h, cw, ch := f.width, f.height, ChromaWidth(f.width), ChromaHeight(f.height);
      && |Tight(f)| == w * h + 2 * (cw * ch)
      && Tight(f)[..w * h] == YRows(f)
      && Tight(f)[w * h..w * h + cw * ch] == URows(f)
      && Tight(f)[w * h + cw * ch..] == VRows(f)
  {
    RowsLength(f.data.value, f.stride, f.width, f.height, f.height);
    RowsLength(f.plane1.value, f.stride1, ChromaWidth(f.width), ChromaHeight(f.height), ChromaHeight(f.height));
    RowsLength(f.plane2.value, f.stride2, ChromaWidth(f.width), ChromaHeight(f.height), ChromaHeight(f.height));
  }

  /** Chroma planes have half the width and height, rounded up. */
  lemma TightSize(f: VideoFrame)
    requires Packable(f)
    ensures |Tight(f)| == f.width * f.height + 2 * ((f.width + 1) / 2 * ((f.height + 1) / 2))
    ensures |URows(f)| == |VRows(f)| == (f.width + 1) / 2 * ((f.height + 1) / 2)
  {
    hide Tight, Rows;
    TightLayout(f);
    RowsLength(f.plane1.value, f.stride1, ChromaWidth(f.width), ChromaHeight(f.height), ChromaHeight(f.height));
    RowsLength(f.plane2.value, f.stride2, ChromaWidth(f.width), ChromaHeight(f.height), ChromaHeight(f.height));
  }

  /** Two frames of one size pack to the same bytes exactly when they show the same picture. */
  lemma PackingIsFaithful(f: VideoFrame, g: VideoFrame)
    requires Packable(f) && Packable(g) && f.width == g.width && f.height == g.height
    ensures Tight(f) == Tight(g) <==>
      && SameVisible(f.data.value, f.stride, g.data.value, g.stride, f.width, f.height)
      && SameVisible(f.plane1.value, f.stride1, g.plane1.value, g.stride1,
                     ChromaWidth(f.width), ChromaHeight(f.height))
      && SameVisible(f.plane2.value, f.stride2, g.plane2.value, g.stride2,
                     ChromaWidth(f.width), ChromaHeight(f.height))
  {
    hide Rows, SameVisible;
    var cw, ch := ChromaWidth(f.width), ChromaHeight(f.height);
    SameRowsIffSameVisible(f.data.value, f.stride, g.data.value, g.stride, f.width, f.height);
    SameRowsIffSameVisible(f.plane1.value, f.stride1, g.plane1.value, g.stride1, cw, ch);
    SameRowsIffSameVisible(f.plane2.value, f.stride2, g.plane2.value, g.stride2, cw, ch);
    TightLayout(f);
    TightLayout(g);
  }

  // ---- the two loops -------------------------------------------------------------------

  method CopyBytes(dst: array<Byte>, at: nat, src: seq<Byte>, off: nat, n: nat)
    requires at + n <= dst.Length && off + n <= |src|
    modifies dst
    ensures dst[..] == old(dst[..at]) + src[off..off + n] + old(dst[at + n..])
  {
    ghost var before := dst[..];
    for i := 0 to n
      invariant forall k :: 0 <= k < dst.Length && !(at <= k < at + i) ==> dst[k] == before[k]
      invariant forall k :: at <= k < at + i ==> dst[k] == src[off + k - at]
    {
      dst[at + i] := src[off + i];
    }
    Spliced(before, dst[..], at, src[off..off + n]);
  }

  lemma Spliced(before: seq<Byte>, now: seq<Byte>, at: nat, part: seq<Byte>)
    requires |now| == |before| && at + |part| <= |before|
    requires forall k :: 0 <= k < |now| && !(at <= k < at + |part|) ==> now[k] == before[k]
    requires forall k :: at <= k < at + |part| ==> now[k] == part[k - at]
    ensures now == before[..at] + part + before[at + |part|..]
  {
  }

  /** Copies the visible rows of one plane to `at`, leaving the rest of the buffer alone. */
  method CopyPlane(dst: array<Byte>, at: nat, mem: seq<Byte>, stride: int, cols: int, rows: int)
    requires RowsFit(mem, stride, cols, rows) && 0 < cols && 0 <= rows
    requires at + rows * cols <= dst.Length
    modifies dst
    ensures dst[..at] == old(dst[..at])
    ensures dst[at..at + rows * cols] == Rows(mem, stride, cols, rows, rows)
    ensures dst[at + rows * cols..] == old(dst[at + rows * cols..])
  {
    hide RowsFit, Rows;
    var y := 0;
    ghost var before, all := dst[..], rows * cols;
    RowsStart(mem, stride, cols, rows);
    while y < rows
      invariant 0 <= y <= rows && 0 <= y * cols <= all
      invariant dst[..at] == before[..at]
      invariant dst[at..at + y * cols] == Rows(mem, stride, cols, rows, y)
      invariant dst[at + all..] == before[at + all..]
    {
      MulStep(y, cols);
      MulLe(y + 1, rows, cols);
      RowsNext(mem, stride, cols, rows, y);
      ghost var was := dst[..];
      CopyBytes(dst, at + y * cols, mem, y * stride, cols);
      RowAppended(was, dst[..], at, y * cols, all, mem[y * stride..y * stride + cols]);
      y := y + 1;
    }
  }

  lemma RowsStart(mem: seq<Byte>, stride: int, cols: int, rows: int)
    requires RowsFit(mem, stride, cols, rows) && 0 < cols && 0 <= rows
    ensures |Rows(mem, stride, cols, rows, 0)| == 0
  {
  }

  lemma RowsNext(mem: seq<Byte>, stride: int, cols: int, rows: int, y: nat)
    requires RowsFit(mem, stride, cols, rows) && 0 < cols && y < rows
    ensures 0 <= y * stride && y * stride + cols <= |mem|
    ensures Rows(mem, stride, cols, rows, y + 1)
            == Rows(mem, stride, cols, rows, y) + mem[y * stride..y * stride + cols]
  {
    RowInside(mem, stride, cols, rows, y);
  }

  lemma RowAppended(was: seq<Byte>, now: seq<Byte>, at: nat, done: nat, all: nat, row: seq<Byte>)
    requires done + |row| <= all && at + all <= |was|
    requires now == was[..at + done] + row + was[at + done + |row|..]
    ensures now[..at] == was[..at]
    ensures now[at..at + done + |row|] == was[at..at + done] + row
    ensures now[at + all..] == was[at + all..]
  {
  }

  lemma ThreeParts(s: seq<Byte>, i: nat, j: nat)
    requires i <= j <= |s|
    ensures s == s[..i] + s[i..j] + s[j..]
  {
  }

  lemma Joined(s: seq<Byte>, i: nat, j: nat)
    requires i <= j <= |s|
    ensures s[..j] == s[..i] + s[i..j]
  {
  }

  lemma SizesNonNegative(f: VideoFrame)
    requires Packable(f)
    ensures 0 < ChromaWidth(f.width) && 0 < ChromaHeight(f.height)
    ensures 0 <= f.width * f.height == f.height * f.width && 0 <= ChromaWidth(f.width) * ChromaHeight(f.height)
  {
    MulLe(0, f.width, f.height);
    MulLe(0, ChromaWidth(f.width), ChromaHeight(f.height));
  }

  /** The packing in the recorder's OnFrame: a vector resized to the tight size, plane bases
      advanced after each plane. */
  method PackForFile(f: VideoFrame) returns (data: array<Byte>)
    requires Packable(f)
    ensures fresh(data) && data[..] == Tight(f)
  {
    hide Rows, RowsFit, ChromaWidth, ChromaHeight;
    TightLayout(f);
    var cw, ch := ChromaWidth(f.width), ChromaHeight(f.height);
    SizesNonNegative(f);
    var luma, chroma := f.width * f.height, cw * ch;
    data := new Byte[luma + 2 * chroma](_ => 0);
    CopyPlane(data, 0, f.data.value, f.stride, f.width, f.height);
    assert data[..luma] == YRows(f);
    CopyPlane(data, luma, f.plane1.value, f.stride1, cw, ch);
    assert data[..luma] == YRows(f) && data[luma..luma + chroma] == URows(f);
    Joined(data[..], luma, luma + chroma);
    CopyPlane(data, luma + chroma, f.plane2.value, f.stride2, cw, ch);
    assert data[..luma + chroma] == YRows(f) + URows(f) && data[luma + chroma..] == VRows(f);
    ThreeParts(data[..], luma, luma + chroma);
  }

  /** The packing in the RTSP sink's OnFrame: straight into a mapped buffer whose bytes start
      out arbitrary, so every one of them has to be written. */
  method PackForRtsp(f: VideoFrame, mapped: array<Byte>)
    requires Packable(f)
    requires mapped.Length == f.width * f.height + 2 * (ChromaWidth(f.width) * ChromaHeight(f.height))
    modifies mapped
    ensures mapped[..] == Tight(f)
  {
    hide Rows, RowsFit, ChromaWidth, ChromaHeight;
    TightLayout(f);
    var cw, ch := ChromaWidth(f.width), ChromaHeight(f.height);
    SizesNonNegative(f);
    var dst := 0;
    CopyPlane(mapped, dst, f.data.value, f.stride, f.width, f.height);
    dst := dst + f.width * f.height;
    CopyPlane(mapped, dst, f.plane1.value, f.stride1, cw, ch);
    dst := dst + cw * ch;
    CopyPlane(mapped, dst, f.plane2.value, f.stride2, cw, ch);
    ThreeParts(mapped[..], dst - cw * ch, dst);
  }
}
