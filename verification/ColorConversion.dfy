/** The CPU colour path (packed YUYV and semi-planar NV12 to RGBA) and the shader it stands in for. */
module ColorConversion {
  import opened Arithmetic
  import opened VideoFrames

  datatype Rgba = Rgba(r: Byte, g: Byte, b: Byte, a: Byte)

  function Clamp8(v: int): Byte {
    if v < 0 then 0 else if v > 255 then 255 else v as Byte
  }

  /** The fixed-point BT.601 conversion; shifting right by 8 rounds towards minus infinity. */
  function FixedPoint(y: Byte, u: Byte, v: Byte): Rgba {
    var c, d, e := y as int - 16, u as int - 128, v as int - 128;
    Rgba(Clamp8((298 * c + 409 * e + 128) / 256),
         Clamp8((298 * c - 100 * d - 208 * e + 128) / 256),
         Clamp8((298 * c + 516 * d + 128) / 256),
         255)
  }

  // ---- the shader's formula, scaled from [0, 1] to [0, 255] ----------------------------------

  function ClampReal(x: real): real {
    if x < 0.0 then 0.0 else if x > 255.0 then 255.0 else x
  }

  function ShaderLuma(y: Byte): real { 1.164 * (y as int as real - 0.0625 * 255.0) }

  function Centred(c: Byte): real { c as int as real - 0.5 * 255.0 }

  function ShaderRed(y: Byte, v: Byte): real { ClampReal(ShaderLuma(y) + 1.596 * Centred(v)) }

  function ShaderGreen(y: Byte, u: Byte, v: Byte): real {
    ClampReal(ShaderLuma(y) - 0.391 * Centred(u) - 0.813 * Centred(v))
  }

  function ShaderBlue(y: Byte, u: Byte): real { ClampReal(ShaderLuma(y) + 2.018 * Centred(u)) }

  /** Rounding x / 256 to nearest by adding 128 and flooring, then clamping to a byte, against
      clamping a nearby real: the bound on the reals carries over. */
  lemma RoundedWithin(x: int, shader: real, lo: real, hi: real)
    requires lo <= 0.0 <= hi
    requires lo + 0.5 <= shader - x as real / 256.0 <= hi - 0.5
    ensures lo <= ClampReal(shader) - Clamp8((x + 128) / 256) as int as real <= hi
  {
    var q := (x + 128) / 256;
    assert 256 * q <= x + 128 < 256 * q + 256;
    assert x as real / 256.0 - 0.5 < q as real <= x as real / 256.0 + 0.5;
  }

  lemma RedMatches(y: Byte, u: Byte, v: Byte)
    ensures 0.0 <= ShaderRed(y, v) - FixedPoint(y, u, v).r as int as real <= 1.6
  {
    RoundedWithin(298 * (y as int - 16) + 409 * (v as int - 128), ShaderLuma(y) + 1.596 * Centred(v), 0.0, 1.6);
  }

  lemma GreenMatches(y: Byte, u: Byte, v: Byte)
    ensures -1.2 <= ShaderGreen(y, u, v) - FixedPoint(y, u, v).g as int as real <= 0.1
  {
    RoundedWithin(298 * (y as int - 16) - 100 * (u as int - 128) - 208 * (v as int - 128),
                  ShaderLuma(y) - 0.391 * Centred(u) - 0.813 * Centred(v), -1.2, 0.1);
  }

  lemma BlueMatches(y: Byte, u: Byte, v: Byte)
    ensures 0.0 <= ShaderBlue(y, u) - FixedPoint(y, u, v).b as int as real <= 1.9
  {
    RoundedWithin(298 * (y as int - 16) + 516 * (u as int - 128), ShaderLuma(y) + 2.018 * Centred(u), 0.0, 1.9);
  }

  /** Every pixel, all 2^24 inputs: the CPU path stays within two levels of the shader, never above
      it in red and blue, and within 1.2 levels in green. One level would not do. */
  lemma CpuMatchesShader(y: Byte, u: Byte, v: Byte)
    ensures var cpu := FixedPoint(y, u, v);
      && 0.0 <= ShaderRed(y, v) - cpu.r as int as real <= 1.6
      && -1.2 <= ShaderGreen(y, u, v) - cpu.g as int as real <= 0.1
      && 0.0 <= ShaderBlue(y, u) - cpu.b as int as real <= 1.9
    ensures ShaderBlue(24, 187) - FixedPoint(24, 187, 128).b as int as real > 1.0
  {
    hide ShaderRed, ShaderGreen, ShaderBlue, FixedPoint;
    RedMatches(y, u, v);
    GreenMatches(y, u, v);
    BlueMatches(y, u, v);
    OneLevelIsTooTight();
  }

  lemma OneLevelIsTooTight()
    ensures ShaderBlue(24, 187) - FixedPoint(24, 187, 128).b as int as real > 1.0
  {
  }

  /** Reference black and white are exact. */
  lemma BlackAndWhite()
    ensures FixedPoint(16, 128, 128) == Rgba(0, 0, 0, 255)
    ensures FixedPoint(235, 128, 128) == Rgba(255, 255, 255, 255)
  {
  }

  // ---- images -----------------------------------------------------------------------------------

  function PixelAt(mem: seq<Byte>, k: nat): Rgba
    requires 4 * k + 3 < |mem|
  {
    Rgba(mem[4 * k], mem[4 * k + 1], mem[4 * k + 2], mem[4 * k + 3])
  }

  /** Bytes of one packed row: two pixels share four bytes, an odd last pixel too. */
  function PackedRow(width: int): int { (width + 1) / 2 * 4 }

  predicate YuyvFits(f: VideoFrame) {
    f.Valid() && RowsFit(f.data.value, f.stride, PackedRow(f.width), f.height)
  }

  function YuyvPixel(f: VideoFrame, x: int, y: int): Rgba
    requires YuyvFits(f) && 0 <= x < f.width && 0 <= y < f.height
  {
    RowInside(f.data.value, f.stride, PackedRow(f.width), f.height, y);
    var pair := y * f.stride + x / 2 * 4;
    FixedPoint(f.data.value[pair + 2 * (x % 2)], f.data.value[pair + 1], f.data.value[pair + 3])
  }

  predicate Nv12Fits(f: VideoFrame) {
    && f.Valid() && f.plane1.Some?
    && RowsFit(f.data.value, f.stride, f.width, f.height)
    && RowsFit(f.plane1.value, f.stride1, (f.width + 1) / 2 * 2, (f.height + 1) / 2)
  }

  function Nv12Pixel(f: VideoFrame, x: int, y: int): Rgba
    requires Nv12Fits(f) && 0 <= x < f.width && 0 <= y < f.height
  {
    RowInside(f.data.value, f.stride, f.width, f.height, y);
    RowInside(f.plane1.value, f.stride1, (f.width + 1) / 2 * 2, (f.height + 1) / 2, y / 2);
    var pair := y / 2 * f.stride1 + x / 2 * 2;
    FixedPoint(f.data.value[y * f.stride + x], f.plane1.value[pair], f.plane1.value[pair + 1])
  }

  /** Pixel k of the row-major image. */
  lemma Coordinates(w: int, x: int, y: int)
    requires w > 0 && 0 <= x < w && 0 <= y
    ensures (y * w + x) / w == y && (y * w + x) % w == x
  {
    var k := y * w + x;
    MulLe(0, y, w);
    DivisionBounds(k, w);
    if k / w < y {
      MulLe(k / w + 1, y, w);
      MulStep(k / w, w);
    } else if k / w > y {
      MulLe(y + 1, k / w, w);
      MulStep(y, w);
    }
  }

  lemma PixelInside(k: nat, w: nat, h: nat)
    requires w > 0 && k < w * h
    ensures 0 <= k % w < w && 0 <= k / w < h && k / w * w + k % w == k
  {
    DivisionBounds(k, w);
    if k / w >= h {
      MulLe(h, k / w, w);
    }
  }

  /** Where row y starts. */
  function Offset(y: int, stride: int): int { y * stride }

  lemma OffsetStep(y: int, stride: int)
    ensures Offset(0, stride) == 0 && Offset(y + 1, stride) == Offset(y, stride) + stride
  {
  }

  function Area(f: VideoFrame): int { f.width * f.height }

  /** The whole image, row-major: what a YUYV frame shows. */
  function YuyvImage(f: VideoFrame): (image: seq<Rgba>)
    requires YuyvFits(f)
    ensures Area(f) >= 0 && |image| == Area(f)
  {
    MulLe(0, f.height, f.width);
    seq(f.width * f.height, k requires 0 <= k < f.width * f.height =>
      PixelInside(k, f.width, f.height); YuyvPixel(f, k % f.width, k / f.width))
  }

  function Nv12Image(f: VideoFrame): (image: seq<Rgba>)
    requires Nv12Fits(f)
    ensures Area(f) >= 0 && |image| == Area(f)
  {
    MulLe(0, f.height, f.width);
    seq(f.width * f.height, k requires 0 <= k < f.width * f.height =>
      PixelInside(k, f.width, f.height); Nv12Pixel(f, k % f.width, k / f.width))
  }

  lemma YuyvImageAt(f: VideoFrame, x: int, y: int)
    requires YuyvFits(f) && 0 <= x < f.width && 0 <= y < f.height
    ensures 0 <= Offset(y, f.width) + x < Area(f)
    ensures YuyvImage(f)[Offset(y, f.width) + x] == YuyvPixel(f, x, y)
  {
    hide YuyvPixel;
    CellInside(y, x, f.height, f.width);
    Coordinates(f.width, x, y);
  }

  lemma Nv12ImageAt(f: VideoFrame, x: int, y: int)
    requires Nv12Fits(f) && 0 <= x < f.width && 0 <= y < f.height
    ensures 0 <= Offset(y, f.width) + x < Area(f)
    ensures Nv12Image(f)[Offset(y, f.width) + x] == Nv12Pixel(f, x, y)
  {
    hide Nv12Pixel;
    CellInside(y, x, f.height, f.width);
    Coordinates(f.width, x, y);
  }

  /** The first n pixels in memory are those of the image. */
  ghost predicate Shows(mem: seq<Byte>, image: seq<Rgba>, n: int) {
    && n <= |image| && |mem| == 4 * |image|
    && forall k :: 0 <= k < n ==> PixelAt(mem, k) == image[k]
  }

  /** Yuv2Rgb: convert one pixel into four bytes at the output pointer. */
  method Yuv2Rgb(y: Byte, u: Byte, v: Byte, dst: array<Byte>, out: nat, ghost image: seq<Rgba>, ghost n: nat)
    requires out == 4 * n && Shows(dst[..], image, n) && n < |image| && image[n] == FixedPoint(y, u, v)
    modifies dst
    ensures Shows(dst[..], image, n + 1)
  {
    ghost var before := dst[..];
    var c, d, e := y as int - 16, u as int - 128, v as int - 128;
    dst[out] := Clamp8((298 * c + 409 * e + 128) / 256);
    dst[out + 1] := Clamp8((298 * c - 100 * d - 208 * e + 128) / 256);
    dst[out + 2] := Clamp8((298 * c + 516 * d + 128) / 256);
    dst[out + 3] := 255;
    assert PixelAt(dst[..], n) == FixedPoint(y, u, v);
    PixelWritten(before, dst[..], image, n);
  }

  lemma PixelWritten(before: seq<Byte>, after: seq<Byte>, image: seq<Rgba>, n: nat)
    requires Shows(before, image, n) && n < |image| && |after| == |before|
    requires forall i :: 0 <= i < 4 * n ==> after[i] == before[i]
    requires PixelAt(after, n) == image[n]
    ensures Shows(after, image, n + 1)
  {
    forall k | 0 <= k < n + 1
      ensures PixelAt(after, k) == image[k]
    {
      if k < n {
        assert PixelAt(before, k) == image[k];
      }
    }
  }

  lemma NothingShown(mem: seq<Byte>, image: seq<Rgba>)
    requires |mem| == 4 * |image|
    ensures Shows(mem, image, 0)
  {
  }

  lemma YuyvFrame(f: VideoFrame)
    requires YuyvFits(f)
    ensures f.width > 0 && f.height > 0 && f.data.Some? && Offset(f.height, f.width) == Area(f) >= 0
  {
    MulLe(0, f.height, f.width);
  }

  /** The four bytes of the pair that starts at even x are readable, and are its two pixels. */
  lemma ReadPair(f: VideoFrame, x: int, y: int)
    requires YuyvFits(f) && 0 <= x < f.width && 0 <= y < f.height && x % 2 == 0
    ensures f.data.Some?
    ensures var at, mem, k, image := Offset(y, f.stride) + 2 * x, f.data.value, Offset(y, f.width) + x, YuyvImage(f);
      && 0 <= at && at + 3 < |mem| && 0 <= k < |image|
      && image[k] == FixedPoint(mem[at], mem[at + 1], mem[at + 3])
      && (x + 1 < f.width ==> k + 1 < |image| && image[k + 1] == FixedPoint(mem[at + 2], mem[at + 1], mem[at + 3]))
  {
    hide FixedPoint, YuyvPixel, YuyvImage, YuyvFits, Offset, Area;
    PairBytes(f, x, y);
    YuyvImageAt(f, x, y);
    if x + 1 < f.width {
      YuyvImageAt(f, x + 1, y);
    }
  }

  lemma PairBytes(f: VideoFrame, x: int, y: int)
    requires YuyvFits(f) && 0 <= x < f.width && 0 <= y < f.height && x % 2 == 0
    ensures f.data.Some?
    ensures var at, mem := Offset(y, f.stride) + 2 * x, f.data.value;
      && 0 <= at && at + 3 < |mem|
      && YuyvPixel(f, x, y) == FixedPoint(mem[at], mem[at + 1], mem[at + 3])
      && (x + 1 < f.width ==> YuyvPixel(f, x + 1, y) == FixedPoint(mem[at + 2], mem[at + 1], mem[at + 3]))
  {
    hide FixedPoint;
    RowInside(f.data.value, f.stride, PackedRow(f.width), f.height, y);
  }

  /** One row, two pixels per step; an odd last pixel takes only the pair's first luma. */
  method ConvertYuyvRow(f: VideoFrame, y: nat, dst: array<Byte>, ghost image: seq<Rgba>)
    requires YuyvFits(f) && y < f.height && image == YuyvImage(f)
    requires Shows(dst[..], image, Offset(y, f.width))
    modifies dst
    ensures Shows(dst[..], image, Offset(y, f.width) + f.width)
  {
    hide FixedPoint, YuyvFits, YuyvImage, YuyvPixel, Shows, Offset, Area;
    YuyvFrame(f);
    var row, out := Offset(y, f.stride), Offset(y, f.width) * 4;
    var x := 0;
    while x < f.width
      invariant 0 <= x && x % 2 == 0
      invariant row == Offset(y, f.stride) + 2 * x && out == 4 * (Offset(y, f.width) + x)
      invariant Shows(dst[..], image, Offset(y, f.width) + if x < f.width then x else f.width)
    {
      ReadPair(f, x, y);
      var y0, u, y1, v := f.data.value[row], f.data.value[row + 1], f.data.value[row + 2], f.data.value[row + 3];
      Yuv2Rgb(y0, u, v, dst, out, image, Offset(y, f.width) + x);
      if x + 1 < f.width {
        Yuv2Rgb(y1, u, v, dst, out + 4, image, Offset(y, f.width) + x + 1);
      }
      row := row + 4;
      out := out + 8;
      x := x + 2;
    }
  }

  /** Every access is in bounds, and the output is exactly the image. */
  method ConvertYuyvToRgba(f: VideoFrame) returns (dst: array<Byte>)
    requires YuyvFits(f)
    ensures fresh(dst) && Shows(dst[..], YuyvImage(f), Area(f))
  {
    hide FixedPoint, YuyvFits, YuyvImage, YuyvPixel, Shows, Offset, Area;
    YuyvFrame(f);
    dst := new Byte[Area(f) * 4];
    ghost var image := YuyvImage(f);
    NothingShown(dst[..], image);
    OffsetStep(0, f.width);
    var y := 0;
    while y < f.height
      invariant 0 <= y <= f.height
      invariant fresh(dst) && Shows(dst[..], image, Offset(y, f.width))
    {
      ConvertYuyvRow(f, y, dst, image);
      OffsetStep(y, f.width);
      y := y + 1;
    }
  }

  lemma Nv12Frame(f: VideoFrame)
    requires Nv12Fits(f)
    ensures f.width > 0 && f.height > 0 && f.data.Some? && f.plane1.Some?
    ensures Offset(f.height, f.width) == Area(f) >= 0
  {
    MulLe(0, f.height, f.width);
  }

  lemma ReadNv12(f: VideoFrame, x: int, y: int)
    requires Nv12Fits(f) && 0 <= x < f.width && 0 <= y < f.height
    ensures var at, pair := Offset(y, f.stride) + x, Offset(y / 2, f.stride1) + x / 2 * 2;
      var k, image := Offset(y, f.width) + x, Nv12Image(f);
      && 0 <= at < |f.data.value| && 0 <= pair && pair + 1 < |f.plane1.value| && 0 <= k < |image|
      && image[k] == FixedPoint(f.data.value[at], f.plane1.value[pair], f.plane1.value[pair + 1])
  {
    hide FixedPoint, Nv12Image, Area;
    Nv12ImageAt(f, x, y);
    RowInside(f.data.value, f.stride, f.width, f.height, y);
    RowInside(f.plane1.value, f.stride1, (f.width + 1) / 2 * 2, (f.height + 1) / 2, y / 2);
  }

  method ConvertNv12ToRgba(f: VideoFrame) returns (dst: array<Byte>)
    requires Nv12Fits(f)
    ensures fresh(dst) && Shows(dst[..], Nv12Image(f), Area(f))
  {
    hide FixedPoint, Nv12Fits, Nv12Image, Nv12Pixel, Shows, Offset, Area;
    Nv12Frame(f);
    dst := new Byte[Area(f) * 4];
    ghost var image := Nv12Image(f);
    NothingShown(dst[..], image);
    OffsetStep(0, f.width);
    var y := 0;
    while y < f.height
      invariant 0 <= y <= f.height
      invariant fresh(dst) && Shows(dst[..], image, Offset(y, f.width))
    {
      var yRow, uvRow, out := Offset(y, f.stride), Offset(y / 2, f.stride1), Offset(y, f.width) * 4;
      var x := 0;
      while x < f.width
        invariant 0 <= x <= f.width && out == 4 * (Offset(y, f.width) + x)
        invariant fresh(dst) && Shows(dst[..], image, Offset(y, f.width) + x)
      {
        ReadNv12(f, x, y);
        var yy := f.data.value[yRow + x];
        var u, v := f.plane1.value[uvRow + x / 2 * 2], f.plane1.value[uvRow + x / 2 * 2 + 1];
        Yuv2Rgb(yy, u, v, dst, out, image, Offset(y, f.width) + x);
        out := out + 4;
        x := x + 1;
      }
      OffsetStep(y, f.width);
      y := y + 1;
    }
  }

  // ---- opacity and memory --------------------------------------------------------------------------

  /** No pixel of either kind of picture is transparent. */
  lemma PicturesAreOpaque(f: VideoFrame, k: nat)
    ensures YuyvFits(f) && k < |YuyvImage(f)| ==> YuyvImage(f)[k].a == 255
    ensures Nv12Fits(f) && k < |Nv12Image(f)| ==> Nv12Image(f)[k].a == 255
  {
    if f.width > 0 && f.height > 0 && k < Area(f) {
      PixelInside(k, f.width, f.height);
      hide RowsFit, Clamp8;
    }
  }

  /** The memory that a frame must have is just what is read: up to the last byte of the last packed row,
      or of the last luma and chroma rows, which the last pixel reads. */
  lemma FitsIffLastByteIsThere(f: VideoFrame)
    requires f.Valid()
    ensures YuyvFits(f) <==>
      f.stride >= 0 && (f.height - 1) * f.stride + (f.width - 1) / 2 * 4 + 3 < |f.data.value|
    ensures Nv12Fits(f) <==>
      && f.plane1.Some? && f.stride >= 0 && f.stride1 >= 0
      && (f.height - 1) * f.stride + f.width - 1 < |f.data.value|
      && (f.height - 1) / 2 * f.stride1 + (f.width - 1) / 2 * 2 + 1 < |f.plane1.value|
  {
    assert (f.height + 1) / 2 - 1 == (f.height - 1) / 2;
    assert (f.width + 1) / 2 - 1 == (f.width - 1) / 2;
    if f.plane1.Some? {
      assert ((f.height + 1) / 2 - 1) * f.stride1 == (f.height - 1) / 2 * f.stride1;
    }
  }
}
