/**
 * Decoding of the device-independent bitmap that a TWAIN native transfer
 * (`DAT_IMAGENATIVEXFER`) hands back: a `BITMAPINFOHEADER` (biSize at offset 0,
 * biWidth at 4, biHeight at 8, biBitCount at 14, all little-endian), an optional
 * colour table, then the pixel rows, each padded to a multiple of 4 bytes.
 * Rows are copied into a destination raster that has its own row length, the
 * one GDI+ gives a bitmap of the chosen pixel format.
 */
module Dib {
  import opened Wrappers

  /** A byte of the native buffer. */
  newtype byte = b: int | 0 <= b < 0x100

  const Int32Min: int := -0x8000_0000
  const Int32Max: int := 0x7FFF_FFFF

  // ---------------------------------------------------------------------------
  // Little-endian reads (Marshal.ReadInt32 / Marshal.ReadInt16) and their inverses

  function ReadUInt16(buf: seq<byte>, off: nat): (v: nat)
    requires off + 2 <= |buf|
    ensures v < 0x1_0000
  {
    buf[off] as int + 0x100 * buf[off + 1] as int
  }

  function ReadUInt32(buf: seq<byte>, off: nat): (v: nat)
    requires off + 4 <= |buf|
    ensures v < 0x1_0000_0000
  {
    ReadUInt16(buf, off) + 0x1_0000 * ReadUInt16(buf, off + 2)
  }

  /** Two's-complement reading of the 16 bits at `off`. */
  function ReadInt16(buf: seq<byte>, off: nat): (v: int)
    requires off + 2 <= |buf|
    ensures -0x8000 <= v < 0x8000
  {
    var u := ReadUInt16(buf, off);
    if u < 0x8000 then u else u - 0x1_0000
  }

  /** Two's-complement reading of the 32 bits at `off`. */
  function ReadInt32(buf: seq<byte>, off: nat): (v: int)
    requires off + 4 <= |buf|
    ensures Int32Min <= v <= Int32Max
  {
    var u := ReadUInt32(buf, off);
    if u < 0x8000_0000 then u else u - 0x1_0000_0000
  }

  function EncodeUInt16(u: nat): (bytes: seq<byte>)
    requires u < 0x1_0000
    ensures |bytes| == 2
  {
    [(u % 0x100) as byte, (u / 0x100) as byte]
  }

  function EncodeInt16(v: int): (bytes: seq<byte>)
    requires -0x8000 <= v < 0x8000
    ensures |bytes| == 2
  {
    EncodeUInt16(if v < 0 then v + 0x1_0000 else v)
  }

  function EncodeInt32(v: int): (bytes: seq<byte>)
    requires Int32Min <= v <= Int32Max
    ensures |bytes| == 4
  {
    var u := if v < 0 then v + 0x1_0000_0000 else v;
    EncodeUInt16(u % 0x1_0000) + EncodeUInt16(u / 0x1_0000)
  }

  lemma ReadEncodeUInt16(u: nat)
    requires u < 0x1_0000
    ensures ReadUInt16(EncodeUInt16(u), 0) == u
  {
  }

  /** Reading back what was encoded gives the original 16-bit value. */
  lemma {:induction false} ReadEncodeInt16(v: int)
    requires -0x8000 <= v < 0x8000
    ensures ReadInt16(EncodeInt16(v), 0) == v
  {
    ReadEncodeUInt16(if v < 0 then v + 0x1_0000 else v);
  }

  /** Reading back what was encoded gives the original 32-bit value. */
  lemma {:induction false} ReadEncodeInt32(v: int)
    requires Int32Min <= v <= Int32Max
    ensures ReadInt32(EncodeInt32(v), 0) == v
  {
    var u := if v < 0 then v + 0x1_0000_0000 else v;
    var lo, hi := EncodeUInt16(u % 0x1_0000), EncodeUInt16(u / 0x1_0000);
    var b := lo + hi;
    ReadEncodeUInt16(u % 0x1_0000);
    ReadEncodeUInt16(u / 0x1_0000);
    assert b[0..2] == lo && b[2..4] == hi;
    assert ReadUInt16(b, 0) == ReadUInt16(lo, 0);
    assert ReadUInt16(b, 2) == ReadUInt16(hi, 0);
    assert ReadUInt32(b, 0) == u;
  }

  // ---------------------------------------------------------------------------
  // The header

  datatype DibHeader = DibHeader(headerSize: int, width: int, height: int, bitCount: int)

  /** The header fields occupy the first 16 bytes; a shorter buffer has no header. */
  function ParseHeader(buf: seq<byte>): (r: Option<DibHeader>)
    ensures r.Some? <==> |buf| >= 16
    ensures r.Some? ==> Int32Min <= r.value.width <= Int32Max && -0x8000 <= r.value.bitCount < 0x8000
  {
    if |buf| < 16 then None
    else Some(DibHeader(ReadInt32(buf, 0), ReadInt32(buf, 4), ReadInt32(buf, 8), ReadInt16(buf, 14)))
  }

  predicate HeaderInRange(h: DibHeader)
  {
    && Int32Min <= h.headerSize <= Int32Max
    && Int32Min <= h.width <= Int32Max
    && Int32Min <= h.height <= Int32Max
    && -0x8000 <= h.bitCount < 0x8000
  }

  /** The 16 leading bytes of a `BITMAPINFOHEADER` holding `h`, with biPlanes = 1. */
  function EncodeHeader(h: DibHeader): (bytes: seq<byte>)
    requires HeaderInRange(h)
    ensures |bytes| == 16
  {
    EncodeInt32(h.headerSize) + EncodeInt32(h.width) + EncodeInt32(h.height)
      + EncodeInt16(1) + EncodeInt16(h.bitCount)
  }

  /** Parsing an encoded header, whatever follows it, gives the header back. */
  lemma {:induction false} ParseEncodeHeader(h: DibHeader, rest: seq<byte>)
    requires HeaderInRange(h)
    ensures ParseHeader(EncodeHeader(h) + rest) == Some(h)
  {
    var buf := EncodeHeader(h) + rest;
    ReadEncodeInt32(h.headerSize);
    ReadEncodeInt32(h.width);
    ReadEncodeInt32(h.height);
    ReadEncodeInt16(h.bitCount);
    assert buf[0..4] == EncodeInt32(h.headerSize);
    assert buf[4..8] == EncodeInt32(h.width);
    assert buf[8..12] == EncodeInt32(h.height);
    assert buf[14..16] == EncodeInt16(h.bitCount);
    ReadShift32(buf, 0);
    ReadShift32(buf, 4);
    ReadShift32(buf, 8);
    assert ReadInt16(buf, 14) == ReadInt16(buf[14..16], 0);
  }

  lemma ReadShift32(buf: seq<byte>, off: nat)
    requires off + 4 <= |buf|
    ensures ReadInt32(buf, off) == ReadInt32(buf[off..off + 4], 0)
  {
  }

  // ---------------------------------------------------------------------------
  // Layout arithmetic

  /**
   * The length of a row of `width` pixels of `bitCount` bits, rounded up to a
   * 4-byte boundary: `((width * bitCount + 31) / 32) * 4`. It holds all the
   * row's bits and wastes fewer than 32 of them.
   */
  function Stride(width: nat, bitCount: nat): (s: nat)
    ensures s % 4 == 0
    ensures 8 * s >= width * bitCount
    ensures 8 * s < width * bitCount + 32
  {
    ((width * bitCount + 31) / 32) * 4
  }

  /** No shorter 4-byte-aligned row holds `width * bitCount` bits. */
  lemma {:induction false} StrideIsLeast(width: nat, bitCount: nat, s: nat)
    requires s % 4 == 0 && 8 * s >= width * bitCount
    ensures Stride(width, bitCount) <= s
  {
  }

  /** More bits per pixel never give a shorter row. */
  lemma {:induction false} StrideMonotonic(width: nat, b1: nat, b2: nat)
    requires b1 <= b2
    ensures Stride(width, b1) <= Stride(width, b2)
  {
    assert width * b1 <= width * b2 by { MulMonotonic(b1, b2, width); }
    StrideIsLeast(width, b1, Stride(width, b2));
  }

  lemma MulMonotonic(a: nat, b: nat, c: nat)
    requires a <= b
    ensures a * c <= b * c
  {
  }

  function Pow2(n: nat): (p: nat)
    ensures p >= 1
  {
    if n == 0 then 1 else 2 * Pow2(n - 1)
  }

  /**
   * The colour table: one 4-byte `RGBQUAD` per palette entry, `1 << bitCount`
   * entries for 8 bits per pixel or fewer, none above.
   */
  function ColorTableSize(bitCount: nat): (n: nat)
    ensures bitCount <= 8 ==> n == 4 * Pow2(bitCount) && 4 <= n <= 1024
    ensures bitCount > 8 ==> n == 0
  {
    if bitCount <= 8 then PowBounds(bitCount); Pow2(bitCount) * 4 else 0
  }

  lemma {:induction false} PowBounds(n: nat)
    requires n <= 8
    ensures Pow2(n) * Pow2(8 - n) == 256
    decreases 8 - n
  {
    if n < 8 {
      PowBounds(n + 1);
      assert Pow2(8 - n) == 2 * Pow2(8 - n - 1);
    }
  }

  /** The GDI+ pixel formats the decoder can pick. */
  datatype PixelFormat = Format24bppRgb | Format32bppRgb | Format8bppIndexed | Format1bppIndexed

  function BitsPerPixel(f: PixelFormat): nat
  {
    match f
    case Format24bppRgb => 24
    case Format32bppRgb => 32
    case Format8bppIndexed => 8
    case Format1bppIndexed => 1
  }

  /**
   * 24, 32 and 8 bits per pixel get their own format; every other bit count
   * falls back to one bit per pixel.
   */
  function FormatFor(bitCount: int): (f: PixelFormat)
    ensures bitCount == 1 || bitCount == 8 || bitCount == 24 || bitCount == 32 <==> BitsPerPixel(f) == bitCount
    ensures bitCount != 8 && bitCount != 24 && bitCount != 32 ==> f == Format1bppIndexed
  {
    if bitCount == 24 then Format24bppRgb
    else if bitCount == 32 then Format32bppRgb
    else if bitCount == 8 then Format8bppIndexed
    else Format1bppIndexed
  }

  // ---------------------------------------------------------------------------
  // The copy plan

  /**
   * Why a buffer cannot be decoded. `HeightOverflow` (`Math.Abs` of the least
   * 32-bit integer), `InvalidSize` (a bitmap with no pixels) and
   * `DestinationTooSmall` (a row copy longer than the destination row) are the
   * exceptions the decoder raises; the other four stand for buffers whose
   * reading the decoder leaves undefined: a buffer shorter than the header, a
   * negative bit count (the shift and the truncating division then go wrong),
   * a row or image size past the 32-bit range, and pixel rows past the buffer.
   */
  datatype DecodeError =
    | HeaderTruncated
    | NegativeBitCount
    | HeightOverflow
    | InvalidSize
    | LayoutOverflow
    | DestinationTooSmall
    | PixelsTruncated

  /** Where the pixels are and how they are copied. */
  datatype Layout = Layout(
    width: nat,
    absHeight: nat,
    bottomUp: bool,
    bitCount: nat,
    stride: nat,
    colorTableSize: nat,
    pixelOffset: nat,
    format: PixelFormat,
    dstStride: nat)

  /**
   * Checks a header the way the decoder meets its failures, in the same order.
   * `guardTopDown` says whether the single bulk copy of a top-down bitmap is
   * checked against the destination as the per-row copies of a bottom-up one are.
   */
  function PlanWith(buf: seq<byte>, guardTopDown: bool): (r: Result<Layout, DecodeError>)
  {
    match ParseHeader(buf)
    case None => Err(HeaderTruncated)
    case Some(h) =>
      if h.bitCount < 0 then Err(NegativeBitCount)
      else if h.height == Int32Min then Err(HeightOverflow)
      else if h.width <= 0 || h.height == 0 then Err(InvalidSize)
      else if h.width * h.bitCount + 31 > Int32Max then Err(LayoutOverflow)
      else
        var absHeight := if h.height < 0 then -h.height else h.height;
        var stride := Stride(h.width, h.bitCount);
        var format := FormatFor(h.bitCount);
        var dstStride := Stride(h.width, BitsPerPixel(format));
        var colorTableSize := ColorTableSize(h.bitCount);
        var bottomUp := h.height > 0;
        if stride * absHeight > Int32Max || dstStride * absHeight > Int32Max then Err(LayoutOverflow)
        else if (bottomUp || guardTopDown) && stride > dstStride then Err(DestinationTooSmall)
        else if h.headerSize + colorTableSize < 0
             || h.headerSize + colorTableSize + stride * absHeight > |buf| then Err(PixelsTruncated)
        else Ok(Layout(h.width, absHeight, bottomUp, h.bitCount, stride, colorTableSize,
                       h.headerSize + colorTableSize, format, dstStride))
  }

  /** The plan as the decoder has it: the top-down copy is never checked. */
  function PlanAsWritten(buf: seq<byte>): Result<Layout, DecodeError>
  {
    PlanWith(buf, false)
  }

  /** The plan with both copies checked against the destination. */
  function Plan(buf: seq<byte>): Result<Layout, DecodeError>
  {
    PlanWith(buf, true)
  }

  /** What a successful plan promises about the buffer it came from. */
  predicate Describes(buf: seq<byte>, lay: Layout)
  {
    && |buf| >= 16
    && lay.width == ReadInt32(buf, 4) > 0
    && lay.bitCount == ReadInt16(buf, 14)
    && lay.absHeight > 0
    && (lay.bottomUp <==> ReadInt32(buf, 8) > 0)
    && lay.absHeight == (if lay.bottomUp then ReadInt32(buf, 8) else -ReadInt32(buf, 8))
    && lay.stride == Stride(lay.width, lay.bitCount)
    && lay.colorTableSize == ColorTableSize(lay.bitCount)
    && lay.pixelOffset == ReadInt32(buf, 0) + lay.colorTableSize
    && lay.format == FormatFor(lay.bitCount)
    && lay.dstStride == Stride(lay.width, BitsPerPixel(lay.format))
    && lay.pixelOffset + lay.stride * lay.absHeight <= |buf|
  }

  /**
   * The plan reads the header fields at offsets 0, 4, 8 and 14, derives the
   * stride, colour table and pixel offset from them, and accepts only what fits
   * both the source buffer and, row by row, the destination.
   */
  lemma PlanFacts(buf: seq<byte>)
    ensures Plan(buf).Ok? ==> Describes(buf, Plan(buf).value)
    ensures Plan(buf).Ok? ==> Plan(buf).value.stride <= Plan(buf).value.dstStride
    ensures |buf| < 16 <==> Plan(buf) == Err(HeaderTruncated)
    ensures |buf| >= 16 && ReadInt32(buf, 8) == Int32Min && 0 <= ReadInt16(buf, 14) ==>
              Plan(buf) == Err(HeightOverflow)
    ensures |buf| >= 16 && 0 <= ReadInt16(buf, 14) && ReadInt32(buf, 8) != Int32Min ==>
              (ReadInt32(buf, 4) <= 0 || ReadInt32(buf, 8) == 0 <==> Plan(buf) == Err(InvalidSize))
  {
  }

  /**
   * The plan accepts exactly the headers the decoder can carry out: a
   * non-negative bit count, a positive width, a non-zero height other than
   * `int.MinValue`, sizes within 32 bits, source rows no longer than the
   * destination's, and pixel rows within the buffer.
   */
  lemma PlanAccepts(buf: seq<byte>)
    ensures |buf| >= 16 ==>
      var width := ReadInt32(buf, 4); var height := ReadInt32(buf, 8); var bitCount := ReadInt16(buf, 14);
      var absHeight := if height < 0 then -height else height;
      (Plan(buf).Ok? <==>
        && 0 <= bitCount && 0 < width && height != 0 && height != Int32Min
        && width * bitCount + 31 <= Int32Max
        && Stride(width, bitCount) * absHeight <= Int32Max
        && Stride(width, BitsPerPixel(FormatFor(bitCount))) * absHeight <= Int32Max
        && Stride(width, bitCount) <= Stride(width, BitsPerPixel(FormatFor(bitCount)))
        && 0 <= ReadInt32(buf, 0) + ColorTableSize(bitCount)
        && ReadInt32(buf, 0) + ColorTableSize(bitCount) + Stride(width, bitCount) * absHeight <= |buf|)
  {
  }

  /** The corrected plan differs from the written one only by rejecting more. */
  lemma PlanRefinesAsWritten(buf: seq<byte>)
    ensures Plan(buf).Ok? ==> PlanAsWritten(buf) == Plan(buf)
    ensures PlanAsWritten(buf).Ok? && PlanAsWritten(buf).value.bottomUp ==> Plan(buf) == PlanAsWritten(buf)
  {
  }

  /** For the four native bit counts the destination row has exactly the source row's length. */
  lemma NativeFormatsKeepStride(width: nat, bitCount: nat)
    requires bitCount == 1 || bitCount == 8 || bitCount == 24 || bitCount == 32
    ensures Stride(width, BitsPerPixel(FormatFor(bitCount))) == Stride(width, bitCount)
  {
  }

  /**
   * A source row can be shorter than its destination row only when it is
   * empty (0 bits per pixel): every bit count without a format of its own falls
   * back to one bit per pixel, the narrowest there is.
   */
  lemma {:induction false} ShorterSourceRowIsEmpty(width: nat, bitCount: nat)
    requires Stride(width, bitCount) < Stride(width, BitsPerPixel(FormatFor(bitCount)))
    ensures bitCount == 0 && Stride(width, bitCount) == 0
  {
    if bitCount == 8 || bitCount == 24 || bitCount == 32 {
      assert false;
    } else if bitCount >= 1 {
      StrideMonotonic(width, 1, bitCount);
      assert false;
    }
  }

  // ---------------------------------------------------------------------------
  // The row copy

  function Zeros(n: nat): (z: seq<byte>)
    ensures |z| == n && forall i :: 0 <= i < n ==> z[i] == 0
  {
    seq(n, _ => 0)
  }

  /** `n` zero bytes, none when `n` is not positive. */
  function Padding(n: int): (z: seq<byte>)
    ensures n > 0 ==> z == Zeros(n)
    ensures n <= 0 ==> z == []
  {
    if n > 0 then Zeros(n) else []
  }

  /** Row `k` of a raster whose rows are `rowLength` bytes apart (empty when out of range). */
  function Row(pixels: seq<byte>, rowLength: nat, k: nat): seq<byte>
  {
    if k * rowLength + rowLength <= |pixels| then pixels[k * rowLength..k * rowLength + rowLength] else []
  }

  /** Row `j` of the source pixels: `stride` bytes from `pixelOffset + j * stride`. */
  function SourceRow(buf: seq<byte>, lay: Layout, j: nat): seq<byte>
  {
    var start := lay.pixelOffset + j * lay.stride;
    if start + lay.stride <= |buf| then buf[start..start + lay.stride] else []
  }

  /** The decoded bitmap: a `width` x `height` raster whose rows are `stride` bytes apart. */
  datatype Raster = Raster(width: nat, height: nat, format: PixelFormat, stride: nat, pixels: seq<byte>)

  /**
   * `Buffer.MemoryCopy`: `count` bytes from `src[srcOff..]` to `dst[dstOff..]`;
   * nothing else in `dst` changes.
   */
  method CopyBytes(src: seq<byte>, srcOff: nat, dst: array<byte>, dstOff: nat, count: nat)
    requires srcOff + count <= |src| && dstOff + count <= dst.Length
    modifies dst
    ensures dst[dstOff..dstOff + count] == src[srcOff..srcOff + count]
    ensures forall i :: 0 <= i < dst.Length && !(dstOff <= i < dstOff + count) ==> dst[i] == old(dst[i])
  {
    var n := 0;
    while n < count
      invariant 0 <= n <= count
      invariant dst[dstOff..dstOff + n] == src[srcOff..srcOff + n]
      invariant forall i :: 0 <= i < dst.Length && !(dstOff <= i < dstOff + n) ==> dst[i] == old(dst[i])
    {
      dst[dstOff + n] := src[srcOff + n];
      n := n + 1;
    }
  }

  lemma RowBounds(k: nat, n: nat, w: nat)
    requires k < n
    ensures k * w + w <= n * w
  {
    MulMonotonic(k + 1, n, w);
  }

  lemma SliceOfSlice(buf: seq<byte>, lo: nat, hi: nat, a: nat, b: nat)
    requires lo <= hi <= |buf| && a <= b <= hi - lo
    ensures buf[lo..hi][a..b] == buf[lo + a..lo + b]
  {
    assert forall i :: 0 <= i < b - a ==> buf[lo..hi][a..b][i] == buf[lo + a + i];
  }

  /** The shape facts of a plan that the row copy relies on. */
  predicate CopyFits(buf: seq<byte>, lay: Layout)
  {
    && lay.stride <= lay.dstStride
    && lay.pixelOffset + lay.stride * lay.absHeight <= |buf|
  }

  lemma PlanFits(buf: seq<byte>)
    requires Plan(buf).Ok?
    ensures CopyFits(buf, Plan(buf).value)
  {
    PlanFacts(buf);
  }

  /** A row lying wholly before `lo` is untouched by writes at `lo` and beyond. */
  lemma RowUnchanged(before: seq<byte>, after: seq<byte>, ds: nat, k: nat, lo: nat)
    requires |before| == |after| && k * ds + ds <= lo <= |before|
    requires forall i :: 0 <= i < lo ==> after[i] == before[i]
    ensures Row(after, ds, k) == Row(before, ds, k)
  {
    assert after[k * ds..k * ds + ds] == before[k * ds..k * ds + ds];
  }

  /** The expected contents of destination row `k` of a bottom-up bitmap. */
  function FlippedRow(buf: seq<byte>, lay: Layout, k: nat): seq<byte>
    requires k < lay.absHeight && lay.stride <= lay.dstStride
  {
    SourceRow(buf, lay, lay.absHeight - 1 - k) + Padding(lay.dstStride - lay.stride)
  }

  /** One turn of the bottom-up loop: copying source row `h - 1 - row` completes destination row `row`. */
  lemma BottomUpStep(buf: seq<byte>, lay: Layout, before: seq<byte>, after: seq<byte>, row: nat, off: nat, src: nat)
    requires lay.stride <= lay.dstStride && row < lay.absHeight
    requires off == row * lay.dstStride && src == lay.pixelOffset + (lay.absHeight - 1 - row) * lay.stride
    requires |before| == |after| && off + lay.dstStride <= |after| && src + lay.stride <= |buf|
    requires forall k :: 0 <= k < row ==> Row(before, lay.dstStride, k) == FlippedRow(buf, lay, k)
    requires forall i :: off <= i < |before| ==> before[i] == 0
    requires after[off..off + lay.stride] == buf[src..src + lay.stride]
    requires forall i :: 0 <= i < |after| && !(off <= i < off + lay.stride) ==> after[i] == before[i]
    ensures forall k :: 0 <= k <= row ==> Row(after, lay.dstStride, k) == FlippedRow(buf, lay, k)
    ensures forall i :: off + lay.dstStride <= i < |after| ==> after[i] == 0
  {
    var stride, ds := lay.stride, lay.dstStride;
    forall k | 0 <= k < row
      ensures Row(after, ds, k) == FlippedRow(buf, lay, k)
    {
      RowBounds(k, row, ds);
      RowUnchanged(before, after, ds, k, off);
    }
    assert Row(after, ds, row) == after[off..off + ds];
    assert SourceRow(buf, lay, lay.absHeight - 1 - row) == buf[src..src + stride];
    assert after[off..off + ds] == after[off..off + stride] + after[off + stride..off + ds];
    assert after[off + stride..off + ds] == Zeros(ds - stride);
  }

  /** A zero-filled buffer after a copy to its start: the copied block, then zeros. */
  lemma BlockThenZeros(before: seq<byte>, after: seq<byte>, block: seq<byte>)
    requires |before| == |after| && |block| <= |after|
    requires forall i :: 0 <= i < |before| ==> before[i] == 0
    requires after[0..|block|] == block
    requires forall i :: 0 <= i < |after| && !(0 <= i < 0 + |block|) ==> after[i] == before[i]
    ensures after == block + Padding(|after| - |block|)
  {
    assert after == after[0..|block|] + after[|block|..];
  }

  /**
   * The bottom-up branch: into a fresh zero-filled raster, destination row
   * `row` receives the `stride` bytes of source row `absHeight - 1 - row`.
   */
  method CopyFlipped(buf: seq<byte>, lay: Layout) returns (pixels: seq<byte>)
    requires CopyFits(buf, lay)
    ensures |pixels| == lay.dstStride * lay.absHeight
    ensures forall k :: 0 <= k < lay.absHeight ==> Row(pixels, lay.dstStride, k) == FlippedRow(buf, lay, k)
  {
    var dst := new byte[lay.dstStride * lay.absHeight](_ => 0);
    var row := 0;
    while row < lay.absHeight
      invariant 0 <= row <= lay.absHeight
      invariant forall k :: 0 <= k < row ==> Row(dst[..], lay.dstStride, k) == FlippedRow(buf, lay, k)
      invariant forall i :: 0 <= i < dst.Length && row * lay.dstStride <= i ==> dst[i] == 0
    {
      CopyFlippedRow(buf, lay, dst, row);
      row := row + 1;
    }
    pixels := dst[..];
  }

  /** One turn of the bottom-up loop, on the raster being filled. */
  method CopyFlippedRow(buf: seq<byte>, lay: Layout, dst: array<byte>, row: nat)
    requires CopyFits(buf, lay) && row < lay.absHeight
    requires dst.Length == lay.dstStride * lay.absHeight
    requires forall k :: 0 <= k < row ==> Row(dst[..], lay.dstStride, k) == FlippedRow(buf, lay, k)
    requires forall i :: 0 <= i < dst.Length && row * lay.dstStride <= i ==> dst[i] == 0
    modifies dst
    ensures forall k :: 0 <= k < row + 1 ==> Row(dst[..], lay.dstStride, k) == FlippedRow(buf, lay, k)
    ensures forall i :: 0 <= i < dst.Length && (row + 1) * lay.dstStride <= i ==> dst[i] == 0
  {
    var h, stride, ds := lay.absHeight, lay.stride, lay.dstStride;
    var off := row * ds;
    RowBounds(row, h, ds);
    var src := lay.pixelOffset + (h - 1 - row) * stride;
    RowBounds(h - 1 - row, h, stride);
    ghost var before := dst[..];
    CopyBytes(buf, src, dst, off, stride);
    BottomUpStep(buf, lay, before, dst[..], row, off, src);
    assert (row + 1) * ds == off + ds;
  }

  /**
   * The top-down branch: one block of `stride * absHeight` bytes copied in
   * order to the start of a fresh zero-filled raster.
   */
  method CopyBlock(buf: seq<byte>, lay: Layout) returns (pixels: seq<byte>)
    requires CopyFits(buf, lay)
    ensures |pixels| == lay.dstStride * lay.absHeight
    ensures pixels == buf[lay.pixelOffset..lay.pixelOffset + lay.stride * lay.absHeight]
                      + Padding(lay.dstStride * lay.absHeight - lay.stride * lay.absHeight)
  {
    var h, stride, ds := lay.absHeight, lay.stride, lay.dstStride;
    var dst := new byte[ds * h](_ => 0);
    var n := stride * h;
    MulMonotonic(stride, ds, h);
    ghost var before := dst[..];
    CopyBytes(buf, lay.pixelOffset, dst, 0, n);
    BlockThenZeros(before, dst[..], buf[lay.pixelOffset..lay.pixelOffset + n]);
    pixels := dst[..];
  }

  /**
   * Decodes the bitmap in `buf` into a fresh raster of the chosen format.
   * A bottom-up bitmap (positive height) is flipped: destination row `k` holds
   * source row `absHeight - 1 - k`. A top-down one is copied in one block, in
   * order. Destination bytes past the copied `stride` of a row stay zero.
   */
  method DecodeDib(buf: seq<byte>) returns (r: Result<Raster, DecodeError>)
    ensures Plan(buf).Err? ==> r == Err(Plan(buf).error)
    ensures Plan(buf).Ok? ==> r.Ok?
    ensures r.Ok? ==> Plan(buf).Ok? && Decoded(buf, Plan(buf).value, r.value)
  {
    var plan := Plan(buf);
    if plan.Err? {
      return Err(plan.error);
    }
    var lay := plan.value;
    PlanFits(buf);
    var pixels;
    if lay.bottomUp {
      pixels := CopyFlipped(buf, lay);
    } else {
      pixels := CopyBlock(buf, lay);
    }
    r := Ok(Raster(lay.width, lay.absHeight, lay.format, lay.dstStride, pixels));
    assert Decoded(buf, lay, r.value);
  }

  /**
   * What a decoded raster holds for plan `lay`: the plan's size, format and
   * destination row length, and the copied pixels.
   */
  predicate Decoded(buf: seq<byte>, lay: Layout, raster: Raster)
  {
    && raster.width == lay.width && raster.height == lay.absHeight
    && raster.format == lay.format && raster.stride == lay.dstStride
    && CopyFits(buf, lay)
    && |raster.pixels| == lay.dstStride * lay.absHeight
    && (lay.bottomUp ==>
          forall k :: 0 <= k < lay.absHeight ==> Row(raster.pixels, lay.dstStride, k) == FlippedRow(buf, lay, k))
    && (!lay.bottomUp ==>
          raster.pixels == buf[lay.pixelOffset..lay.pixelOffset + lay.stride * lay.absHeight]
                           + Padding(lay.dstStride * lay.absHeight - lay.stride * lay.absHeight))
  }

  /** The facts about the two row lengths that decide how a top-down copy lays out rows. */
  predicate RowGeometry(lay: Layout)
  {
    && lay.stride == Stride(lay.width, lay.bitCount)
    && lay.format == FormatFor(lay.bitCount)
    && lay.dstStride == Stride(lay.width, BitsPerPixel(lay.format))
    && lay.stride <= lay.dstStride
  }

  /**
   * A top-down bitmap is not flipped: destination row `k` holds source row `k`,
   * followed by zeros up to the destination row length.
   */
  lemma {:induction false} TopDownRowsInOrder(buf: seq<byte>, lay: Layout, pixels: seq<byte>, k: nat)
    requires RowGeometry(lay) && CopyFits(buf, lay)
    requires pixels == buf[lay.pixelOffset..lay.pixelOffset + lay.stride * lay.absHeight]
                       + Padding(lay.dstStride * lay.absHeight - lay.stride * lay.absHeight)
    requires k < lay.absHeight
    ensures Row(pixels, lay.dstStride, k) == SourceRow(buf, lay, k) + Padding(lay.dstStride - lay.stride)
  {
    if lay.stride < lay.dstStride {
      ShorterSourceRowIsEmpty(lay.width, lay.bitCount);
      EmptyRowsAreZero(buf, lay, pixels, k);
    } else {
      EqualRowsInOrder(buf, lay, pixels, k);
    }
  }

  lemma EmptyRowsAreZero(buf: seq<byte>, lay: Layout, pixels: seq<byte>, k: nat)
    requires lay.stride == 0 && k < lay.absHeight && CopyFits(buf, lay)
    requires pixels == buf[lay.pixelOffset..lay.pixelOffset + lay.stride * lay.absHeight]
                       + Padding(lay.dstStride * lay.absHeight - lay.stride * lay.absHeight)
    ensures Row(pixels, lay.dstStride, k) == SourceRow(buf, lay, k) + Padding(lay.dstStride - lay.stride)
  {
    var h, ds := lay.absHeight, lay.dstStride;
    RowBounds(k, h, ds);
    assert lay.stride * h == 0;
    assert pixels == Padding(ds * h);
    assert SourceRow(buf, lay, k) == [];
  }

  lemma EqualRowsInOrder(buf: seq<byte>, lay: Layout, pixels: seq<byte>, k: nat)
    requires lay.stride == lay.dstStride && k < lay.absHeight && CopyFits(buf, lay)
    requires pixels == buf[lay.pixelOffset..lay.pixelOffset + lay.stride * lay.absHeight]
                       + Padding(lay.dstStride * lay.absHeight - lay.stride * lay.absHeight)
    ensures Row(pixels, lay.dstStride, k) == SourceRow(buf, lay, k) + Padding(lay.dstStride - lay.stride)
  {
    var h, s, po := lay.absHeight, lay.stride, lay.pixelOffset;
    var a := k * s;
    RowBounds(k, h, s);
    var block := buf[po..po + s * h];
    assert pixels == block;
    assert Row(pixels, s, k) == block[a..a + s];
    SliceOfSlice(buf, po, po + s * h, a, a + s);
  }

  /**
   * The decoder as written copies a top-down bitmap in one block of
   * `stride * absHeight` bytes and gives that same count as the destination
   * size, so nothing stops the copy when the destination rows are narrower.
   * A 9-pixel-wide, one-row, top-down bitmap of 4 bits per pixel has 8-byte
   * source rows but falls back to a 1-bit format whose rows are 4 bytes: the
   * written plan accepts it and the copy runs 4 bytes past the raster, while
   * the checked plan rejects it as the bottom-up copy would.
   */
  lemma TopDownOverrunAsWritten()
    ensures var buf := EncodeHeader(DibHeader(40, 9, -1, 4)) + Zeros(96);
      && PlanAsWritten(buf).Ok?
      && Plan(buf) == Err(DestinationTooSmall)
      && (var lay := PlanAsWritten(buf).value;
          && !lay.bottomUp && lay.stride == 8 && lay.dstStride == 4 && lay.absHeight == 1
          && lay.stride * lay.absHeight > lay.dstStride * lay.absHeight)
  {
    var h := DibHeader(40, 9, -1, 4);
    ParseEncodeHeader(h, Zeros(96));
  }

  /** The checked plan never copies more bytes than the destination raster holds, in either orientation. */
  lemma PlanCopiesWithinDestination(buf: seq<byte>)
    requires Plan(buf).Ok?
    ensures var lay := Plan(buf).value;
      lay.stride <= lay.dstStride && lay.stride * lay.absHeight <= lay.dstStride * lay.absHeight
  {
    var lay := Plan(buf).value;
    PlanFits(buf);
    MulMonotonic(lay.stride, lay.dstStride, lay.absHeight);
  }

  /**
   * The worked example: a 100 x 50 top-down bitmap of 24 bits per pixel with a
   * 40-byte header decodes to 100 x 50, unflipped, with 300-byte rows.
   */
  lemma TopDownExample(buf: seq<byte>)
    requires |buf| >= 40 + 300 * 50
    requires ReadInt32(buf, 0) == 40 && ReadInt32(buf, 4) == 100
    requires ReadInt32(buf, 8) == -50 && ReadInt16(buf, 14) == 24
    ensures Plan(buf).Ok?
    ensures var lay := Plan(buf).value;
      lay.width == 100 && lay.absHeight == 50 && !lay.bottomUp && lay.stride == 300
      && lay.dstStride == 300 && lay.pixelOffset == 40 && lay.format == Format24bppRgb
  {
  }

  /** Five 24-bit pixels take 15 bytes, padded to 16. */
  lemma StrideExample()
    ensures Stride(5, 24) == 16
  {
  }
}
