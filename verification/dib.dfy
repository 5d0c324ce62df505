/** Device-independent bitmaps on the clipboard: the DIBV5 builder, and the reader for 24- and 32-bit bitmaps. */
module Dib {
  import opened Bytes
  import opened Layout

  const MAX_IMAGE_DIMENSION: nat := 16384
  const INFO_HEADER: nat := 40
  const V5_HEADER: nat := 124
  const BI_RGB: nat := 0
  const BI_BITFIELDS: nat := 3

  /** Top-down rows of blue, green, red, alpha. */
  datatype BgraImage = BgraImage(width: nat, height: nat, pixels: seq<byte>)

  // ------------------------------------------------------------ the reader

  function Width(blob: seq<byte>): int
    requires |blob| >= INFO_HEADER
  {
    ToInt32(U32At(blob, 4))
  }

  /** Negative for rows stored top-down. */
  function SignedHeight(blob: seq<byte>): int
    requires |blob| >= INFO_HEADER
  {
    ToInt32(U32At(blob, 8))
  }

  function Height(blob: seq<byte>): nat
    requires |blob| >= INFO_HEADER
  {
    if SignedHeight(blob) < 0 then -SignedHeight(blob) else SignedHeight(blob)
  }

  function Depth(blob: seq<byte>): nat
    requires |blob| >= INFO_HEADER
  {
    U16At(blob, 14) / 8
  }

  /** The three colour masks follow a plain header; longer headers hold them inside. */
  function PixelStart(blob: seq<byte>): nat
    requires |blob| >= INFO_HEADER
  {
    U32At(blob, 0) + if U32At(blob, 16) == BI_BITFIELDS && U32At(blob, 0) == INFO_HEADER then 12 else 0
  }

  /** Rows are padded to four bytes. */
  function Stride(width: nat, depth: nat): nat {
    (width * depth + 3) / 4 * 4
  }

  function RowBytes(blob: seq<byte>): nat
    requires |blob| >= INFO_HEADER
  {
    if Width(blob) < 0 then 0 else Stride(Width(blob), Depth(blob))
  }

  predicate Readable(blob: seq<byte>) {
    && |blob| >= INFO_HEADER
    && INFO_HEADER <= U32At(blob, 0) <= |blob|
    && 1 <= Width(blob) <= MAX_IMAGE_DIMENSION && 1 <= Height(blob) <= MAX_IMAGE_DIMENSION
    && (U32At(blob, 16) == BI_RGB || U32At(blob, 16) == BI_BITFIELDS)
    && (U16At(blob, 14) == 24 || U16At(blob, 14) == 32)
    && PixelStart(blob) + Offset(Height(blob), RowBytes(blob)) <= |blob|
  }

  /** Where output row y is stored. */
  function StoredRow(blob: seq<byte>, y: nat): nat
    requires Readable(blob) && y < Height(blob)
  {
    if SignedHeight(blob) < 0 then y else Height(blob) - 1 - y
  }

  /** Where row y begins. */
  function Offset(y: nat, stride: nat): nat {
    y * stride
  }

  lemma RowInside(stride: nat, rows: nat, y: nat)
    requires y < rows
    ensures Offset(y + 1, stride) == Offset(y, stride) + stride <= Offset(rows, stride)
  {
    var rest := rows - 1 - y;
    assert rows * stride == (y + 1 + rest) * stride == y * stride + stride + rest * stride;
  }

  lemma StrideHoldsRow(width: nat, depth: nat)
    ensures width * depth <= Stride(width, depth)
  {
  }

  /** The stored bytes of output row y; all of them lie inside the blob. */
  function SourceRow(blob: seq<byte>, y: nat): (row: seq<byte>)
    requires Readable(blob) && y < Height(blob)
    ensures |row| == RowBytes(blob) >= Width(blob) * Depth(blob)
  {
    RowInside(RowBytes(blob), Height(blob), StoredRow(blob, y));
    StrideHoldsRow(Width(blob), Depth(blob));
    var at := PixelStart(blob) + Offset(StoredRow(blob, y), RowBytes(blob));
    blob[at..at + RowBytes(blob)]
  }

  /** Byte c of pixel x of a stored row, as BGRA; 24-bit pixels are opaque. */
  function PixelByte(row: seq<byte>, depth: nat, x: nat, c: nat): byte
    requires (depth == 3 || depth == 4) && c < 4 && (x + 1) * depth <= |row|
  {
    if depth == 3 && c == 3 then 255 else row[x * depth + c]
  }

  function RowOut(row: seq<byte>, depth: nat, width: nat): (out: seq<byte>)
    requires (depth == 3 || depth == 4) && width * depth <= |row|
    ensures |out| == 4 * width
  {
    if width == 0 then [] else
    RowOut(row, depth, width - 1) + seq(4, c requires 0 <= c < 4 => PixelByte(row, depth, width - 1, c))
  }

  /** The first n output rows. */
  function Pixels(blob: seq<byte>, n: nat): (out: seq<byte>)
    requires Readable(blob) && n <= Height(blob)
    ensures |out| == Offset(n, 4 * Width(blob))
  {
    if n == 0 then [] else
    RowInside(4 * Width(blob), n, n - 1);
    Pixels(blob, n - 1) + RowOut(SourceRow(blob, n - 1), Depth(blob), Width(blob))
  }

  lemma {:induction false} RowOutWide(row: seq<byte>, width: nat)
    requires width * 4 <= |row|
    ensures RowOut(row, 4, width) == row[..4 * width]
    decreases width
  {
    if width != 0 {
      RowOutWide(row, width - 1);
    }
  }

  function WidePixel(row: seq<byte>, x: nat): seq<byte>
    requires (x + 1) * 3 <= |row|
  {
    [row[x * 3], row[x * 3 + 1], row[x * 3 + 2], 255]
  }

  lemma WiderBy(row: seq<byte>, x: nat)
    requires (x + 1) * 3 <= |row|
    ensures RowOut(row, 3, x + 1) == RowOut(row, 3, x) + WidePixel(row, x)
  {
    assert seq(4, c requires 0 <= c < 4 => PixelByte(row, 3, x, c)) == WidePixel(row, x);
  }

  method PutWidePixel(a: array<byte>, at: nat, row: seq<byte>, x: nat)
    requires at + 4 <= a.Length && (x + 1) * 3 <= |row|
    modifies a
    ensures a[..][at..at + 4] == WidePixel(row, x)
    ensures forall k | 0 <= k < a.Length && Apart(at, 4, k, 1) :: a[..][k] == old(a[..])[k]
  {
    a[at + 0] := row[x * 3 + 0];
    a[at + 1] := row[x * 3 + 1];
    a[at + 2] := row[x * 3 + 2];
    a[at + 3] := 255;
  }

  lemma PixelAppended(before: seq<byte>, after: seq<byte>, base: nat, row: seq<byte>, x: nat)
    requires |after| == |before| >= base + 4 * x + 4 && (x + 1) * 3 <= |row|
    requires before[base..base + 4 * x] == RowOut(row, 3, x)
    requires after[base + 4 * x..base + 4 * x + 4] == WidePixel(row, x)
    requires forall k | base <= k < base + 4 * x :: after[k] == before[k]
    ensures after[base..base + 4 * (x + 1)] == RowOut(row, 3, x + 1)
  {
    hide RowOut, WidePixel;
    WiderBy(row, x);
    assert after[base..base + 4 * x] == before[base..base + 4 * x];
    SliceGrows(after, base, 4 * x, 4, RowOut(row, 3, x), WidePixel(row, x));
  }

  /** A buffer with x widened pixels behind `base`, the rest as it was. */
  ghost predicate Widened(start: seq<byte>, now: seq<byte>, base: nat, row: seq<byte>, x: nat)
    requires x * 3 <= |row|
  {
    && |now| == |start| >= base + 4 * x
    && (forall k | 0 <= k < |now| && Apart(base, 4 * x, k, 1) :: now[k] == start[k])
    && now[base..base + 4 * x] == RowOut(row, 3, x)
  }

  lemma NothingWidened(start: seq<byte>, base: nat, row: seq<byte>)
    requires base <= |start|
    ensures Widened(start, start, base, row, 0)
  {
  }

  lemma OneWidened(start: seq<byte>, now: seq<byte>, after: seq<byte>, base: nat, row: seq<byte>, x: nat)
    requires (x + 1) * 3 <= |row| && Widened(start, now, base, row, x) && |after| == |now| >= base + 4 * x + 4
    requires after[base + 4 * x..base + 4 * x + 4] == WidePixel(row, x)
    requires forall k | 0 <= k < |now| && Apart(base + 4 * x, 4, k, 1) :: after[k] == now[k]
    ensures Widened(start, after, base, row, x + 1)
  {
    hide RowOut, WidePixel;
    PixelAppended(now, after, base, row, x);
  }

  lemma RowWidened(start: seq<byte>, now: seq<byte>, base: nat, row: seq<byte>, width: nat)
    requires width * 3 <= |row| && Widened(start, now, base, row, width)
    ensures now == start[..base] + RowOut(row, 3, width) + start[base + 4 * width..]
  {
    hide RowOut;
    assert now[..base] == start[..base] && now[base + 4 * width..] == start[base + 4 * width..];
    assert now == now[..base] + now[base..base + 4 * width] + now[base + 4 * width..];
  }

  /** The inner loop for 24-bit rows. */
  method WidenRow(a: array<byte>, base: nat, row: seq<byte>, width: nat)
    requires base + 4 * width <= a.Length && width * 3 <= |row|
    modifies a
    ensures a[..] == old(a[..base]) + RowOut(row, 3, width) + old(a[base + 4 * width..])
  {
    hide RowOut, WidePixel, Widened;
    ghost var start := a[..];
    NothingWidened(start, base, row);
    var x := 0;
    while x < width
      invariant 0 <= x <= width && Widened(start, a[..], base, row, x)
    {
      ghost var before := a[..];
      PutWidePixel(a, base + x * 4, row, x);
      OneWidened(start, before, a[..], base, row, x);
      x := x + 1;
    }
    RowWidened(start, a[..], base, row, width);
  }

  /** One output row, by memcpy or widened. */
  method PlaceRow(pixels: array<byte>, base: nat, row: seq<byte>, width: nat, depth: nat)
    requires (depth == 3 || depth == 4) && width * depth <= |row| && base + 4 * width <= pixels.Length
    modifies pixels
    ensures pixels[..base + 4 * width] == old(pixels[..base]) + RowOut(row, depth, width)
  {
    hide RowOut;
    if depth == 4 {
      RowOutWide(row, width);
      Copy(pixels, base, row[..width * 4]);
    } else {
      WidenRow(pixels, base, row, width);
    }
    assert pixels[..base + 4 * width] == pixels[..][..base + 4 * width];
  }

  /** Geometry of an accepted bitmap, as the header states it. */
  datatype Shape = Shape(width: nat, height: nat, topDown: bool, depth: nat, start: nat, stride: nat)

  function ShapeOf(blob: seq<byte>): Shape
    requires Readable(blob)
  {
    Shape(Width(blob), Height(blob), SignedHeight(blob) < 0, Depth(blob), PixelStart(blob), RowBytes(blob))
  }

  /** The checks of ReadClipboardDibToBgra, in its order. */
  method ReadShape(blob: seq<byte>) returns (shape: Option<Shape>)
    ensures shape.Some? == Readable(blob)
    ensures shape.Some? ==> shape.value == ShapeOf(blob)
  {
    if |blob| < INFO_HEADER { return None; }
    var size := U32At(blob, 0);
    if size < INFO_HEADER || size > |blob| { return None; }
    var rawW, rawH := ToInt32(U32At(blob, 4)), ToInt32(U32At(blob, 8));
    if rawW <= 0 || rawH == -(TWO31 as int) { return None; }
    var topDown := rawH < 0;
    var absH := if topDown then -rawH else rawH;
    if rawW > MAX_IMAGE_DIMENSION || absH > MAX_IMAGE_DIMENSION { return None; }
    var width, height := rawW, absH;
    if height <= 0 { return None; }
    var compression, bits := U32At(blob, 16), U16At(blob, 14);
    if compression != BI_RGB && compression != BI_BITFIELDS { return None; }
    if bits != 24 && bits != 32 { return None; }
    var headerBytes := size;
    if compression == BI_BITFIELDS && size == INFO_HEADER { headerBytes := headerBytes + 12; }
    var depth := bits / 8;
    var stride := Stride(width, depth);
    var needed := Offset(height, stride);
    assert stride == RowBytes(blob) && height == Height(blob) && needed >= 0;
    if headerBytes > |blob| { return None; }
    if headerBytes + needed > |blob| { return None; }
    return Some(Shape(width, height, topDown, depth, headerBytes, stride));
  }

  lemma PixelsStep(blob: seq<byte>, y: nat)
    requires Readable(blob) && y < Height(blob)
    ensures Pixels(blob, y + 1) == Pixels(blob, y) + RowOut(SourceRow(blob, y), Depth(blob), Width(blob))
  {
  }

  /** Where the row loop reads its row. */
  lemma RowAt(blob: seq<byte>, y: nat)
    requires Readable(blob) && y < Height(blob)
    ensures var s := ShapeOf(blob);
            var at := s.start + Offset(if s.topDown then y else s.height - 1 - y, s.stride);
            0 <= at <= at + s.stride <= |blob| && blob[at..at + s.stride] == SourceRow(blob, y) &&
            (s.depth == 3 || s.depth == 4) && s.width * s.depth <= s.stride
  {
    RowInside(RowBytes(blob), Height(blob), StoredRow(blob, y));
    StrideHoldsRow(Width(blob), Depth(blob));
  }

  /** The body of the row loop. */
  method CopyRow(pixels: array<byte>, blob: seq<byte>, s: Shape, y: nat)
    requires Readable(blob) && s == ShapeOf(blob) && y < Height(blob)
    requires pixels.Length == Offset(s.height, 4 * s.width)
    requires |Pixels(blob, y)| <= pixels.Length && pixels[..|Pixels(blob, y)|] == Pixels(blob, y)
    modifies pixels
    ensures |Pixels(blob, y + 1)| <= pixels.Length && pixels[..|Pixels(blob, y + 1)|] == Pixels(blob, y + 1)
  {
    assert s.width == Width(blob) && s.height == Height(blob) && s.depth == Depth(blob);
    hide *;
    RowAt(blob, y);
    PixelsStep(blob, y);
    RowSize(blob, y);
    RowInside(4 * s.width, s.height, y);
    var srcY := if s.topDown then y else s.height - 1 - y;
    var at := s.start + Offset(srcY, s.stride);
    PlaceRow(pixels, Offset(y, 4 * s.width), blob[at..at + s.stride], s.width, s.depth);
  }

  /** The row loop. */
  method ReadRows(blob: seq<byte>, s: Shape) returns (out: seq<byte>)
    requires Readable(blob) && s == ShapeOf(blob)
    ensures out == Pixels(blob, s.height)
  {
    var pixels := new byte[Offset(s.height, 4 * s.width)](_ => 0);
    assert pixels[..0] == [] == Pixels(blob, 0);
    assert s.width == Width(blob) && s.height == Height(blob) && s.depth == Depth(blob);
    hide *;
    var y := 0;
    while y < s.height
      invariant 0 <= y <= s.height && |Pixels(blob, y)| <= pixels.Length
      invariant pixels[..|Pixels(blob, y)|] == Pixels(blob, y)
    {
      CopyRow(pixels, blob, s, y);
      y := y + 1;
    }
    return pixels[..];
  }

  method ReadClipboardDibToBgra(blob: seq<byte>) returns (ok: bool, out: BgraImage)
    ensures ok == Readable(blob)
    ensures ok ==> out == BgraImage(Width(blob), Height(blob), Pixels(blob, Height(blob)))
  {
    var shape := ReadShape(blob);
    if shape == None { return false, BgraImage(0, 0, []); }
    var pixels := ReadRows(blob, shape.value);
    return true, BgraImage(shape.value.width, shape.value.height, pixels);
  }

  // ------------------------------------------------- what the pixels mean

  lemma {:induction false} RowOutAt(row: seq<byte>, depth: nat, width: nat, x: nat, c: nat)
    requires (depth == 3 || depth == 4) && width * depth <= |row| && x < width && c < 4
    ensures (x + 1) * depth <= |row| && RowOut(row, depth, width)[4 * x + c] == PixelByte(row, depth, x, c)
    decreases width
  {
    if x < width - 1 {
      RowOutAt(row, depth, width - 1, x, c);
    }
  }

  lemma {:induction false} PixelsRow(blob: seq<byte>, n: nat, y: nat)
    requires Readable(blob) && y < n <= Height(blob)
    ensures Offset(y, 4 * Width(blob)) + 4 * Width(blob) <= |Pixels(blob, n)|
    ensures Pixels(blob, n)[Offset(y, 4 * Width(blob))..Offset(y, 4 * Width(blob)) + 4 * Width(blob)] ==
            RowOut(SourceRow(blob, y), Depth(blob), Width(blob))
    decreases n
  {
    hide *;
    RowSize(blob, n);
    RowSize(blob, n - 1);
    RowInside(4 * Width(blob), n, y);
    NextRowBehind(blob, n - 1);
    if y < n - 1 {
      RowInside(4 * Width(blob), n - 1, y);
      PixelsRow(blob, n - 1, y);
      SliceOfFront(Pixels(blob, n - 1), Pixels(blob, n), Offset(y, 4 * Width(blob)),
                   Offset(y, 4 * Width(blob)) + 4 * Width(blob));
    } else {
      assert Pixels(blob, n)[|Pixels(blob, n - 1)|..|Pixels(blob, n)|] == Pixels(blob, n)[|Pixels(blob, n - 1)|..];
    }
  }

  lemma RowSize(blob: seq<byte>, n: nat)
    requires Readable(blob) && n <= Height(blob)
    ensures |blob| >= INFO_HEADER && Width(blob) >= 0 && |Pixels(blob, n)| == Offset(n, 4 * Width(blob))
  {
  }

  lemma NextRowBehind(blob: seq<byte>, n: nat)
    requires Readable(blob) && n < Height(blob)
    ensures Pixels(blob, n) <= Pixels(blob, n + 1)
    ensures Pixels(blob, n + 1)[|Pixels(blob, n)|..] == RowOut(SourceRow(blob, n), Depth(blob), Width(blob))
  {
    hide Pixels, RowOut, SourceRow;
    PixelsStep(blob, n);
  }

  lemma SliceOfFront(front: seq<byte>, all: seq<byte>, a: nat, b: nat)
    requires front <= all && a <= b <= |front|
    ensures all[a..b] == front[a..b]
  {
  }

  lemma SourceAt(blob: seq<byte>, y: nat, k: nat)
    requires Readable(blob) && y < Height(blob) && k < RowBytes(blob)
    ensures var at := PixelStart(blob) + Offset(StoredRow(blob, y), RowBytes(blob)) + k;
            at < |blob| && SourceRow(blob, y)[k] == blob[at]
  {
    hide Offset;
    RowInside(RowBytes(blob), Height(blob), StoredRow(blob, y));
  }

  lemma PixelFrom(blob: seq<byte>, y: nat, x: nat, c: nat)
    requires Readable(blob) && y < Height(blob) && x < Width(blob) && c < 4
    ensures var w, depth := Width(blob), Depth(blob);
            var i := Offset(y, 4 * w) + 4 * x + c;
            var at := PixelStart(blob) + Offset(StoredRow(blob, y), RowBytes(blob)) + x * depth + c;
            i < |Pixels(blob, Height(blob))| && (depth == 4 || c < 3 ==> at < |blob|) &&
            Pixels(blob, Height(blob))[i] == if depth == 3 && c == 3 then 255 else blob[at]
  {
    hide Pixels, RowOut, SourceRow, Offset;
    var w, depth, row := Width(blob), Depth(blob), SourceRow(blob, y);
    PixelsRow(blob, Height(blob), y);
    RowOutAt(row, depth, w, x, c);
    if depth == 4 || c < 3 {
      SourceAt(blob, y, x * depth + c);
    }
  }

  /** Rows lie this far apart: the least multiple of four that holds a row. */
  ghost predicate RowDistance(rowBytes: int, stride: nat) {
    stride % 4 == 0 && rowBytes <= stride < rowBytes + 4
  }

  lemma StrideLeast(width: nat, depth: nat, stride: nat)
    requires RowDistance(width * depth, stride)
    ensures Stride(width, depth) == stride
  {
    var n := width * depth;
    assert (n + 3) / 4 * 4 == stride;
  }

  lemma OffsetIs(y: nat, stride: nat)
    ensures Offset(y, stride) == y * stride
  {
  }

  /** What is accepted, field by field: at least the 40 bytes of a plain header and all of the header it states, 24 or 32
      bits uncompressed or with masks, 1 to 16384 pixels each way, and every row present. */
  lemma ReadableExactly(blob: seq<byte>, stride: nat)
    requires |blob| >= 40 ==> RowDistance(ToInt32(U32At(blob, 4)) * (U16At(blob, 14) / 8), stride)
    ensures Readable(blob) <==>
            |blob| >= 40 &&
            var w, h := ToInt32(U32At(blob, 4)), ToInt32(U32At(blob, 8));
            && 40 <= U32At(blob, 0) <= |blob| && 1 <= w <= 16384 && (1 <= h <= 16384 || -16384 <= h <= -1)
            && U32At(blob, 16) in {0, 3} && U16At(blob, 14) in {24, 32}
            && U32At(blob, 0) + (if U32At(blob, 16) == 3 && U32At(blob, 0) == 40 then 12 else 0) +
               (if h < 0 then -h else h) * stride <= |blob|
    ensures Readable(blob) ==> stride == RowBytes(blob)
  {
    if |blob| >= 40 {
      var w, h, depth := ToInt32(U32At(blob, 4)), ToInt32(U32At(blob, 8)), U16At(blob, 14) / 8;
      var rows := if h < 0 then -h else h;
      hide RowDistance, Stride, Offset, ToInt32, U32At, U16At;
      if w >= 1 {
        StrideLeast(w, depth, stride);
        OffsetIs(rows, stride);
        assert RowBytes(blob) == stride && Height(blob) == rows;
      }
    }
  }

  /** Every output byte, for every accepted bitmap: byte c of pixel x of row y, which is byte i of the output, comes from
      inside the blob, behind the header and the masks of a plain one, from the row counted from the bottom unless the
      height is negative, past the padding of the rows before it; alpha is 255 where there is none. */
  lemma EveryPixel(blob: seq<byte>, stride: nat, y: nat, x: nat, c: nat, i: nat, at: nat)
    requires Readable(blob) && y < Height(blob) && x < Width(blob) && c < 4
    requires RowDistance(ToInt32(U32At(blob, 4)) * (U16At(blob, 14) / 8), stride)
    requires i == y * (4 * ToInt32(U32At(blob, 4))) + 4 * x + c
    requires var h := ToInt32(U32At(blob, 8));
             at == U32At(blob, 0) + (if U32At(blob, 16) == 3 && U32At(blob, 0) == 40 then 12 else 0) +
                   (if h < 0 then y else h - 1 - y) * stride + x * (U16At(blob, 14) / 8) + c
    ensures i < |Pixels(blob, Height(blob))|
    ensures if U16At(blob, 14) == 24 && c == 3 then Pixels(blob, Height(blob))[i] == 255
            else at < |blob| && Pixels(blob, Height(blob))[i] == blob[at]
  {
    ReadableExactly(blob, stride);
    Spelled(blob, y);
    assert U16At(blob, 14) == 24 <==> Depth(blob) == 3;
    assert Depth(blob) == 3 || Depth(blob) == 4;
    hide *;
    OffsetIs(StoredRow(blob, y), stride);
    OffsetIs(y, 4 * Width(blob));
    PixelFrom(blob, y, x, c);
  }

  lemma Spelled(blob: seq<byte>, y: nat)
    requires Readable(blob) && y < Height(blob)
    ensures var w, h := ToInt32(U32At(blob, 4)), ToInt32(U32At(blob, 8));
            && Width(blob) == w && Height(blob) == (if h < 0 then -h else h) && Depth(blob) == U16At(blob, 14) / 8
            && PixelStart(blob) == U32At(blob, 0) + (if U32At(blob, 16) == 3 && U32At(blob, 0) == 40 then 12 else 0)
            && StoredRow(blob, y) == if h < 0 then y else h - 1 - y
  {
  }

  // ------------------------------------------- reading padded bitmaps back

  /** The blue, green and red bytes of a row of BGRA pixels. */
  function Packed(row: seq<byte>): seq<byte> {
    seq(|row| / 4 * 3, i requires 0 <= i < |row| / 4 * 3 => row[i / 3 * 4 + i % 3])
  }

  predicate Opaque(row: seq<byte>) {
    forall k | 0 <= k < |row| && k % 4 == 3 :: row[k] == 255
  }

  function Joined(rows: seq<seq<byte>>): seq<byte> {
    if rows == [] then [] else Joined(rows[..|rows| - 1]) + rows[|rows| - 1]
  }

  function Backwards(rows: seq<seq<byte>>): seq<seq<byte>> {
    seq(|rows|, i requires 0 <= i < |rows| => rows[|rows| - 1 - i])
  }

  lemma PackedPixel(row: seq<byte>, x: nat, pad: seq<byte>)
    requires |row| % 4 == 0 && 4 * x + 4 <= |row| && Opaque(row)
    ensures (x + 1) * 3 <= |Packed(row) + pad| && WidePixel(Packed(row) + pad, x) == row[4 * x..4 * x + 4]
  {
    var packed := Packed(row);
    assert packed[3 * x] == row[4 * x] && packed[3 * x + 1] == row[4 * x + 1] && packed[3 * x + 2] == row[4 * x + 2];
    assert row[4 * x + 3] == 255;
    hide Packed, Opaque;
  }

  lemma NothingOut(row: seq<byte>)
    ensures RowOut(row, 3, 0) == []
  {
  }

  lemma TakeMore(s: seq<byte>, n: nat, m: nat)
    requires n <= m <= |s|
    ensures s[..n] + s[n..m] == s[..m]
  {
  }

  /** Widening a packed opaque row, whatever pads it, gives the row back. */
  lemma {:induction false} WidenPacked(row: seq<byte>, pad: seq<byte>, n: nat)
    requires |row| % 4 == 0 && 4 * n <= |row| && Opaque(row)
    ensures n * 3 <= |Packed(row) + pad| && RowOut(Packed(row) + pad, 3, n) == row[..4 * n]
    decreases n
  {
    hide *;
    var source := Packed(row) + pad;
    if n == 0 {
      NothingOut(source);
    } else {
      WidenPacked(row, pad, n - 1);
      PackedPixel(row, n - 1, pad);
      WiderBy(source, n - 1);
      TakeMore(row, 4 * (n - 1), 4 * n);
    }
  }

  lemma {:induction false} StripAt(strips: seq<seq<byte>>, stride: nat, k: nat)
    requires k < |strips| && forall i | 0 <= i < |strips| :: |strips[i]| == stride
    ensures |Joined(strips)| == Offset(|strips|, stride) && Offset(k, stride) + stride <= |Joined(strips)|
    ensures Joined(strips)[Offset(k, stride)..Offset(k, stride) + stride] == strips[k]
    decreases |strips|
  {
    var init := strips[..|strips| - 1];
    RowInside(stride, |strips|, k);
    RowInside(stride, |strips|, |strips| - 1);
    if init == [] {
      assert Joined(init) == [];
    } else {
      StripAt(init, stride, if k < |init| then k else 0);
      if k < |init| {
        RowInside(stride, |init|, k);
        SliceOfFront(Joined(init), Joined(strips), Offset(k, stride), Offset(k, stride) + stride);
      }
    }
  }

  /** A header for 24-bit rows, with its masks if it announces any: the fields the reader looks at, by position. */
  ghost predicate Header24(head: seq<byte>, width: nat, height: nat, topDown: bool) {
    && |head| >= 40 && U32At(head, 4) == width && U16At(head, 14) == 24 && U32At(head, 16) in {0, 3}
    && U32At(head, 8) == (if topDown then TWO32 - height else height)
    && 40 <= U32At(head, 0)
    && |head| == U32At(head, 0) + if U32At(head, 16) == 3 && U32At(head, 0) == 40 then 12 else 0
  }

  /** The rows of an opaque image, packed to 24 bits, each with its padding. */
  ghost predicate PaddedStrips(rows: seq<seq<byte>>, strips: seq<seq<byte>>, width: nat) {
    && |strips| == |rows|
    && forall y | 0 <= y < |rows| ::
         && |rows[y]| == 4 * width && Opaque(rows[y])
         && Packed(rows[y]) <= strips[y] && |strips[y]| % 4 == 0 && |strips[y]| < |Packed(rows[y])| + 4
  }

  lemma StripWidth(rows: seq<seq<byte>>, strips: seq<seq<byte>>, width: nat, y: nat)
    requires PaddedStrips(rows, strips, width) && y < |rows|
    ensures |strips[y]| == Stride(width, 3) && |Packed(rows[y])| == 3 * width
  {
    StrideLeast(width, 3, |strips[y]|);
  }

  lemma HeaderStays(head: seq<byte>, rest: seq<byte>, width: nat, height: nat, topDown: bool)
    requires Header24(head, width, height, topDown)
    ensures var blob := head + rest;
            U32At(blob, 0) == U32At(head, 0) && U32At(blob, 4) == width && U16At(blob, 14) == 24 &&
            U32At(blob, 16) == U32At(head, 16) && U32At(blob, 8) == if topDown then TWO32 - height else height
  {
    hide U32At, U16At;
    FrontFields(head, rest);
  }

  lemma Signed(n: nat)
    requires 0 < n <= 16384
    ensures ToInt32(n) == n && ToInt32(TWO32 - n) == -(n as int)
  {
  }

  lemma StripHeader(head: seq<byte>, rest: seq<byte>, width: nat, height: nat, topDown: bool)
    requires 0 < width <= 16384 && 0 < height <= 16384 && Header24(head, width, height, topDown)
    requires |rest| >= Offset(height, Stride(width, 3))
    ensures var blob := head + rest;
            Readable(blob) && Width(blob) == width && SignedHeight(blob) == (if topDown then -(height as int) else height) &&
            Depth(blob) == 3 && PixelStart(blob) == |head| && RowBytes(blob) == Stride(width, 3)
  {
    var blob := head + rest;
    HeaderStays(head, rest, width, height, topDown);
    Signed(width);
    Signed(height);
    hide Stride, Offset, ToInt32, U32At, U16At;
    assert Width(blob) == width && SignedHeight(blob) == if topDown then -(height as int) else height;
  }

  lemma RowWhere(blob: seq<byte>, y: nat)
    requires Readable(blob) && y < Height(blob)
    ensures StoredRow(blob, y) < Height(blob)
    ensures var at := PixelStart(blob) + Offset(StoredRow(blob, y), RowBytes(blob));
            at + RowBytes(blob) <= |blob| && SourceRow(blob, y) == blob[at..at + RowBytes(blob)]
  {
    hide Offset, RowBytes, PixelStart;
    RowInside(RowBytes(blob), Height(blob), StoredRow(blob, y));
  }

  lemma OneStripRead(head: seq<byte>, stored: seq<seq<byte>>, stride: nat, slack: seq<byte>, y: nat)
    requires forall k | 0 <= k < |stored| :: |stored[k]| == stride
    requires var blob := head + Joined(stored) + slack;
             Readable(blob) && PixelStart(blob) == |head| && RowBytes(blob) == stride && Height(blob) == |stored| > y
    ensures var blob := head + Joined(stored) + slack; SourceRow(blob, y) == stored[StoredRow(blob, y)]
  {
    hide *;
    var blob := head + Joined(stored) + slack;
    var k := StoredRow(blob, y);
    RowWhere(blob, y);
    StripAt(stored, stride, k);
    StripInside(head, Joined(stored), slack, Offset(k, stride), stride);
  }

  /** The strips in the order they are stored. */
  function Stored(strips: seq<seq<byte>>, topDown: bool): seq<seq<byte>> {
    if topDown then strips else Backwards(strips)
  }

  lemma StripsStored(rows: seq<seq<byte>>, strips: seq<seq<byte>>, width: nat, topDown: bool)
    requires PaddedStrips(rows, strips, width)
    ensures |Stored(strips, topDown)| == |rows|
    ensures forall k | 0 <= k < |rows| :: |Stored(strips, topDown)[k]| == Stride(width, 3)
  {
    forall y | 0 <= y < |rows| ensures |strips[y]| == Stride(width, 3) {
      StripWidth(rows, strips, width, y);
    }
    hide Stride, PaddedStrips, Packed;
    assert |strips| == |rows|;
  }

  /** The stored bytes of an output row of such a bitmap. */
  lemma StripRead(head: seq<byte>, rows: seq<seq<byte>>, strips: seq<seq<byte>>, width: nat, topDown: bool, slack: seq<byte>)
    requires 0 < width <= 16384 && 0 < |rows| <= 16384
    requires Header24(head, width, |rows|, topDown) && PaddedStrips(rows, strips, width)
    ensures var blob := head + Joined(Stored(strips, topDown)) + slack;
            Readable(blob) && Width(blob) == width && Height(blob) == |rows| && Depth(blob) == 3 &&
            forall y | 0 <= y < |rows| :: SourceRow(blob, y) == strips[y]
  {
    var stored := Stored(strips, topDown);
    var blob := head + Joined(stored) + slack;
    assert blob == head + (Joined(stored) + slack);
    assert |strips| == |rows|;
    StripsStored(rows, strips, width, topDown);
    StripsFill(stored, Stride(width, 3));
    hide Header24, PaddedStrips, Stride, Offset, Joined, Readable, SourceRow, U32At, U16At, ToInt32, RowBytes, PixelStart;
    StripHeader(head, Joined(stored) + slack, width, |rows|, topDown);
    assert Height(blob) == |rows|;
    forall y | 0 <= y < |rows| ensures SourceRow(blob, y) == strips[y] {
      OneStripRead(head, stored, Stride(width, 3), slack, y);
    }
  }

  lemma StripsFill(strips: seq<seq<byte>>, stride: nat)
    requires strips != [] && forall i | 0 <= i < |strips| :: |strips[i]| == stride
    ensures |Joined(strips)| == Offset(|strips|, stride)
  {
    StripAt(strips, stride, 0);
  }

  lemma StripInside(head: seq<byte>, rows: seq<byte>, slack: seq<byte>, at: nat, n: nat)
    requires at + n <= |rows|
    ensures (head + rows + slack)[|head| + at..|head| + at + n] == rows[at..at + n]
  {
  }

  lemma {:induction false} PixelsOfStrips(blob: seq<byte>, rows: seq<seq<byte>>, strips: seq<seq<byte>>, n: nat)
    requires Readable(blob) && Height(blob) == |rows| && Depth(blob) == 3 && n <= |rows|
    requires PaddedStrips(rows, strips, Width(blob)) && forall y | 0 <= y < |rows| :: SourceRow(blob, y) == strips[y]
    ensures Pixels(blob, n) == Joined(rows[..n])
    decreases n
  {
    hide *;
    if n != 0 {
      PixelsOfStrips(blob, rows, strips, n - 1);
      PixelsStep(blob, n - 1);
      WidthPositive(blob);
      RowOfStrip(rows, strips, Width(blob), n - 1);
      JoinedNext(rows, n - 1);
    } else {
      JoinedNone(rows);
      NoPixels(blob);
    }
  }

  lemma JoinedNext(rows: seq<seq<byte>>, n: nat)
    requires n < |rows|
    ensures Joined(rows[..n + 1]) == Joined(rows[..n]) + rows[n]
  {
    assert rows[..n + 1][..n] == rows[..n];
  }

  lemma JoinedNone(rows: seq<seq<byte>>)
    ensures Joined(rows[..0]) == []
  {
  }

  lemma NoPixels(blob: seq<byte>)
    requires Readable(blob)
    ensures Pixels(blob, 0) == []
  {
  }

  lemma WidthPositive(blob: seq<byte>)
    requires Readable(blob)
    ensures |blob| >= INFO_HEADER && Width(blob) > 0
  {
  }

  lemma RowOfStrip(rows: seq<seq<byte>>, strips: seq<seq<byte>>, width: nat, y: nat)
    requires PaddedStrips(rows, strips, width) && y < |rows|
    ensures width * 3 <= |strips[y]| && RowOut(strips[y], 3, width) == rows[y]
  {
    hide *;
    StripHolds(rows, strips, width, y);
    var row, strip := rows[y], strips[y];
    SplitFront(Packed(row), strip);
    WidenPacked(row, strip[|Packed(row)|..], width);
    TakeAll(row);
  }

  lemma StripHolds(rows: seq<seq<byte>>, strips: seq<seq<byte>>, width: nat, y: nat)
    requires PaddedStrips(rows, strips, width) && y < |rows|
    ensures |strips| == |rows| && |rows[y]| == 4 * width && Opaque(rows[y]) && Packed(rows[y]) <= strips[y]
  {
  }

  lemma SplitFront(front: seq<byte>, all: seq<byte>)
    requires front <= all
    ensures front + all[|front|..] == all
  {
  }

  lemma TakeAll(s: seq<byte>)
    ensures s[..|s|] == s
  {
  }

  /** Padding skipped: an opaque image stored as 24-bit rows, bottom-up or top-down, with any bytes as padding and any
      slack behind, reads back pixel for pixel. */
  lemma PaddedRoundTrip(head: seq<byte>, rows: seq<seq<byte>>, strips: seq<seq<byte>>, width: nat, topDown: bool,
                        slack: seq<byte>)
    requires 0 < width <= 16384 && 0 < |rows| <= 16384
    requires Header24(head, width, |rows|, topDown) && PaddedStrips(rows, strips, width)
    ensures var blob := head + Joined(Stored(strips, topDown)) + slack;
            Readable(blob) && Width(blob) == width && Height(blob) == |rows| && Pixels(blob, |rows|) == Joined(rows)
  {
    StripRead(head, rows, strips, width, topDown, slack);
    var blob := head + Joined(Stored(strips, topDown)) + slack;
    PixelsOfStrips(blob, rows, strips, |rows|);
    assert rows[..|rows|] == rows;
  }

  // ----------------------------------------------------------- the builder

  /** The fields BITMAPV5HEADER shares with the plain header. */
  function WithGeometry(buf: seq<byte>, width: nat, height: nat): (h: seq<byte>)
    requires |buf| >= V5_HEADER
    requires 0 < width <= MAX_IMAGE_DIMENSION && 0 < height <= MAX_IMAGE_DIMENSION
    ensures |h| == |buf|
  {
    SizeFits(width, height);
    var h1 := Poke32(buf, 0, V5_HEADER);
    var h2 := Poke32(h1, 4, width);
    var h3 := Poke32(h2, 8, FromInt32(-(height as int)));
    var h4 := Poke16(h3, 12, 1);
    var h5 := Poke16(h4, 14, 32);
    var h6 := Poke32(h5, 16, BI_BITFIELDS);
    Poke32(h6, 20, Offset(height, 4 * width))
  }

  /** The masks, the colour space and the intent. */
  function WithColours(buf: seq<byte>): (h: seq<byte>)
    requires |buf| >= V5_HEADER
    ensures |h| == |buf|
  {
    var h1 := Poke32(buf, 40, 0x00FF0000);
    var h2 := Poke32(h1, 44, 0x0000FF00);
    var h3 := Poke32(h2, 48, 0x000000FF);
    var h4 := Poke32(h3, 52, 0xFF000000);
    var h5 := Poke32(h4, 56, 0x73524742);
    Poke32(h5, 108, 2)
  }

  /** BITMAPV5HEADER for top-down 32-bit BGRA in sRGB, put at the front of a buffer. */
  function WithV5Header(buf: seq<byte>, width: nat, height: nat): (h: seq<byte>)
    requires |buf| >= V5_HEADER
    requires 0 < width <= MAX_IMAGE_DIMENSION && 0 < height <= MAX_IMAGE_DIMENSION
    ensures |h| == |buf|
  {
    WithColours(WithGeometry(buf, width, height))
  }

  predicate Buildable(width: int, height: int, pixels: seq<byte>) {
    0 < width <= MAX_IMAGE_DIMENSION && 0 < height <= MAX_IMAGE_DIMENSION && |pixels| == Offset(height, 4 * width)
  }

  lemma SizeFits(width: nat, height: nat)
    requires width <= MAX_IMAGE_DIMENSION && height <= MAX_IMAGE_DIMENSION
    ensures Offset(height, 4 * width) < TWO32
  {
    Scaled(height, MAX_IMAGE_DIMENSION, 4 * width);
  }

  lemma Scaled(a: nat, b: nat, w: nat)
    requires a <= b
    ensures a * w <= b * w
  {
  }

  function V5Header(width: nat, height: nat): seq<byte>
    requires 0 < width <= MAX_IMAGE_DIMENSION && 0 < height <= MAX_IMAGE_DIMENSION
  {
    WithV5Header(Zeros(V5_HEADER), width, height)
  }

  /** Nothing unless the image is within bounds and its pixels are all there. */
  function V5Payload(width: int, height: int, pixels: seq<byte>): seq<byte> {
    if Buildable(width, height, pixels) then V5Header(width, height) + pixels else []
  }

  method BuildCfDibV5Payload(width: int, height: int, pixels: seq<byte>) returns (out: seq<byte>)
    ensures out == V5Payload(width, height, pixels)
  {
    if width <= 0 || height <= 0 { return []; }
    if width > MAX_IMAGE_DIMENSION || height > MAX_IMAGE_DIMENSION { return []; }
    var expectedLen := Offset(height, 4 * width);
    if |pixels| != expectedLen { return []; }
    SizeFits(width, height);
    hide WithV5Header, Poke32, Poke16, Offset;
    var buf := new byte[V5_HEADER + expectedLen](_ => 0);
    assert buf[..] == Zeros(V5_HEADER) + Zeros(expectedLen);
    FillV5Header(buf, width, height);
    HeaderInFront(Zeros(V5_HEADER), Zeros(expectedLen), width, height);
    Copy(buf, V5_HEADER, pixels);
    assert buf[..] == V5Header(width, height) + pixels;
    return buf[..];
  }

  method FillV5Header(buf: array<byte>, width: nat, height: nat)
    requires 0 < width <= MAX_IMAGE_DIMENSION && 0 < height <= MAX_IMAGE_DIMENSION && buf.Length >= V5_HEADER
    modifies buf
    ensures buf[..] == WithV5Header(old(buf[..]), width, height)
  {
    hide Poke32, Poke16, Offset;
    SizeFits(width, height);
    Put32(buf, 0, V5_HEADER);
    Put32(buf, 4, width);
    Put32(buf, 8, FromInt32(-(height as int)));
    Put16(buf, 12, 1);
    Put16(buf, 14, 32);
    Put32(buf, 16, BI_BITFIELDS);
    Put32(buf, 20, Offset(height, 4 * width));
    Put32(buf, 40, 0x00FF0000);
    Put32(buf, 44, 0x0000FF00);
    Put32(buf, 48, 0x000000FF);
    Put32(buf, 52, 0xFF000000);
    Put32(buf, 56, 0x73524742);
    Put32(buf, 108, 2);
  }

  lemma Poke32InFront(head: seq<byte>, tail: seq<byte>, at: nat, v: nat)
    requires at + 4 <= |head| && v < TWO32
    ensures Poke32(head + tail, at, v) == Poke32(head, at, v) + tail
  {
  }

  lemma Poke16InFront(head: seq<byte>, tail: seq<byte>, at: nat, v: nat)
    requires at + 2 <= |head| && v < TWO16
    ensures Poke16(head + tail, at, v) == Poke16(head, at, v) + tail
  {
  }

  lemma PokesInFront(tail: seq<byte>)
    ensures forall h: seq<byte>, at: nat, v: nat | at + 4 <= |h| && v < TWO32 ::
              Poke32(h + tail, at, v) == Poke32(h, at, v) + tail
    ensures forall h: seq<byte>, at: nat, v: nat | at + 2 <= |h| && v < TWO16 ::
              Poke16(h + tail, at, v) == Poke16(h, at, v) + tail
  {
    hide Poke32, Poke16;
    forall h: seq<byte>, at: nat, v: nat | at + 4 <= |h| && v < TWO32
      ensures Poke32(h + tail, at, v) == Poke32(h, at, v) + tail
    {
      Poke32InFront(h, tail, at, v);
    }
    forall h: seq<byte>, at: nat, v: nat | at + 2 <= |h| && v < TWO16
      ensures Poke16(h + tail, at, v) == Poke16(h, at, v) + tail
    {
      Poke16InFront(h, tail, at, v);
    }
  }

  lemma GeometryInFront(head: seq<byte>, tail: seq<byte>, width: nat, height: nat)
    requires |head| >= V5_HEADER
    requires 0 < width <= MAX_IMAGE_DIMENSION && 0 < height <= MAX_IMAGE_DIMENSION
    ensures WithGeometry(head + tail, width, height) == WithGeometry(head, width, height) + tail
  {
    hide Poke32, Poke16, Offset;
    SizeFits(width, height);
    PokesInFront(tail);
  }

  lemma ColoursInFront(head: seq<byte>, tail: seq<byte>)
    requires |head| >= V5_HEADER
    ensures WithColours(head + tail) == WithColours(head) + tail
  {
    hide Poke32, Poke16;
    PokesInFront(tail);
  }

  /** The header is written to the front of the buffer and to nothing else. */
  lemma HeaderInFront(head: seq<byte>, tail: seq<byte>, width: nat, height: nat)
    requires |head| >= V5_HEADER
    requires 0 < width <= MAX_IMAGE_DIMENSION && 0 < height <= MAX_IMAGE_DIMENSION
    ensures WithV5Header(head + tail, width, height) == WithV5Header(head, width, height) + tail
  {
    hide WithGeometry, WithColours;
    GeometryInFront(head, tail, width, height);
    ColoursInFront(WithGeometry(head, width, height), tail);
  }

  /** The header says what the pixels are; everything it leaves out is zero. */
  lemma HeaderFields(width: nat, height: nat)
    requires 0 < width <= MAX_IMAGE_DIMENSION && 0 < height <= MAX_IMAGE_DIMENSION
    ensures var h := V5Header(width, height);
            |h| == 124 && U32At(h, 0) == 124 && ToInt32(U32At(h, 4)) == width && ToInt32(U32At(h, 8)) == -(height as int) &&
            U16At(h, 12) == 1 && U16At(h, 14) == 32 && U32At(h, 16) == 3 &&
            U32At(h, 20) == height * (4 * width) &&
            U32At(h, 40) == 0x00FF0000 && U32At(h, 44) == 0xFF00 && U32At(h, 48) == 0xFF && U32At(h, 52) == 0xFF000000 &&
            U32At(h, 56) == 0x73524742 && U32At(h, 108) == 2
    ensures forall i | 24 <= i < 40 || 60 <= i < 108 || 112 <= i < 124 :: V5Header(width, height)[i] == 0
  {
    hide U32At, U16At, Poke32, Poke16, Offset;
    SizeFits(width, height);
    OffsetIs(height, 4 * width);
  }

  /** A payload comes out exactly for an image of 1 to 16384 pixels each way with all its bytes. */
  lemma BuiltExactly(width: int, height: int, pixels: seq<byte>)
    ensures V5Payload(width, height, pixels) != [] <==>
            1 <= width <= 16384 && 1 <= height <= 16384 && |pixels| == height * (4 * width)
  {
    hide WithV5Header, Offset;
    if width >= 0 && height >= 0 { OffsetIs(height, 4 * width); }
  }

  /** In a top-down 32-bit bitmap the stored rows are the output rows. */
  lemma TopDownRow(blob: seq<byte>, y: nat)
    requires Readable(blob) && SignedHeight(blob) < 0 && Depth(blob) == 4 && y < Height(blob)
    ensures var at, n := PixelStart(blob) + Offset(y, 4 * Width(blob)), 4 * Width(blob);
            at + n <= |blob| && RowOut(SourceRow(blob, y), 4, Width(blob)) == blob[at..at + n]
  {
    hide Offset, RowOut, Pixels;
    RowAt(blob, y);
    RowInside(RowBytes(blob), Height(blob), y);
    RowOutWide(SourceRow(blob, y), Width(blob));
  }

  lemma SliceGrows(s: seq<byte>, start: nat, n: nat, m: nat, before: seq<byte>, added: seq<byte>)
    requires start + n + m <= |s| && before == s[start..start + n] && added == s[start + n..start + n + m]
    ensures before + added == s[start..start + n + m]
  {
  }

  /** The first n output rows are the first n stored ones. */
  ghost predicate StoredAsShown(blob: seq<byte>, n: nat)
    requires Readable(blob) && n <= Height(blob)
  {
    PixelStart(blob) + Offset(n, 4 * Width(blob)) <= |blob| &&
    Pixels(blob, n) == blob[PixelStart(blob)..PixelStart(blob) + Offset(n, 4 * Width(blob))]
  }

  lemma ShowNext(blob: seq<byte>, n: nat)
    requires Readable(blob) && SignedHeight(blob) < 0 && Depth(blob) == 4 && n < Height(blob) && StoredAsShown(blob, n)
    ensures StoredAsShown(blob, n + 1)
  {
    hide Offset, RowOut, Pixels, SourceRow, PixelStart, Width, Height, SignedHeight, Depth, RowBytes;
    PixelsStep(blob, n);
    RowInside(4 * Width(blob), n + 1, n);
    TopDownRow(blob, n);
    SliceGrows(blob, PixelStart(blob), Offset(n, 4 * Width(blob)), 4 * Width(blob), Pixels(blob, n),
               RowOut(SourceRow(blob, n), 4, Width(blob)));
  }

  lemma {:induction false} TopDownRows(blob: seq<byte>, n: nat)
    requires Readable(blob) && SignedHeight(blob) < 0 && Depth(blob) == 4 && n <= Height(blob)
    ensures StoredAsShown(blob, n)
    decreases n
  {
    if n != 0 {
      hide *;
      TopDownRows(blob, n - 1);
      ShowNext(blob, n - 1);
    }
  }

  /** The fields at the front of a blob do not depend on what follows. */
  lemma FrontFields(head: seq<byte>, tail: seq<byte>)
    requires |head| >= INFO_HEADER
    ensures forall at | 0 <= at <= |head| - 4 :: U32At(head + tail, at) == U32At(head, at)
    ensures forall at | 0 <= at <= |head| - 2 :: U16At(head + tail, at) == U16At(head, at)
  {
  }

  /** Reading a built payload gives the image back, whatever slack the allocation has behind it. */
  lemma DibRoundTrip(width: int, height: int, pixels: seq<byte>, slack: seq<byte>)
    requires Buildable(width, height, pixels)
    ensures var blob := V5Payload(width, height, pixels) + slack;
            Readable(blob) && Width(blob) == width && Height(blob) == height && Pixels(blob, height) == pixels
  {
    hide U32At, U16At, WithV5Header, Offset, Pixels;
    var h := V5Header(width, height);
    var blob := V5Payload(width, height, pixels) + slack;
    assert blob == h + (pixels + slack);
    HeaderFields(width, height);
    FrontFields(h, pixels + slack);
    assert RowBytes(blob) == 4 * width;
    TopDownRows(blob, height);
    assert blob[V5_HEADER..V5_HEADER + |pixels|] == pixels;
  }
}
