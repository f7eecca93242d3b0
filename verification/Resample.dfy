/**
 Cropping to the centred square and resampling by area (centreCrop and resizeTo in png.js),
 in exact arithmetic: lengths are counted in units of 1/size of a source pixel.
 */
module Resample {
  import opened Prelude
  import opened Sums
  import opened PngFilter
  import opened PngPixels
  import opened Raster
  import opened Coverage

  // -------------------------------------------------------------------- rounding

  /** The nearest whole number to m / t, halves going up, as Math.round has it. */
  function Rounded(m: int, t: int): int
    requires t > 0
  {
    (2 * m + t) / (2 * t)
  }

  lemma RoundedWithin(m: int, t: int, lo: int, hi: int)
    requires t > 0 && lo * t <= m <= hi * t
    ensures lo <= Rounded(m, t) <= hi
  {
    var q, r := (2 * m + t) / (2 * t), (2 * m + t) % (2 * t);
    DivisionParts(2 * m + t, 2 * t);
    assert 2 * t * lo == 2 * (lo * t) && 2 * t * hi == 2 * (hi * t);
    QuotientOrder(2 * t, lo, t, q, r);
    QuotientOrder(2 * t, q, r, hi, t);
  }

  lemma RoundedIsNearest(m: int, t: int)
    requires t > 0
    ensures 2 * m - t < 2 * (t * Rounded(m, t)) <= 2 * m + t
  {
    DivisionParts(2 * m + t, 2 * t);
    var q := Rounded(m, t);
    assert 2 * t * q == 2 * (t * q);
  }

  // ---------------------------------------------------------------- output pixels

  function Red(p: Picture): Channel {
    (y, x) => p(y, x).r
  }

  function Green(p: Picture): Channel {
    (y, x) => p(y, x).g
  }

  function Blue(p: Picture): Channel {
    (y, x) => p(y, x).b
  }

  /** All the covered pixels of a channel lie within `lo` and `hi`. */
  ghost predicate CoveredWithin(img: Channel, ty: nat, tx: nat, w: nat, h: nat, size: nat, lo: int, hi: int) {
    forall sy, sx :: 0 <= sy < h && 0 <= sx < w && Weight(ty, tx, w, h, size)(sy, sx) > 0 ==> lo <= img(sy, sx) <= hi
  }

  function Scaled(k: int, f: (int, int) -> int): (int, int) -> int {
    (i, j) => k * f(i, j)
  }

  lemma MassWithin(img: Channel, ty: nat, tx: nat, w: nat, h: nat, size: nat, lo: int, hi: int)
    requires ty < size && tx < size
    requires CoveredWithin(img, ty, tx, w, h, size, lo, hi)
    ensures lo * (w * h) <= Mass(img, ty, tx, w, h, size) <= hi * (w * h)
  {
    hide Cover;
    var weight, weighted := Weight(ty, tx, w, h, size), Weighted(img, ty, tx, w, h, size);
    forall sy, sx | 0 <= sy < h && 0 <= sx < w
      ensures lo * weight(sy, sx) <= weighted(sy, sx) <= hi * weight(sy, sx)
    {
      Between(lo, img(sy, sx), hi, weight(sy, sx));
    }
    SumOverOrder(h, w, Scaled(lo, weight), weighted);
    SumOverOrder(h, w, weighted, Scaled(hi, weight));
    SumOverScale(h, w, lo, weight, Scaled(lo, weight));
    SumOverScale(h, w, hi, weight, Scaled(hi, weight));
    WeightsTotalArea(ty, tx, w, h, size);
  }

  lemma Between(lo: int, v: int, hi: int, k: int)
    requires k >= 0 && (k > 0 ==> lo <= v <= hi)
    ensures lo * k <= v * k <= hi * k
  {
    if k > 0 {
      TimesMonotone(k, lo, v);
      TimesMonotone(k, v, hi);
    }
  }

  /** A channel of an output pixel: the average of what it covers, rounded. */
  function Averaged(img: Channel, ty: nat, tx: nat, w: nat, h: nat, size: nat): int
    requires ty < size && tx < size && w > 0 && h > 0
  {
    WeightsTotalArea(ty, tx, w, h, size);
    AtLeastOneTimes(w, h);
    Rounded(Mass(img, ty, tx, w, h, size), TotalWeight(ty, tx, w, h, size))
  }

  /** Every channel of the output lies between the least and the greatest of what it covers. */
  lemma AverageWithin(img: Channel, ty: nat, tx: nat, w: nat, h: nat, size: nat, lo: int, hi: int)
    requires ty < size && tx < size && w > 0 && h > 0
    requires CoveredWithin(img, ty, tx, w, h, size, lo, hi)
    ensures lo <= Averaged(img, ty, tx, w, h, size) <= hi
  {
    hide Mass, TotalWeight, Rounded, CoveredWithin;
    WeightsTotalArea(ty, tx, w, h, size);
    AtLeastOneTimes(w, h);
    MassWithin(img, ty, tx, w, h, size, lo, hi);
    RoundedWithin(Mass(img, ty, tx, w, h, size), w * h, lo, hi);
  }

  /** Stored into a byte, which would wrap. */
  function AveragedByte(img: Channel, ty: nat, tx: nat, w: nat, h: nat, size: nat): Byte
    requires ty < size && tx < size && w > 0 && h > 0
  {
    Averaged(img, ty, tx, w, h, size) % 256
  }

  /** The picture resampled; outside the output there is nothing to say. */
  function Resampled(p: Picture, w: nat, h: nat, size: nat): Picture
    requires w > 0 && h > 0
  {
    (ty, tx) =>
      if 0 <= ty < size && 0 <= tx < size then
        Rgb(AveragedByte(Red(p), ty, tx, w, h, size),
            AveragedByte(Green(p), ty, tx, w, h, size),
            AveragedByte(Blue(p), ty, tx, w, h, size))
      else Rgb(0, 0, 0)
  }

  /** The average of bytes is a byte, so nothing ever wraps. */
  lemma AverageFitsByte(p: Picture, ty: nat, tx: nat, w: nat, h: nat, size: nat)
    requires ty < size && tx < size && w > 0 && h > 0
    ensures Resampled(p, w, h, size)(ty, tx).r == Averaged(Red(p), ty, tx, w, h, size)
    ensures Resampled(p, w, h, size)(ty, tx).g == Averaged(Green(p), ty, tx, w, h, size)
    ensures Resampled(p, w, h, size)(ty, tx).b == Averaged(Blue(p), ty, tx, w, h, size)
  {
    hide Averaged, Weight;
    forall sy, sx ensures 0 <= Red(p)(sy, sx) < 256 && 0 <= Green(p)(sy, sx) < 256 && 0 <= Blue(p)(sy, sx) < 256 {
      var px := p(sy, sx);
    }
    AverageWithin(Red(p), ty, tx, w, h, size, 0, 255);
    AverageWithin(Green(p), ty, tx, w, h, size, 0, 255);
    AverageWithin(Blue(p), ty, tx, w, h, size, 0, 255);
  }

  // -------------------------------------------------- a picture of the size asked

  lemma CoverOfSame(t: nat, s: nat, size: nat)
    ensures Cover(t, s, size, size) == if s == t then size else 0
  {
    if s < t {
      TimesMonotone(size, s + 1, t);
    } else if s > t {
      TimesMonotone(size, t + 1, s);
    }
  }

  lemma MassOfSame(img: Channel, ty: nat, tx: nat, size: nat)
    requires ty < size && tx < size
    ensures Mass(img, ty, tx, size, size, size) == img(ty, tx) * (size * size)
  {
    hide Cover;
    var f := Weighted(img, ty, tx, size, size, size);
    forall sy | 0 <= sy < size
      ensures RowSums(size, f)(sy) == if sy == ty then img(ty, tx) * (size * size) else 0
    {
      MassOfSameRow(img, ty, tx, sy, size);
    }
    SumSingle(size, RowSums(size, f), ty);
  }

  lemma MassOfSameRow(img: Channel, ty: nat, tx: nat, sy: nat, size: nat)
    requires ty < size && tx < size && sy < size
    ensures SumTo(size, At(Weighted(img, ty, tx, size, size, size), sy)) ==
      if sy == ty then img(ty, tx) * (size * size) else 0
  {
    hide Cover;
    var f := At(Weighted(img, ty, tx, size, size, size), sy);
    CoverOfSame(ty, sy, size);
    forall sx | 0 <= sx < size
      ensures f(sx) == if sy == ty && sx == tx then img(ty, tx) * (size * size) else 0
    {
      CoverOfSame(tx, sx, size);
    }
    SumSingle(size, f, tx);
  }

  lemma AverageOfSame(img: Channel, ty: nat, tx: nat, size: nat)
    requires ty < size && tx < size
    ensures Averaged(img, ty, tx, size, size, size) == img(ty, tx)
  {
    hide Mass, TotalWeight, Rounded;
    MassOfSame(img, ty, tx, size);
    WeightsTotalArea(ty, tx, size, size, size);
    AtLeastOneTimes(size, size);
    RoundedWithin(img(ty, tx) * (size * size), size * size, img(ty, tx), img(ty, tx));
  }

  /** An image that is already the size asked for is not changed. */
  lemma ResampledSame(p: Picture, size: nat, y: nat, x: nat)
    requires y < size && x < size
    ensures Resampled(p, size, size, size)(y, x) == p(y, x)
  {
    hide Averaged;
    AverageOfSame(Red(p), y, x, size);
    AverageOfSame(Green(p), y, x, size);
    AverageOfSame(Blue(p), y, x, size);
  }

  lemma ResizedSame(pixels: seq<Byte>, size: nat)
    requires |pixels| == size * (3 * size) && size > 0
    ensures Bytes(Resampled(PictureOf(pixels, size), size, size, size), size, size) == pixels
  {
    hide Bytes, PictureOf, Resampled;
    var p := PictureOf(pixels, size);
    forall y, x | 0 <= y < size && 0 <= x < size ensures Resampled(p, size, size, size)(y, x) == p(y, x) {
      ResampledSame(p, size, y, x);
    }
    SamePicture(Resampled(p, size, size, size), p, size, size);
    BytesOfPicture(pixels, size, size);
  }

  // ------------------------------------------------------------------ the buffers

  /** Running totals over the source pixels under one output pixel. */
  datatype Totals = Totals(r: int, g: int, b: int, weight: int)

  function RowTotals(p: Picture, ty: int, tx: int, w: int, h: int, size: int, sy: int, n: nat): Totals {
    Totals(SumTo(n, At(Weighted(Red(p), ty, tx, w, h, size), sy)),
           SumTo(n, At(Weighted(Green(p), ty, tx, w, h, size), sy)),
           SumTo(n, At(Weighted(Blue(p), ty, tx, w, h, size), sy)),
           SumTo(n, At(Weight(ty, tx, w, h, size), sy)))
  }

  function PixelTotals(p: Picture, ty: int, tx: int, w: nat, h: int, size: int, m: nat): Totals {
    Totals(SumTo(m, RowSums(w, Weighted(Red(p), ty, tx, w, h, size))),
           SumTo(m, RowSums(w, Weighted(Green(p), ty, tx, w, h, size))),
           SumTo(m, RowSums(w, Weighted(Blue(p), ty, tx, w, h, size))),
           SumTo(m, RowSums(w, Weight(ty, tx, w, h, size))))
  }

  function Plus(a: Totals, b: Totals): Totals {
    Totals(a.r + b.r, a.g + b.g, a.b + b.b, a.weight + b.weight)
  }

  function Parts(px: Rgb, weight: int): Totals {
    Totals(px.r * weight, px.g * weight, px.b * weight, weight)
  }

  lemma NextInRow(p: Picture, ty: int, tx: int, w: int, h: int, size: int, sy: int, n: nat)
    ensures RowTotals(p, ty, tx, w, h, size, sy, n + 1) ==
      Plus(RowTotals(p, ty, tx, w, h, size, sy, n), Parts(p(sy, n), Cover(ty, sy, h, size) * Cover(tx, n, w, size)))
  {
    hide Cover;
  }

  lemma NextRowTotals(p: Picture, ty: int, tx: int, w: nat, h: int, size: int, m: nat)
    ensures PixelTotals(p, ty, tx, w, h, size, m + 1) ==
      Plus(PixelTotals(p, ty, tx, w, h, size, m), RowTotals(p, ty, tx, w, h, size, m, w))
  {
    hide Cover, Weight, Weighted;
  }

  const NONE := Totals(0, 0, 0, 0)

  /** Columns outside the covered stretch add nothing. */
  lemma {:induction false} UncoveredColumns(p: Picture, ty: int, tx: int, w: int, h: int, size: int, sy: int, m: nat, n: nat)
    requires m <= n && forall sx :: m <= sx < n ==> Cover(ty, sy, h, size) * Cover(tx, sx, w, size) == 0
    ensures RowTotals(p, ty, tx, w, h, size, sy, n) == RowTotals(p, ty, tx, w, h, size, sy, m)
  {
    hide Cover, RowTotals;
    if m < n {
      UncoveredColumns(p, ty, tx, w, h, size, sy, m, n - 1);
      NextInRow(p, ty, tx, w, h, size, sy, n - 1);
    }
  }

  lemma NoColumns(p: Picture, ty: int, tx: int, w: int, h: int, size: int, sy: int)
    ensures RowTotals(p, ty, tx, w, h, size, sy, 0) == NONE
  {
  }

  lemma NoRowsYet(p: Picture, ty: int, tx: int, w: nat, h: int, size: int)
    ensures PixelTotals(p, ty, tx, w, h, size, 0) == NONE
  {
  }

  /** Columns left of the first covered one, and right of the last, add nothing. */
  lemma ColumnsOutside(p: Picture, ty: int, tx: nat, w: nat, h: int, size: nat, sy: int, m: nat, n: nat)
    requires tx < size && m <= n
    requires n <= StartOf(tx, w, size) || m >= EndOf(tx, w, size)
    ensures RowTotals(p, ty, tx, w, h, size, sy, n) == RowTotals(p, ty, tx, w, h, size, sy, m)
  {
    hide Cover, RowTotals;
    forall sx | m <= sx < n ensures Cover(ty, sy, h, size) * Cover(tx, sx, w, size) == 0 {
      OutsideIsUncovered(tx, sx, w, size);
    }
    UncoveredColumns(p, ty, tx, w, h, size, sy, m, n);
  }

  lemma {:induction false} RowsOutside(p: Picture, ty: nat, tx: int, w: nat, h: nat, size: nat, m: nat, n: nat)
    requires ty < size && m <= n
    requires n <= StartOf(ty, h, size) || m >= EndOf(ty, h, size)
    ensures PixelTotals(p, ty, tx, w, h, size, n) == PixelTotals(p, ty, tx, w, h, size, m)
  {
    hide Cover, RowTotals, PixelTotals;
    if m < n {
      RowsOutside(p, ty, tx, w, h, size, m, n - 1);
      NextRowTotals(p, ty, tx, w, h, size, n - 1);
      OutsideIsUncovered(ty, n - 1, h, size);
      RowUncovered(p, ty, tx, w, h, size, n - 1);
    }
  }

  lemma RowUncovered(p: Picture, ty: nat, tx: int, w: nat, h: nat, size: nat, sy: nat)
    requires Cover(ty, sy, h, size) == 0
    ensures RowTotals(p, ty, tx, w, h, size, sy, w) == NONE
  {
    hide Cover, RowTotals;
    NoColumns(p, ty, tx, w, h, size, sy);
    UncoveredColumns(p, ty, tx, w, h, size, sy, 0, w);
  }

  method ReadPixel(pixels: seq<Byte>, w: nat, h: nat, y: nat, x: nat) returns (px: Rgb)
    requires |pixels| == h * (3 * w) && y < h && x < w
    ensures px == PictureOf(pixels, w)(y, x)
  {
    OffsetFits(y, x, w, h);
    var at := (y * w + x) * 3;
    px := Rgb(pixels[at], pixels[at + 1], pixels[at + 2]);
  }

  /** What one source pixel adds to an output pixel. */
  method AddCell(pixels: seq<Byte>, ty: nat, tx: nat, w: nat, h: nat, size: nat, sy: nat, sx: nat, coverY: int, sum: Totals)
    returns (next: Totals)
    requires |pixels| == h * (3 * w) && sy < h && sx < w
    requires coverY == Cover(ty, sy, h, size)
    requires sum == RowTotals(PictureOf(pixels, w), ty, tx, w, h, size, sy, sx)
    ensures next == RowTotals(PictureOf(pixels, w), ty, tx, w, h, size, sy, sx + 1)
  {
    hide RowTotals, PictureOf;
    NextInRow(PictureOf(pixels, w), ty, tx, w, h, size, sy, sx);
    var coverX := Min((tx + 1) * w, (sx + 1) * size) - Max(tx * w, sx * size);
    if coverX <= 0 {
      assert Cover(tx, sx, w, size) == 0;
      return sum;
    }
    assert Cover(tx, sx, w, size) == coverX;
    var px := ReadPixel(pixels, w, h, sy, sx);
    return Plus(sum, Parts(px, coverY * coverX));
  }

  /** What one source row adds to an output pixel. */
  method AddRow(pixels: seq<Byte>, ty: nat, tx: nat, w: nat, h: nat, size: nat, sy: nat, coverY: int) returns (sum: Totals)
    requires |pixels| == h * (3 * w) && ty < size && tx < size && sy < h
    requires coverY == Cover(ty, sy, h, size)
    ensures sum == RowTotals(PictureOf(pixels, w), ty, tx, w, h, size, sy, w)
  {
    hide RowTotals, PictureOf, Cover, StartOf, EndOf;
    ghost var p := PictureOf(pixels, w);
    var sx, end := StartOf(tx, w, size), Min(w, EndOf(tx, w, size));
    NoColumns(p, ty, tx, w, h, size, sy);
    ColumnsOutside(p, ty, tx, w, h, size, sy, 0, sx);
    sum := NONE;
    while sx < end
      invariant 0 <= sx <= w
      invariant sum == RowTotals(p, ty, tx, w, h, size, sy, sx)
    {
      sum := AddCell(pixels, ty, tx, w, h, size, sy, sx, coverY, sum);
      sx := sx + 1;
    }
    if sx < w {
      ColumnsOutside(p, ty, tx, w, h, size, sy, sx, w);
    }
  }

  method AddRowIfCovered(pixels: seq<Byte>, ty: nat, tx: nat, w: nat, h: nat, size: nat, sy: nat, sum: Totals)
    returns (next: Totals)
    requires |pixels| == h * (3 * w) && ty < size && tx < size && sy < h
    requires sum == PixelTotals(PictureOf(pixels, w), ty, tx, w, h, size, sy)
    ensures next == PixelTotals(PictureOf(pixels, w), ty, tx, w, h, size, sy + 1)
  {
    hide RowTotals, PixelTotals, PictureOf;
    ghost var p := PictureOf(pixels, w);
    NextRowTotals(p, ty, tx, w, h, size, sy);
    var coverY := Min((ty + 1) * h, (sy + 1) * size) - Max(ty * h, sy * size);
    if coverY <= 0 {
      assert Cover(ty, sy, h, size) == 0;
      RowUncovered(p, ty, tx, w, h, size, sy);
      return sum;
    }
    assert Cover(ty, sy, h, size) == coverY;
    var row := AddRow(pixels, ty, tx, w, h, size, sy, coverY);
    return Plus(sum, row);
  }

  /** The totals of one output pixel. */
  method AddPixel(pixels: seq<Byte>, ty: nat, tx: nat, w: nat, h: nat, size: nat) returns (sum: Totals)
    requires |pixels| == h * (3 * w) && ty < size && tx < size
    ensures sum == PixelTotals(PictureOf(pixels, w), ty, tx, w, h, size, h)
  {
    hide RowTotals, PixelTotals, PictureOf, StartOf, EndOf;
    ghost var p := PictureOf(pixels, w);
    var sy, end := StartOf(ty, h, size), Min(h, EndOf(ty, h, size));
    NoRowsYet(p, ty, tx, w, h, size);
    RowsOutside(p, ty, tx, w, h, size, 0, sy);
    sum := NONE;
    while sy < end
      invariant 0 <= sy <= h
      invariant sum == PixelTotals(p, ty, tx, w, h, size, sy)
    {
      sum := AddRowIfCovered(pixels, ty, tx, w, h, size, sy, sum);
      sy := sy + 1;
    }
    if sy < h {
      RowsOutside(p, ty, tx, w, h, size, sy, h);
    }
  }

  /** One output pixel, from its totals. */
  method ResizePixel(pixels: seq<Byte>, ty: nat, tx: nat, w: nat, h: nat, size: nat) returns (px: Rgb)
    requires |pixels| == h * (3 * w) && ty < size && tx < size && w > 0 && h > 0
    ensures px == Resampled(PictureOf(pixels, w), w, h, size)(ty, tx)
  {
    hide PictureOf, Rounded, Weighted, Weight;
    ghost var p := PictureOf(pixels, w);
    var sum := AddPixel(pixels, ty, tx, w, h, size);
    WeightsTotalArea(ty, tx, w, h, size);
    AtLeastOneTimes(w, h);
    px := Rgb(Rounded(sum.r, sum.weight) % 256, Rounded(sum.g, sum.weight) % 256, Rounded(sum.b, sum.weight) % 256);
  }

  /** Resamples to `size` by `size`. */
  method ResizeTo(pixels: seq<Byte>, w: nat, h: nat, size: nat) returns (out: seq<Byte>)
    requires |pixels| == h * (3 * w) && w > 0 && h > 0
    ensures out == Bytes(Resampled(PictureOf(pixels, w), w, h, size), size, size)
  {
    hide PictureOf, Resampled, Offset;
    ghost var p := Resampled(PictureOf(pixels, w), w, h, size);
    TimesMonotone(3 * size, 0, size);
    var buffer := new Byte[size * (3 * size)];
    var ty := 0;
    while ty < size
      invariant 0 <= ty <= size && 0 <= ty * (3 * size) <= buffer.Length
      invariant buffer[..ty * (3 * size)] == Bytes(p, size, ty)
    {
      RowFits(ty, size, 3 * size);
      ResizeRow(pixels, ty, w, h, size, buffer);
      assert (ty + 1) * (3 * size) == ty * (3 * size) + 3 * size;
      ty := ty + 1;
    }
    assert buffer[..] == buffer[..ty * (3 * size)];
    return buffer[..];
  }

  method PutPixel(buffer: array<Byte>, at: nat, px: Rgb)
    requires at + 3 <= buffer.Length
    modifies buffer
    ensures buffer[at] == px.r && buffer[at + 1] == px.g && buffer[at + 2] == px.b
    ensures forall k :: 0 <= k < at ==> buffer[k] == old(buffer[k])
  {
    buffer[at] := px.r;
    buffer[at + 1] := px.g;
    buffer[at + 2] := px.b;
  }

  lemma NextPixel(p: Picture, y: int, x: nat)
    ensures RowBytes(p, y, x + 1) == RowBytes(p, y, x) + [p(y, x).r, p(y, x).g, p(y, x).b]
  {
  }

  lemma DrawnRow(p: Picture, w: nat, y: nat)
    ensures Bytes(p, w, y + 1) == Bytes(p, w, y) + RowBytes(p, y, w)
  {
  }

  method ResizeRow(pixels: seq<Byte>, ty: nat, w: nat, h: nat, size: nat, buffer: array<Byte>)
    requires |pixels| == h * (3 * w) && ty < size && w > 0 && h > 0
    requires 0 <= ty * (3 * size) <= ty * (3 * size) + 3 * size <= buffer.Length
    requires buffer[..ty * (3 * size)] == Bytes(Resampled(PictureOf(pixels, w), w, h, size), size, ty)
    modifies buffer
    ensures buffer[..ty * (3 * size) + 3 * size] == Bytes(Resampled(PictureOf(pixels, w), w, h, size), size, ty + 1)
  {
    hide PictureOf, Resampled, RowBytes, Bytes;
    ghost var p := Resampled(PictureOf(pixels, w), w, h, size);
    var start := ty * (3 * size);
    ghost var before := buffer[..start];
    ghost var row := RowBytes(p, ty, 0);
    var tx := 0;
    while tx < size
      invariant 0 <= tx <= size
      invariant row == RowBytes(p, ty, tx)
      invariant forall k :: 0 <= k < start ==> buffer[k] == before[k]
      invariant forall k :: 0 <= k < 3 * tx ==> buffer[start + k] == row[k]
    {
      var px := ResizePixel(pixels, ty, tx, w, h, size);
      NextPixel(p, ty, tx);
      PutPixel(buffer, start + 3 * tx, px);
      row := RowBytes(p, ty, tx + 1);
      tx := tx + 1;
    }
    DrawnRow(p, size, ty);
    assert buffer[..start + 3 * size] == before + row;
  }
}
