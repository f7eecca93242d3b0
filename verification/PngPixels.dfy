/**
 From unfiltered scanlines to flat RGB (toRgb in png.js): whatever the file stored, three
 bytes a pixel, with alpha composited onto white.
 */
module PngPixels {
  import opened Prelude
  import opened PngFilter

  datatype Layout = Layout(width: nat, colourType: Byte, bytesPerSample: nat,
                           palette: Option<seq<Byte>>, transparency: Option<seq<Byte>>)

  /** Channels per pixel; 0 for a colour type the format does not define. */
  function Channels(colourType: Byte): nat {
    match colourType
    case 0 => 1
    case 2 => 3
    case 3 => 1
    case 4 => 2
    case 6 => 4
    case _ => 0
  }

  ghost predicate Usable(l: Layout) {
    && l.width >= 1
    && Channels(l.colourType) > 0
    && (l.bytesPerSample == 1 || l.bytesPerSample == 2)
    && (l.colourType == 3 ==> l.palette.Some?)
  }

  function BytesPerPixel(l: Layout): nat {
    Channels(l.colourType) * l.bytesPerSample
  }

  function Stride(l: Layout): nat {
    l.width * BytesPerPixel(l)
  }

  lemma SampleFits(x: nat, i: nat, width: nat, channels: nat, bytes: nat)
    requires x < width && i < channels && bytes >= 1
    ensures 0 <= (x * channels + i) * bytes < width * (channels * bytes)
  {
    TimesMonotone(channels, x + 1, width);
    assert x * channels + i + 1 <= width * channels;
    TimesMonotone(bytes, x * channels + i + 1, width * channels);
    assert width * channels * bytes == width * (channels * bytes);
  }

  /** Sample `i` of pixel `x`: of a 16-bit sample, the high byte. */
  function Sample(row: seq<Byte>, x: nat, i: nat, l: Layout): Byte
    requires Usable(l) && |row| == Stride(l) && x < l.width && i < Channels(l.colourType)
  {
    SampleFits(x, i, l.width, Channels(l.colourType), l.bytesPerSample);
    row[(x * Channels(l.colourType) + i) * l.bytesPerSample]
  }

  /** A channel over white. `Math.round(n / 255)` is the floor of (2n + 255) / 510. */
  function OnWhite(v: Byte, alpha: Byte): Byte {
    if alpha == 255 then v
    else
      OnWhiteRange(v, alpha);
      (2 * (v * alpha + 255 * (255 - alpha)) + 255) / 510
  }

  lemma OnWhiteRange(v: Byte, alpha: Byte)
    ensures v * alpha + 255 * (255 - alpha) <= 255 * 255
    ensures v * 255 <= v * alpha + 255 * (255 - alpha)
  {
    TimesMonotone(alpha, v, 255);
    TimesMonotone(255 - alpha, v, 255);
    assert v * alpha + v * (255 - alpha) == v * 255;
  }

  /**
   Compositing gives the whole number nearest the blend, never darker than the colour;
   nothing is left of a fully transparent pixel but white, and nothing is done to an opaque
   one.
   */
  lemma OnWhiteIsNearest(v: Byte, alpha: Byte)
    ensures var n := v * alpha + 255 * (255 - alpha);
      2 * n - 255 <= 510 * OnWhite(v, alpha) <= 2 * n + 255
    ensures v <= OnWhite(v, alpha)
    ensures alpha == 0 ==> OnWhite(v, alpha) == 255
    ensures alpha == 255 ==> OnWhite(v, alpha) == v
  {
    OnWhiteRange(v, alpha);
    if alpha < 255 {
      DivisionParts(2 * (v * alpha + 255 * (255 - alpha)) + 255, 510);
    }
  }

  datatype Rgb = Rgb(r: Byte, g: Byte, b: Byte)

  function Over(r: Byte, g: Byte, b: Byte, alpha: Byte): Rgb {
    Rgb(OnWhite(r, alpha), OnWhite(g, alpha), OnWhite(b, alpha))
  }

  /** One pixel, or the palette index that has no entry. */
  function PixelOf(row: seq<Byte>, x: nat, l: Layout): Result<Rgb, Byte>
    requires Usable(l) && |row| == Stride(l) && x < l.width
  {
    if l.colourType == 3 then
      var index := Sample(row, x, 0, l);
      var palette := l.palette.value;
      if (index + 1) * 3 > |palette| then Err(index)
      else
        var alpha := if l.transparency.Some? && index < |l.transparency.value| then l.transparency.value[index] else 255;
        Ok(Over(palette[index * 3], palette[index * 3 + 1], palette[index * 3 + 2], alpha))
    else if l.colourType == 0 || l.colourType == 4 then
      var v := Sample(row, x, 0, l);
      Ok(Over(v, v, v, if l.colourType == 4 then Sample(row, x, 1, l) else 255))
    else
      Ok(Over(Sample(row, x, 0, l), Sample(row, x, 1, l), Sample(row, x, 2, l),
              if l.colourType == 6 then Sample(row, x, 3, l) else 255))
  }

  /**
   Where a sample lies: pixels of 1, 3, 1, 2 or 4 samples by colour type, each of one byte, or of
   two of which the first, the more significant, is taken.
   */
  lemma SamplesLieInOrder(row: seq<Byte>, x: nat, i: nat, l: Layout)
    requires Usable(l) && |row| == Stride(l) && x < l.width && i < Channels(l.colourType)
    ensures var n := match l.colourType case 2 => 3 case 4 => 2 case 6 => 4 case _ => 1;
      && Channels(l.colourType) == n && |row| == l.width * (n * l.bytesPerSample)
      && 0 <= x * n + i < l.width * n
      && (l.bytesPerSample == 1 ==> x * n + i < |row| && Sample(row, x, i, l) == row[x * n + i])
      && (l.bytesPerSample == 2 ==> 2 * (x * n + i) < |row| && Sample(row, x, i, l) == row[2 * (x * n + i)])
  {
    SampleFits(x, i, l.width, Channels(l.colourType), l.bytesPerSample);
    SampleFits(x, i, l.width, Channels(l.colourType), 1);
  }

  /** A pixel has no colour exactly when its palette index has no entry. */
  lemma NoColourPastPalette(row: seq<Byte>, x: nat, l: Layout, index: Byte)
    requires Usable(l) && |row| == Stride(l) && x < l.width
    ensures PixelOf(row, x, l) == Err(index)
      <==> l.colourType == 3 && index == Sample(row, x, 0, l) && |l.palette.value| < 3 * (index as int + 1)
  {
    hide Sample, OnWhite;
  }

  /** The samples a colour is stored as under each colour type: none where it cannot be. */
  function SamplesFor(l: Layout, p: Rgb, alpha: Byte): (samples: seq<Byte>) {
    match l.colourType
    case 0 => if p.r == p.g == p.b && alpha == 255 then [p.r] else []
    case 2 => if alpha == 255 then [p.r, p.g, p.b] else []
    case 4 => if p.r == p.g == p.b then [p.r, alpha] else []
    case 6 => [p.r, p.g, p.b, alpha]
    case _ => []
  }

  predicate PaletteHolds(l: Layout, index: Byte, p: Rgb, alpha: Byte) {
    && l.palette.Some? && 3 * index as int + 3 <= |l.palette.value|
    && l.palette.value[3 * index as int..3 * index as int + 3] == [p.r, p.g, p.b]
    && alpha == (if l.transparency.Some? && index < |l.transparency.value| then l.transparency.value[index] else 255)
  }

  /** However a colour and its alpha are stored, the pixel read is that colour over white. */
  lemma StoredColourIsRead(row: seq<Byte>, x: nat, l: Layout, p: Rgb, alpha: Byte)
    requires Usable(l) && |row| == Stride(l) && x < l.width
    requires if l.colourType == 3 then PaletteHolds(l, Sample(row, x, 0, l), p, alpha)
      else |SamplesFor(l, p, alpha)| == Channels(l.colourType) &&
           forall i :: 0 <= i < Channels(l.colourType) ==> Sample(row, x, i, l) == SamplesFor(l, p, alpha)[i]
    ensures PixelOf(row, x, l) == Ok(Over(p.r, p.g, p.b, alpha))
  {
    hide Sample, OnWhite;
    if l.colourType == 3 {
      var index := Sample(row, x, 0, l);
      var at: nat := 3 * index as int;
      var entry := l.palette.value[at..at + 3];
      assert l.palette.value[at] == entry[0] && l.palette.value[at + 1] == entry[1] && l.palette.value[at + 2] == entry[2];
    }
  }

  /** The first `n` pixels of a row, flat, unless one of them has no colour. */
  function RgbRow(row: seq<Byte>, l: Layout, n: nat): (r: Result<seq<Byte>, Byte>)
    requires Usable(l) && |row| == Stride(l) && n <= l.width
    ensures r.Ok? ==> |r.value| == 3 * n
  {
    if n == 0 then Ok([])
    else
      match RgbRow(row, l, n - 1)
      case Err(index) => Err(index)
      case Ok(before) =>
        match PixelOf(row, n - 1, l)
        case Err(index) => Err(index)
        case Ok(p) => Ok(before + [p.r, p.g, p.b])
  }

  function RgbImage(rows: seq<seq<Byte>>, l: Layout): (r: Result<seq<Byte>, Byte>)
    requires Usable(l) && Rows(rows, Stride(l))
  {
    if rows == [] then Ok([])
    else
      var n := |rows| - 1;
      match RgbImage(rows[..n], l)
      case Err(index) => Err(index)
      case Ok(before) =>
        match RgbRow(rows[n], l, l.width)
        case Err(index) => Err(index)
        case Ok(row) => Ok(before + row)
  }

  lemma {:induction false} RgbImageLength(rows: seq<seq<Byte>>, l: Layout)
    requires Usable(l) && Rows(rows, Stride(l)) && RgbImage(rows, l).Ok?
    ensures |RgbImage(rows, l).value| == |rows| * (3 * l.width)
  {
    if rows != [] {
      RgbImageLength(rows[..|rows| - 1], l);
      assert |rows| * (3 * l.width) == (|rows| - 1) * (3 * l.width) + 3 * l.width;
    }
  }

  // ------------------------------------------------------- truecolour, unchanged

  lemma {:induction false} TruecolourRow(row: seq<Byte>, l: Layout, n: nat)
    requires Usable(l) && |row| == Stride(l) && n <= l.width && l.colourType == 2 && l.bytesPerSample == 1
    ensures 3 * n <= |row| && RgbRow(row, l, n) == Ok(row[..3 * n])
  {
    if n > 0 {
      TruecolourRow(row, l, n - 1);
      assert row[..3 * n] == row[..3 * (n - 1)] + [row[3 * (n - 1)], row[3 * (n - 1) + 1], row[3 * (n - 1) + 2]];
    }
  }

  /** An 8-bit truecolour image is its scanlines. */
  lemma {:induction false} TruecolourImage(rows: seq<seq<Byte>>, l: Layout)
    requires Usable(l) && Rows(rows, Stride(l)) && l.colourType == 2 && l.bytesPerSample == 1
    ensures RgbImage(rows, l) == Ok(Flat(rows))
  {
    if rows != [] {
      var n := |rows| - 1;
      TruecolourImage(rows[..n], l);
      TruecolourRow(rows[n], l, l.width);
      assert rows[n][..3 * l.width] == rows[n];
    }
  }

  // ---------------------------------------------------------------- the buffers

  method PixelInto(row: seq<Byte>, x: nat, l: Layout, rgb: array<Byte>, out: nat) returns (bad: Option<Byte>)
    requires Usable(l) && |row| == Stride(l) && x < l.width && out + 3 <= rgb.Length
    modifies rgb
    ensures forall k :: 0 <= k < out ==> rgb[k] == old(rgb[k])
    ensures match PixelOf(row, x, l)
      case Err(index) => bad == Some(index)
      case Ok(p) => bad == None && rgb[out..out + 3] == [p.r, p.g, p.b]
  {
    hide Sample, OnWhite;
    var r, g, b, alpha := 0, 0, 0, 255;
    if l.colourType == 3 {
      var index := Sample(row, x, 0, l);
      if (index + 1) * 3 > |l.palette.value| {
        return Some(index);
      }
      r, g, b := l.palette.value[index * 3], l.palette.value[index * 3 + 1], l.palette.value[index * 3 + 2];
      if l.transparency.Some? && index < |l.transparency.value| {
        alpha := l.transparency.value[index];
      }
    } else if l.colourType == 0 || l.colourType == 4 {
      r := Sample(row, x, 0, l);
      g, b := r, r;
      if l.colourType == 4 {
        alpha := Sample(row, x, 1, l);
      }
    } else {
      r, g, b := Sample(row, x, 0, l), Sample(row, x, 1, l), Sample(row, x, 2, l);
      if l.colourType == 6 {
        alpha := Sample(row, x, 3, l);
      }
    }
    rgb[out] := OnWhite(r, alpha);
    rgb[out + 1] := OnWhite(g, alpha);
    rgb[out + 2] := OnWhite(b, alpha);
    return None;
  }

  method RowInto(row: seq<Byte>, l: Layout, rgb: array<Byte>, start: nat) returns (bad: Option<Byte>)
    requires Usable(l) && |row| == Stride(l) && start + 3 * l.width <= rgb.Length
    modifies rgb
    ensures forall k :: 0 <= k < start ==> rgb[k] == old(rgb[k])
    ensures match RgbRow(row, l, l.width)
      case Err(index) => bad == Some(index)
      case Ok(written) => bad == None && rgb[start..start + 3 * l.width] == written
  {
    hide PixelOf;
    var x := 0;
    ghost var written: seq<Byte> := [];
    while x < l.width
      invariant 0 <= x <= l.width && |written| == 3 * x
      invariant RgbRow(row, l, x) == Ok(written)
      invariant forall k :: 0 <= k < start ==> rgb[k] == old(rgb[k])
      invariant forall k :: 0 <= k < 3 * x ==> rgb[start + k] == written[k]
    {
      var out := start + 3 * x;
      bad := PixelInto(row, x, l, rgb, out);
      if bad.Some? {
        assert RgbRow(row, l, x + 1) == Err(bad.value);
        StaysBad(row, l, x + 1, l.width);
        return;
      }
      var p := PixelOf(row, x, l).value;
      assert rgb[out] == rgb[out..out + 3][0] && rgb[out + 1] == rgb[out..out + 3][1] && rgb[out + 2] == rgb[out..out + 3][2];
      written := written + [p.r, p.g, p.b];
      x := x + 1;
    }
    assert rgb[start..start + 3 * l.width] == written;
    return None;
  }

  lemma {:induction false} StaysBad(row: seq<Byte>, l: Layout, n: nat, m: nat)
    requires Usable(l) && |row| == Stride(l) && n <= m <= l.width
    requires RgbRow(row, l, n).Err?
    ensures RgbRow(row, l, m) == RgbRow(row, l, n)
  {
    if n < m {
      StaysBad(row, l, n, m - 1);
    }
  }

  lemma {:induction false} ImageStaysBad(rows: seq<seq<Byte>>, l: Layout, n: nat)
    requires Usable(l) && Rows(rows, Stride(l)) && n <= |rows|
    requires RgbImage(rows[..n], l).Err?
    ensures RgbImage(rows, l) == RgbImage(rows[..n], l)
  {
    if n < |rows| {
      var m := |rows| - 1;
      assert rows[..m][..n] == rows[..n];
      ImageStaysBad(rows[..m], l, n);
    } else {
      assert rows[..n] == rows;
    }
  }

  /** Writes row `y` after the rows before it. */
  method NextRowInto(scanlines: seq<Byte>, y: nat, l: Layout, rgb: array<Byte>, ghost rows: seq<seq<Byte>>)
    returns (bad: Option<Byte>)
    requires Usable(l) && Rows(rows, Stride(l)) && y < |rows| && scanlines == Flat(rows)
    requires 0 <= y * (3 * l.width) <= y * (3 * l.width) + 3 * l.width <= rgb.Length
    requires RgbImage(rows[..y], l) == Ok(rgb[..y * (3 * l.width)])
    modifies rgb
    ensures match RgbImage(rows[..y + 1], l)
      case Err(index) => bad == Some(index)
      case Ok(written) => bad == None && rgb[..y * (3 * l.width) + 3 * l.width] == written
  {
    hide Flat, RgbRow, RowAt, RgbImage, Stride;
    RowAtOfFlat(rows, y, Stride(l));
    var start := y * (3 * l.width);
    ghost var before := rgb[..start];
    OneMoreImageRow(rows, l, y);
    bad := RowInto(RowAt(scanlines, y, Stride(l)), l, rgb, start);
    assert rgb[..start + 3 * l.width] == before + rgb[start..start + 3 * l.width];
  }

  /** Expands a buffer of unfiltered scanlines, row by row and pixel by pixel. */
  method ToRgb(scanlines: seq<Byte>, height: nat, l: Layout, ghost rows: seq<seq<Byte>>)
    returns (r: Result<seq<Byte>, Byte>)
    requires Usable(l) && Rows(rows, Stride(l)) && |rows| == height && scanlines == Flat(rows)
    ensures r == RgbImage(rows, l)
  {
    hide Flat, RgbRow, RgbImage, Stride;
    TimesMonotone(3 * l.width, 0, height);
    var rgb := new Byte[height * (3 * l.width)];
    var y := 0;
    NoImageRows(rows, l);
    while y < height
      invariant 0 <= y <= height && 0 <= y * (3 * l.width) <= rgb.Length
      invariant RgbImage(rows[..y], l) == Ok(rgb[..y * (3 * l.width)])
    {
      RowFits(y, height, 3 * l.width);
      var bad := NextRowInto(scanlines, y, l, rgb, rows);
      if bad.Some? {
        ImageStaysBad(rows, l, y + 1);
        return Err(bad.value);
      }
      assert (y + 1) * (3 * l.width) == y * (3 * l.width) + 3 * l.width;
      y := y + 1;
    }
    assert rows[..y] == rows;
    assert rgb[..y * (3 * l.width)] == rgb[..];
    return Ok(rgb[..]);
  }

  lemma NoImageRows(rows: seq<seq<Byte>>, l: Layout)
    requires Usable(l)
    ensures RgbImage(rows[..0], l) == Ok([])
  {
  }

  lemma OneMoreImageRow(rows: seq<seq<Byte>>, l: Layout, y: nat)
    requires Usable(l) && Rows(rows, Stride(l)) && y < |rows|
    requires RgbImage(rows[..y], l).Ok?
    ensures RgbImage(rows[..y + 1], l) ==
      match RgbRow(rows[y], l, l.width)
      case Err(index) => Err(index)
      case Ok(row) => Ok(RgbImage(rows[..y], l).value + row)
  {
    hide RgbRow;
    assert rows[..y + 1][..y] == rows[..y];
  }
}
