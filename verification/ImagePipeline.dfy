/**
 From a PNG file to the nested pixels the model server takes (centreCrop, toInstance and
 imageToInstance in png.js).
 */
module ImagePipeline {
  import opened Prelude
  import opened PngFilter
  import opened PngPixels
  import opened PngContainer
  import opened Raster
  import opened Coverage
  import opened Resample

  // ------------------------------------------------------------------ the crop

  /** The same picture seen from a corner further in. */
  function Shifted(p: Picture, top: int, left: int): Picture {
    (y, x) => p(top + y, left + x)
  }

  /** The space left over on one side when `part` is centred in `whole`. */
  function Margin(whole: nat, part: nat): (m: nat)
    requires part <= whole
    ensures m <= whole - part
  {
    (whole - part) / 2
  }

  function Centred(p: Picture, w: nat, h: nat): Picture {
    var side := Min(w, h);
    Shifted(p, Margin(h, side), Margin(w, side))
  }

  /** The crop is centred to within a pixel, and full along the shorter axis. */
  lemma MarginsAreEven(w: nat, h: nat)
    ensures var side := Min(w, h);
      && 0 <= (w - side - Margin(w, side)) - Margin(w, side) <= 1
      && 0 <= (h - side - Margin(h, side)) - Margin(h, side) <= 1
      && (Margin(w, side) == 0 || Margin(h, side) == 0)
  {
  }

  lemma {:induction false} ShiftedRow(pixels: seq<Byte>, w: nat, h: nat, top: nat, left: nat, y: nat, n: nat)
    requires |pixels| == h * (3 * w) && top + y < h && left + n <= w
    ensures var from := (top + y) * (3 * w) + 3 * left;
      && 0 <= from <= from + 3 * n <= |pixels|
      && RowBytes(Shifted(PictureOf(pixels, w), top, left), y, n) == pixels[from..from + 3 * n]
  {
    hide Offset;
    RowFits(top + y, h, 3 * w);
    if n > 0 {
      ShiftedRow(pixels, w, h, top, left, y, n - 1);
      OffsetFits(top + y, left + n - 1, w, h);
    }
  }

  method CopyRow(pixels: seq<Byte>, from: nat, buffer: array<Byte>, at: nat, n: nat)
    requires from + n <= |pixels| && at + n <= buffer.Length
    modifies buffer
    ensures buffer[..at + n] == old(buffer[..at]) + pixels[from..from + n]
  {
    forall k | 0 <= k < n {
      buffer[at + k] := pixels[from + k];
    }
  }

  /** The largest centred square. */
  method CentreCrop(pixels: seq<Byte>, w: nat, h: nat) returns (out: seq<Byte>)
    requires |pixels| == h * (3 * w)
    ensures out == Bytes(Centred(PictureOf(pixels, w), w, h), Min(w, h), Min(w, h))
  {
    hide PictureOf, RowBytes, Bytes, Shifted;
    var side := Min(w, h);
    ghost var p := Centred(PictureOf(pixels, w), w, h);
    if side == w && side == h {
      NoShift(pixels, w, h);
      return pixels;
    }
    var left, top := Margin(w, side), Margin(h, side);
    TimesMonotone(3 * side, 0, side);
    var buffer := new Byte[side * (3 * side)];
    NoRowsDrawn(p, side);
    var y := 0;
    while y < side
      invariant 0 <= y <= side && 0 <= y * (3 * side) <= buffer.Length
      invariant buffer[..y * (3 * side)] == Bytes(p, side, y)
    {
      RowFits(y, side, 3 * side);
      ShiftedRow(pixels, w, h, top, left, y, side);
      DrawnRow(p, side, y);
      assert (y + 1) * (3 * side) == y * (3 * side) + 3 * side;
      var from := (top + y) * (3 * w) + 3 * left;
      CopyRow(pixels, from, buffer, y * (3 * side), 3 * side);
      y := y + 1;
    }
    assert buffer[..] == buffer[..y * (3 * side)];
    return buffer[..];
  }

  lemma NoRowsDrawn(p: Picture, w: nat)
    ensures Bytes(p, w, 0) == []
  {
  }

  /** A square is not cropped. */
  lemma NoShift(pixels: seq<Byte>, w: nat, h: nat)
    requires |pixels| == h * (3 * w) && w == h
    ensures Bytes(Centred(PictureOf(pixels, w), w, h), w, h) == pixels
  {
    hide PictureOf, Bytes;
    SamePicture(Centred(PictureOf(pixels, w), w, h), PictureOf(pixels, w), w, h);
    BytesOfPicture(pixels, w, h);
  }

  // --------------------------------------------------------------- the instance

  type Instance = seq<seq<seq<Byte>>>

  function InstanceRow(p: Picture, y: int, w: nat): seq<seq<Byte>> {
    seq(w, x => [p(y, x).r, p(y, x).g, p(y, x).b])
  }

  function InstanceOf(p: Picture, w: nat, h: nat): Instance {
    seq(h, y => InstanceRow(p, y, w))
  }

  method ToInstance(pixels: seq<Byte>, w: nat, h: nat) returns (rows: Instance)
    requires |pixels| == h * (3 * w)
    ensures rows == InstanceOf(PictureOf(pixels, w), w, h)
  {
    hide PictureOf, InstanceOf;
    ghost var p := PictureOf(pixels, w);
    rows := [];
    InstanceRows(p, w, 0);
    var y := 0;
    while y < h
      invariant 0 <= y <= h
      invariant rows == InstanceOf(p, w, y)
    {
      var row := [];
      var x := 0;
      while x < w
        invariant 0 <= x <= w
        invariant row == InstanceRow(p, y, x)
      {
        var px := ReadPixel(pixels, w, h, y, x);
        row := row + [[px.r, px.g, px.b]];
        x := x + 1;
      }
      InstanceRows(p, w, y);
      rows := rows + [row];
      y := y + 1;
    }
  }

  lemma InstanceRows(p: Picture, w: nat, y: nat)
    ensures InstanceOf(p, w, 0) == [] && InstanceOf(p, w, y + 1) == InstanceOf(p, w, y) + [InstanceRow(p, y, w)]
  {
    hide InstanceRow;
  }

  /** What reaches the model from a decoded image: its centred square, averaged down. */
  function Seen(image: Image, size: nat): Picture
    requires image.width > 0 && image.height > 0
  {
    var side := Min(image.width, image.height);
    Resampled(PictureOf(Bytes(Centred(PictureOf(image.pixels, image.width), image.width, image.height), side, side), side),
              side, side, size)
  }

  /** A decoded image has pixels, all of them. */
  lemma DecodedDimensions(file: seq<Byte>, inflate: seq<Byte> -> Option<seq<Byte>>)
    requires Decode(file, inflate).Ok?
    ensures var image := Decode(file, inflate).value;
      image.width > 0 && image.height > 0 && |image.pixels| == image.height * (3 * image.width)
  {
    hide Walk, Pixels, Supported, Refusal;
    DecodedSize(file, inflate);
  }

  method ImageToInstance(file: seq<Byte>, size: nat, inflate: seq<Byte> -> Option<seq<Byte>>)
    returns (r: Result<Instance, PngError>)
    ensures Decode(file, inflate).Err? ==> r == Err(Decode(file, inflate).error)
    ensures Decode(file, inflate).Ok? ==>
      var image := Decode(file, inflate).value;
      image.width > 0 && image.height > 0 && r == Ok(InstanceOf(Seen(image, size), size, size))
  {
    hide Decode, InstanceOf, Bytes, PictureOf, Centred, Resampled;
    var decoded := DecodePng(file, inflate);
    if decoded.Err? {
      return Err(decoded.error);
    }
    var image := decoded.value;
    DecodedDimensions(file, inflate);
    var cropped := CentreCrop(image.pixels, image.width, image.height);
    var side := Min(image.width, image.height);
    BytesLength(Centred(PictureOf(image.pixels, image.width), image.width, image.height), side, side);
    var resized := ResizeTo(cropped, side, side, size);
    BytesLength(Seen(image, size), size, size);
    var instance := ToInstance(resized, size, size);
    SeenAgain(Seen(image, size), size);
    return Ok(instance);
  }

  lemma SeenAgain(p: Picture, size: nat)
    ensures InstanceOf(PictureOf(Bytes(p, size, size), size), size, size) == InstanceOf(p, size, size)
  {
    hide Bytes, PictureOf;
    var q := PictureOf(Bytes(p, size, size), size);
    forall y | 0 <= y < size ensures InstanceRow(q, y, size) == InstanceRow(p, y, size) {
      forall x | 0 <= x < size ensures q(y, x) == p(y, x) {
        PictureOfBytes(p, size, size, y, x);
      }
    }
  }

  // --------------------------------------------------------------------- meaning

  ghost predicate Within(c: Channel, w: nat, h: nat, lo: int, hi: int) {
    forall y, x :: 0 <= y < h && 0 <= x < w ==> lo <= c(y, x) <= hi
  }

  /** Bounds on a channel carry over to a picture that agrees, and to what is averaged from it. */
  lemma AverageOfBounded(c: Channel, d: Channel, ty: nat, tx: nat, w: nat, h: nat, size: nat, lo: int, hi: int)
    requires w > 0 && h > 0 && ty < size && tx < size && Within(c, w, h, lo, hi)
    requires forall y, x :: 0 <= y < h && 0 <= x < w ==> d(y, x) == c(y, x)
    ensures lo <= Averaged(d, ty, tx, w, h, size) <= hi
  {
    hide Averaged, Weight;
    AverageWithin(d, ty, tx, w, h, size, lo, hi);
  }

  /** Nothing reaches the model that the centred square does not hold: no channel overshoots. */
  lemma SeenWithinSquare(image: Image, size: nat, ty: nat, tx: nat, lo: Rgb, hi: Rgb)
    requires image.width > 0 && image.height > 0 && ty < size && tx < size
    requires var p, side := Centred(PictureOf(image.pixels, image.width), image.width, image.height),
                            Min(image.width, image.height);
      && Within(Red(p), side, side, lo.r, hi.r)
      && Within(Green(p), side, side, lo.g, hi.g)
      && Within(Blue(p), side, side, lo.b, hi.b)
    ensures var px := Seen(image, size)(ty, tx);
      && lo.r <= px.r <= hi.r && lo.g <= px.g <= hi.g && lo.b <= px.b <= hi.b
  {
    hide Bytes, PictureOf, Centred, Resampled, Weight, Averaged;
    var p, side := Centred(PictureOf(image.pixels, image.width), image.width, image.height),
                   Min(image.width, image.height);
    var q := PictureOf(Bytes(p, side, side), side);
    forall y, x | 0 <= y < side && 0 <= x < side ensures q(y, x) == p(y, x) {
      PictureOfBytes(p, side, side, y, x);
    }
    AverageFitsByte(q, ty, tx, side, side, size);
    AverageOfBounded(Red(p), Red(q), ty, tx, side, side, size, lo.r, hi.r);
    AverageOfBounded(Green(p), Green(q), ty, tx, side, side, size, lo.g, hi.g);
    AverageOfBounded(Blue(p), Blue(q), ty, tx, side, side, size, lo.b, hi.b);
  }

  lemma SquareSeenUnchanged(image: Image, size: nat)
    requires image.width == image.height == size > 0 && |image.pixels| == size * (3 * size)
    ensures Bytes(Seen(image, size), size, size) == image.pixels
  {
    hide Bytes, PictureOf, Centred, Resampled;
    NoShift(image.pixels, size, size);
    ResizedSame(image.pixels, size);
  }

  /**
   End to end: square RGB of the size the model takes, written as a PNG with any line filters,
   reaches the model byte for byte.
   */
  lemma EncodedSquareArrives(rgb: seq<Byte>, size: nat, filters: seq<Byte>, deflate: seq<Byte> -> seq<Byte>,
                             inflate: seq<Byte> -> Option<seq<Byte>>, crc: seq<Byte> -> nat)
    requires |rgb| == size * (3 * size) && 0 < size < WORD
    requires |filters| == size && forall y :: 0 <= y < |filters| ==> filters[y] <= 4
    requires forall raw :: inflate(deflate(raw)) == Some(raw)
    requires |deflate(Stored(FilteredLines(rgb, size, size, filters)))| < WORD
    ensures var cs := PngChunks(FilteredLines(rgb, size, size, filters), size, size, deflate, crc);
      && AllLayable(cs)
      && Decode(FileOf(cs, []), inflate).Ok?
      && var image := Decode(FileOf(cs, []), inflate).value;
         image.width > 0 && image.height > 0
         && InstanceOf(Seen(image, size), size, size) == InstanceOf(PictureOf(rgb, size), size, size)
  {
    hide Decode, FileOf, PngChunks, FilteredLines, Stored, Bytes, Seen, InstanceOf;
    DecodeUndoesFilteredEncode(rgb, size, size, filters, deflate, inflate, crc);
    var image := Image(size, size, rgb, false, 2, 8);
    SquareSeenUnchanged(image, size);
    SeenAgain(Seen(image, size), size);
  }
}
