/** Flat RGB buffers, row after row and three bytes a pixel, and the pictures they hold. */
module Raster {
  import opened Prelude
  import opened PngFilter
  import opened PngPixels

  /** A picture: the colour at row `y`, column `x`. */
  type Picture = (int, int) -> Rgb

  function RowBytes(p: Picture, y: int, w: nat): (r: seq<Byte>)
    ensures |r| == 3 * w
  {
    if w == 0 then []
    else
      var px := p(y, w - 1);
      RowBytes(p, y, w - 1) + [px.r, px.g, px.b]
  }

  function Bytes(p: Picture, w: nat, h: nat): seq<Byte> {
    if h == 0 then [] else Bytes(p, w, h - 1) + RowBytes(p, h - 1, w)
  }

  lemma {:induction false} BytesLength(p: Picture, w: nat, h: nat)
    ensures |Bytes(p, w, h)| == h * (3 * w)
  {
    if h > 0 {
      BytesLength(p, w, h - 1);
      assert h * (3 * w) == (h - 1) * (3 * w) + 3 * w;
    }
  }

  /** Where a pixel's bytes start. */
  function Offset(y: int, x: int, w: int): int {
    (y * w + x) * 3
  }

  lemma OffsetFits(y: nat, x: nat, w: nat, h: nat)
    requires y < h && x < w
    ensures 0 <= Offset(y, x, w) && Offset(y, x, w) + 3 <= h * (3 * w)
    ensures Offset(y, x, w) == y * (3 * w) + 3 * x
  {
    RowFits(y, h, 3 * w);
    assert y * w * 3 == y * (3 * w);
  }

  /** The picture a flat buffer holds. */
  function PictureOf(pixels: seq<Byte>, w: int): Picture {
    (y, x) =>
      var at := Offset(y, x, w);
      if 0 <= at && at + 3 <= |pixels| then Rgb(pixels[at], pixels[at + 1], pixels[at + 2]) else Rgb(0, 0, 0)
  }

  lemma {:induction false} RowBytesAt(p: Picture, y: int, w: nat, x: nat)
    requires x < w
    ensures RowBytes(p, y, w)[3 * x..3 * x + 3] == [p(y, x).r, p(y, x).g, p(y, x).b]
  {
    if x < w - 1 {
      RowBytesAt(p, y, w - 1, x);
      assert RowBytes(p, y, w)[3 * x..3 * x + 3] == RowBytes(p, y, w - 1)[3 * x..3 * x + 3];
    }
  }

  lemma {:induction false} RowOfBytes(p: Picture, w: nat, h: nat, y: nat)
    requires y < h
    ensures 0 <= y * (3 * w) <= y * (3 * w) + 3 * w <= |Bytes(p, w, h)|
    ensures Bytes(p, w, h)[y * (3 * w)..y * (3 * w) + 3 * w] == RowBytes(p, y, w)
  {
    hide RowBytes;
    BytesLength(p, w, h);
    BytesLength(p, w, h - 1);
    RowFits(y, h, 3 * w);
    if y < h - 1 {
      RowOfBytes(p, w, h - 1, y);
      RowFits(y, h - 1, 3 * w);
    } else {
      assert (h - 1) * (3 * w) + 3 * w == h * (3 * w);
    }
  }

  /** Reading a picture's bytes gives the picture back. */
  lemma PictureOfBytes(p: Picture, w: nat, h: nat, y: nat, x: nat)
    requires y < h && x < w
    ensures PictureOf(Bytes(p, w, h), w)(y, x) == p(y, x)
  {
    hide Bytes, RowBytes, Offset;
    BytesLength(p, w, h);
    OffsetFits(y, x, w, h);
    RowOfBytes(p, w, h, y);
    RowBytesAt(p, y, w, x);
    var all, row, at := Bytes(p, w, h), RowBytes(p, y, w), Offset(y, x, w);
    assert all[y * (3 * w)..y * (3 * w) + 3 * w][3 * x..3 * x + 3] == all[at..at + 3];
    assert all[at..at + 3] == [p(y, x).r, p(y, x).g, p(y, x).b];
    assert all[at] == all[at..at + 3][0] && all[at + 1] == all[at..at + 3][1] && all[at + 2] == all[at..at + 3][2];
  }

  lemma {:induction false} SameRow(p: Picture, q: Picture, y: int, w: nat)
    requires forall x :: 0 <= x < w ==> p(y, x) == q(y, x)
    ensures RowBytes(p, y, w) == RowBytes(q, y, w)
  {
    if w > 0 {
      SameRow(p, q, y, w - 1);
    }
  }

  /** Pictures that agree everywhere have the same bytes. */
  lemma {:induction false} SamePicture(p: Picture, q: Picture, w: nat, h: nat)
    requires forall y, x :: 0 <= y < h && 0 <= x < w ==> p(y, x) == q(y, x)
    ensures Bytes(p, w, h) == Bytes(q, w, h)
  {
    if h > 0 {
      SamePicture(p, q, w, h - 1);
      SameRow(p, q, h - 1, w);
    }
  }

  lemma {:induction false} RowBytesOf(pixels: seq<Byte>, w: nat, h: nat, y: nat, n: nat)
    requires |pixels| == h * (3 * w) && y < h && n <= w
    ensures 0 <= y * (3 * w) && y * (3 * w) + 3 * n <= |pixels|
    ensures RowBytes(PictureOf(pixels, w), y, n) == pixels[y * (3 * w)..y * (3 * w) + 3 * n]
  {
    hide Offset;
    RowFits(y, h, 3 * w);
    if n > 0 {
      RowBytesOf(pixels, w, h, y, n - 1);
      OffsetFits(y, n - 1, w, h);
    }
  }

  lemma {:induction false} BytesUpTo(pixels: seq<Byte>, w: nat, h: nat, m: nat)
    requires |pixels| == h * (3 * w) && m <= h
    ensures 0 <= m * (3 * w) <= |pixels| && Bytes(PictureOf(pixels, w), w, m) == pixels[..m * (3 * w)]
  {
    hide PictureOf, RowBytes;
    TimesMonotone(3 * w, 0, m);
    TimesMonotone(3 * w, m, h);
    if m > 0 {
      BytesUpTo(pixels, w, h, m - 1);
      RowBytesOf(pixels, w, h, m - 1, w);
      assert m * (3 * w) == (m - 1) * (3 * w) + 3 * w;
    }
  }

  /** Writing out the picture a buffer holds gives the buffer back. */
  lemma BytesOfPicture(pixels: seq<Byte>, w: nat, h: nat)
    requires |pixels| == h * (3 * w)
    ensures Bytes(PictureOf(pixels, w), w, h) == pixels
  {
    hide Bytes, PictureOf;
    BytesUpTo(pixels, w, h, h);
    assert pixels[..h * (3 * w)] == pixels;
  }
}
