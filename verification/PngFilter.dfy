/**
 Undoing the filters of a PNG's scanlines (png.js), sections 6.2 to 6.6 of RFC 2083.

 Each scanline is stored as differences from a prediction made out of bytes already
 reconstructed: the one to the left, the one above, and the one above-left.
 */
module PngFilter {
  import opened Prelude

  type Byte = x: int | 0 <= x < 256

  // ------------------------------------------------------------- the predictors

  function Abs(x: int): (r: int)
    ensures r >= 0 && (r == x || r == -x)
  {
    if x < 0 then -x else x
  }

  /** Whichever of left, above and above-left is nearest to left + above - above-left. */
  function Paeth(a: Byte, b: Byte, c: Byte): Byte {
    var p := a + b - c;
    var pa, pb, pc := Abs(p - a), Abs(p - b), Abs(p - c);
    if pa <= pb && pa <= pc then a else if pb <= pc then b else c
  }

  /** Of three values, the first that is as near as any to the sum of two less the third. */
  ghost predicate Nearest(v: int, a: int, b: int, c: int) {
    var p := a + b - c;
    && (v == a || v == b || v == c)
    && Abs(p - v) <= Abs(p - a) && Abs(p - v) <= Abs(p - b) && Abs(p - v) <= Abs(p - c)
    && (v != a ==> Abs(p - v) < Abs(p - a))
    && (v != a && v != b ==> Abs(p - v) < Abs(p - b))
  }

  /** The predictor is a nearest neighbour, ties going to left, then above, then above-left. */
  lemma PaethIsNearest(a: Byte, b: Byte, c: Byte)
    ensures Nearest(Paeth(a, b, c), a, b, c)
  {
  }

  /** What filter `f` predicts; the five filters are None, Sub, Up, Average and Paeth. */
  function Predict(f: Byte, a: Byte, b: Byte, c: Byte): Byte {
    match f
    case 1 => a
    case 2 => b
    case 3 => (a + b) / 2
    case 4 => Paeth(a, b, c)
    case _ => 0
  }

  /** The byte `bpp` places back in a row, or 0 before its start. */
  function Back(row: seq<Byte>, x: nat, bpp: nat): Byte
    requires x <= |row| && bpp >= 1
  {
    if x >= bpp then row[x - bpp] else 0
  }

  function PredictAt(f: Byte, row: seq<Byte>, above: seq<Byte>, x: nat, bpp: nat): Byte
    requires x <= |row| && x < |above| && bpp >= 1
  {
    Predict(f, Back(row, x, bpp), above[x], Back(above, x, bpp))
  }

  // ------------------------------------------------------------------- one line

  /** A line reconstructed from its differences and the line above. */
  function UnfilterLine(f: Byte, line: seq<Byte>, above: seq<Byte>, bpp: nat): (row: seq<Byte>)
    requires |above| >= |line| && bpp >= 1
    ensures |row| == |line|
  {
    if line == [] then []
    else
      var n := |line| - 1;
      var row := UnfilterLine(f, line[..n], above, bpp);
      row + [(line[n] + PredictAt(f, row, above, n, bpp)) % 256]
  }

  /** A line filtered: the differences from what was predicted. */
  function FilterLine(f: Byte, row: seq<Byte>, above: seq<Byte>, bpp: nat): (line: seq<Byte>)
    requires |above| >= |row| && bpp >= 1
    ensures |line| == |row|
    ensures forall x :: 0 <= x < |row| ==> line[x] == (row[x] - PredictAt(f, row, above, x, bpp)) % 256
  {
    seq(|row|, x requires 0 <= x < |row| => (row[x] - PredictAt(f, row, above, x, bpp)) % 256)
  }

  /** What is predicted at a place depends only on the bytes before it. */
  lemma PredictPrefix(f: Byte, row: seq<Byte>, above: seq<Byte>, x: nat, n: nat, bpp: nat)
    requires x <= n <= |row| && x < |above| && bpp >= 1
    ensures PredictAt(f, row[..n], above, x, bpp) == PredictAt(f, row, above, x, bpp)
  {
    hide Predict;
  }

  lemma FilterPrefix(f: Byte, row: seq<Byte>, above: seq<Byte>, n: nat, bpp: nat)
    requires n <= |row| <= |above| && bpp >= 1
    ensures FilterLine(f, row, above, bpp)[..n] == FilterLine(f, row[..n], above, bpp)
  {
    hide PredictAt, FilterLine;
    forall x | 0 <= x < n
      ensures PredictAt(f, row[..n], above, x, bpp) == PredictAt(f, row, above, x, bpp)
    {
      PredictPrefix(f, row, above, x, n, bpp);
    }
  }

  lemma DifferenceUndone(v: Byte, p: Byte)
    ensures ((v - p) % 256 + p) % 256 == v
    ensures ((v + p) % 256 - p) % 256 == v
  {
  }

  lemma {:induction false} UnfilterUndoesFilterLine(f: Byte, row: seq<Byte>, above: seq<Byte>, bpp: nat)
    requires |above| >= |row| && bpp >= 1
    ensures UnfilterLine(f, FilterLine(f, row, above, bpp), above, bpp) == row
  {
    hide PredictAt, FilterLine;
    if row != [] {
      var n := |row| - 1;
      UnfilterUndoesFilterLine(f, row[..n], above, bpp);
      FilterPrefix(f, row, above, n, bpp);
      PredictPrefix(f, row, above, n, n, bpp);
      DifferenceUndone(row[n], PredictAt(f, row, above, n, bpp));
      assert row == row[..n] + [row[n]];
    }
  }

  lemma {:induction false} FilterUndoesUnfilterLine(f: Byte, line: seq<Byte>, above: seq<Byte>, bpp: nat)
    requires |above| >= |line| && bpp >= 1
    ensures FilterLine(f, UnfilterLine(f, line, above, bpp), above, bpp) == line
  {
    hide PredictAt, FilterLine;
    if line != [] {
      var n := |line| - 1;
      var row, short := UnfilterLine(f, line, above, bpp), UnfilterLine(f, line[..n], above, bpp);
      FilterUndoesUnfilterLine(f, line[..n], above, bpp);
      assert row[..n] == short;
      FilterPrefix(f, row, above, n, bpp);
      PredictPrefix(f, row, above, n, n, bpp);
      DifferenceUndone(line[n], PredictAt(f, short, above, n, bpp));
      var again := FilterLine(f, row, above, bpp);
      assert again == again[..n] + [again[n]];
      assert line == line[..n] + [line[n]];
    }
  }

  // --------------------------------------------------------- the filters, outright

  /** A byte rebuilt is what was stored and what was predicted out of the row so far. */
  lemma {:induction false} RebuiltByte(f: Byte, line: seq<Byte>, above: seq<Byte>, bpp: nat, x: nat)
    requires |above| >= |line| && bpp >= 1 && x < |line|
    ensures var row := UnfilterLine(f, line, above, bpp);
      row[x] == (line[x] + PredictAt(f, row, above, x, bpp)) % 256
  {
    hide PredictAt;
    var n := |line| - 1;
    var row, short := UnfilterLine(f, line, above, bpp), UnfilterLine(f, line[..n], above, bpp);
    assert row[..n] == short;
    if x < n {
      RebuiltByte(f, line[..n], above, bpp, x);
      PredictPrefix(f, row, above, x, n, bpp);
    } else {
      PredictPrefix(f, row, above, n, n, bpp);
    }
  }

  /**
   The five filters: a byte is rebuilt from the one stored, modulo 256, by adding nothing; the byte
   to its left; the byte above; the floor of half of those two; or whichever of those and the byte
   above-left is nearest to left + above - above-left, in that order where two are as near. Before
   the start of a line there are zeros.
   */
  lemma FiltersMean(line: seq<Byte>, above: seq<Byte>, bpp: nat, x: nat, f: Byte)
    requires |above| >= |line| && bpp >= 1 && x < |line|
    ensures var row := UnfilterLine(f, line, above, bpp);
      var left := if x < bpp then 0 else row[x - bpp] as int;
      var aboveLeft := if x < bpp then 0 else above[x - bpp] as int;
      && (f == 0 ==> row[x] == line[x])
      && (f == 1 ==> row[x] == (line[x] + left) % 256)
      && (f == 2 ==> row[x] == (line[x] as int + above[x]) % 256)
      && (f == 3 ==> row[x] == (line[x] + (left + above[x]) / 2) % 256)
      && (f == 4 ==> exists near: int :: row[x] == (line[x] + near) % 256 && Nearest(near, left, above[x], aboveLeft))
  {
    RebuiltByte(f, line, above, bpp, x);
    var row := UnfilterLine(f, line, above, bpp);
    hide UnfilterLine;
    if f == 4 {
      var a, b, c := Back(row, x, bpp), above[x], Back(above, x, bpp);
      PaethIsNearest(a, b, c);
    }
  }

  // ------------------------------------------------------------ the whole image

  /** A stored scanline: its filter byte, and as many bytes as a row has. */
  datatype Scanline = Scanline(filter: Byte, bytes: seq<Byte>)

  ghost predicate Lines(lines: seq<Scanline>, stride: nat) {
    forall y :: 0 <= y < |lines| ==> |lines[y].bytes| == stride
  }

  ghost predicate Rows(rows: seq<seq<Byte>>, stride: nat) {
    forall y :: 0 <= y < |rows| ==> |rows[y]| == stride
  }

  function Zeros(n: nat): (z: seq<Byte>)
    ensures |z| == n
  {
    seq(n, i => 0)
  }

  /** The row above row `y`; above the first there are zeros. */
  function Above(rows: seq<seq<Byte>>, y: nat, stride: nat): (r: seq<Byte>)
    requires y <= |rows| && Rows(rows, stride)
    ensures |r| == stride
  {
    if y == 0 then Zeros(stride) else rows[y - 1]
  }

  /** Row `y` of an image read from stored lines: what its line says, given the row above it. */
  predicate RowFollows(rows: seq<seq<Byte>>, lines: seq<Scanline>, y: nat, stride: nat, bpp: nat)
    requires Lines(lines, stride) && Rows(rows, stride) && bpp >= 1
    requires y < |rows| && y < |lines|
  {
    rows[y] == UnfilterLine(lines[y].filter, lines[y].bytes, Above(rows, y, stride), bpp)
  }

  ghost predicate Reconstructs(rows: seq<seq<Byte>>, lines: seq<Scanline>, stride: nat, bpp: nat)
    requires Lines(lines, stride) && bpp >= 1
  {
    && Rows(rows, stride) && |rows| == |lines|
    && forall y :: 0 <= y < |rows| ==> RowFollows(rows, lines, y, stride, bpp)
  }

  /** One more line reconstructed from the rows so far. */
  lemma OneMoreRow(rows: seq<seq<Byte>>, lines: seq<Scanline>, n: nat, stride: nat, bpp: nat)
    requires Lines(lines, stride) && bpp >= 1 && n < |lines|
    requires Reconstructs(rows, lines[..n], stride, bpp)
    ensures Reconstructs(rows + [UnfilterLine(lines[n].filter, lines[n].bytes, Above(rows, n, stride), bpp)],
                         lines[..n + 1], stride, bpp)
  {
    hide UnfilterLine;
    var more := rows + [UnfilterLine(lines[n].filter, lines[n].bytes, Above(rows, n, stride), bpp)];
    var next := lines[..n + 1];
    forall y | 0 <= y < n ensures RowFollows(more, next, y, stride, bpp) {
      assert RowFollows(rows, lines[..n], y, stride, bpp);
      assert Above(more, y, stride) == Above(rows, y, stride);
    }
  }

  function Unfilter(lines: seq<Scanline>, stride: nat, bpp: nat): (rows: seq<seq<Byte>>)
    requires Lines(lines, stride) && bpp >= 1
    ensures Reconstructs(rows, lines, stride, bpp)
  {
    hide UnfilterLine, RowFollows;
    if lines == [] then []
    else
      var n := |lines| - 1;
      var rows := Unfilter(lines[..n], stride, bpp);
      OneMoreRow(rows, lines, n, stride, bpp);
      assert lines[..n + 1] == lines;
      rows + [UnfilterLine(lines[n].filter, lines[n].bytes, Above(rows, n, stride), bpp)]
  }

  function Filter(rows: seq<seq<Byte>>, filters: seq<Byte>, stride: nat, bpp: nat): (lines: seq<Scanline>)
    requires Rows(rows, stride) && |filters| == |rows| && bpp >= 1
    ensures |lines| == |rows| && Lines(lines, stride)
    ensures forall y :: 0 <= y < |lines| ==>
      lines[y] == Scanline(filters[y], FilterLine(filters[y], rows[y], Above(rows, y, stride), bpp))
  {
    seq(|rows|, y requires 0 <= y < |rows| =>
      Scanline(filters[y], FilterLine(filters[y], rows[y], Above(rows, y, stride), bpp)))
  }

  function FiltersOf(lines: seq<Scanline>): (r: seq<Byte>)
    ensures |r| == |lines|
    ensures forall y :: 0 <= y < |r| ==> r[y] == lines[y].filter
  {
    seq(|lines|, y requires 0 <= y < |lines| => lines[y].filter)
  }

  /** Each row being settled by the ones before it, stored lines describe one image only. */
  lemma {:induction false} OneImageRow(a: seq<seq<Byte>>, b: seq<seq<Byte>>, lines: seq<Scanline>,
                                       y: nat, stride: nat, bpp: nat)
    requires Lines(lines, stride) && bpp >= 1 && y < |lines|
    requires Reconstructs(a, lines, stride, bpp) && Reconstructs(b, lines, stride, bpp)
    ensures a[y] == b[y]
  {
    hide UnfilterLine;
    if y > 0 {
      OneImageRow(a, b, lines, y - 1, stride, bpp);
    }
    assert RowFollows(a, lines, y, stride, bpp) && RowFollows(b, lines, y, stride, bpp);
  }

  lemma OneImage(a: seq<seq<Byte>>, b: seq<seq<Byte>>, lines: seq<Scanline>, stride: nat, bpp: nat)
    requires Lines(lines, stride) && bpp >= 1
    requires Reconstructs(a, lines, stride, bpp) && Reconstructs(b, lines, stride, bpp)
    ensures a == b
  {
    hide RowFollows;
    forall y | 0 <= y < |lines| ensures a[y] == b[y] {
      OneImageRow(a, b, lines, y, stride, bpp);
    }
  }

  /** Unfiltering recovers the image, whichever filter was chosen for each line. */
  lemma UnfilterUndoesFilter(rows: seq<seq<Byte>>, filters: seq<Byte>, stride: nat, bpp: nat)
    requires Rows(rows, stride) && |filters| == |rows| && bpp >= 1
    ensures Unfilter(Filter(rows, filters, stride, bpp), stride, bpp) == rows
  {
    hide UnfilterLine, FilterLine, Filter, Unfilter, Above;
    var lines := Filter(rows, filters, stride, bpp);
    forall y | 0 <= y < |rows| ensures RowFollows(rows, lines, y, stride, bpp) {
      UnfilterUndoesFilterLine(filters[y], rows[y], Above(rows, y, stride), bpp);
    }
    OneImage(rows, Unfilter(lines, stride, bpp), lines, stride, bpp);
  }

  /** And filtering recovers the stored lines, so no two differently stored images agree. */
  lemma FilterUndoesUnfilter(lines: seq<Scanline>, stride: nat, bpp: nat)
    requires Lines(lines, stride) && bpp >= 1
    ensures Filter(Unfilter(lines, stride, bpp), FiltersOf(lines), stride, bpp) == lines
  {
    hide UnfilterLine, FilterLine, Filter, FiltersOf, Unfilter, Above;
    var rows := Unfilter(lines, stride, bpp);
    var again := Filter(rows, FiltersOf(lines), stride, bpp);
    forall y | 0 <= y < |lines| ensures again[y] == lines[y] {
      assert RowFollows(rows, lines, y, stride, bpp);
      FilterUndoesUnfilterLine(lines[y].filter, lines[y].bytes, Above(rows, y, stride), bpp);
    }
  }

  // ------------------------------------------------------------- flat buffers

  /** Rows of `width` bytes laid end to end. */
  function Flat(rows: seq<seq<Byte>>): (r: seq<Byte>) {
    if rows == [] then [] else Flat(rows[..|rows| - 1]) + rows[|rows| - 1]
  }

  lemma {:induction false} FlatLength(rows: seq<seq<Byte>>, width: nat)
    requires Rows(rows, width)
    ensures |Flat(rows)| == |rows| * width
  {
    if rows != [] {
      FlatLength(rows[..|rows| - 1], width);
      assert |rows| * width == (|rows| - 1) * width + width;
    }
  }

  lemma RowFits(y: nat, height: nat, width: nat)
    requires y < height
    ensures 0 <= y * width <= y * width + width <= height * width
  {
    TimesMonotone(width, y + 1, height);
  }

  /** Row `y` of a flat buffer. */
  function RowAt(flat: seq<Byte>, y: nat, width: nat): (r: seq<Byte>)
    requires 0 <= y * width <= y * width + width <= |flat|
    ensures |r| == width
  {
    flat[y * width..y * width + width]
  }

  lemma {:induction false} RowAtOfFlat(rows: seq<seq<Byte>>, y: nat, width: nat)
    requires Rows(rows, width) && y < |rows|
    ensures 0 <= y * width <= y * width + width <= |Flat(rows)|
    ensures RowAt(Flat(rows), y, width) == rows[y]
  {
    var n := |rows| - 1;
    FlatLength(rows, width);
    RowFits(y, |rows|, width);
    FlatLength(rows[..n], width);
    if y < n {
      RowAtOfFlat(rows[..n], y, width);
    }
  }

  function RowsOf(flat: seq<Byte>, height: nat, width: nat): (rows: seq<seq<Byte>>)
    requires |flat| == height * width
    ensures |rows| == height && Rows(rows, width)
  {
    seq(height, y requires 0 <= y < height => RowFits(y, height, width); RowAt(flat, y, width))
  }

  lemma {:induction false} FlatOfRows(flat: seq<Byte>, height: nat, width: nat)
    requires |flat| == height * width
    ensures Flat(RowsOf(flat, height, width)) == flat
  {
    if height > 0 {
      var n := height - 1;
      assert n * width + width == height * width;
      TimesMonotone(width, 0, n);
      var short := flat[..n * width];
      FlatOfRows(short, n, width);
      forall y | 0 <= y < n ensures RowsOf(flat, height, width)[y] == RowsOf(short, n, width)[y] {
        RowFits(y, n, width);
      }
      assert RowsOf(flat, height, width)[..n] == RowsOf(short, n, width);
      assert flat == short + flat[n * width..];
    }
  }

  /** The scanlines of inflated image data, each one filter byte and a row. */
  function ScanlineAt(raw: seq<Byte>, y: nat, stride: nat): (r: Scanline)
    requires 0 <= y * (stride + 1) <= y * (stride + 1) + (stride + 1) <= |raw|
    ensures |r.bytes| == stride && r.filter == raw[y * (stride + 1)]
  {
    var row := RowAt(raw, y, stride + 1);
    Scanline(row[0], row[1..])
  }

  function ScanlinesOf(raw: seq<Byte>, height: nat, stride: nat): (lines: seq<Scanline>)
    requires |raw| >= height * (stride + 1)
    ensures |lines| == height && Lines(lines, stride)
  {
    seq(height, y requires 0 <= y < height => RowFits(y, height, stride + 1); ScanlineAt(raw, y, stride))
  }

  /** How an encoder lays scanlines out before compressing them. */
  function Stored(lines: seq<Scanline>): seq<Byte> {
    Flat(seq(|lines|, y requires 0 <= y < |lines| => [lines[y].filter] + lines[y].bytes))
  }

  /** Line `y` of the data is a filter byte and then the row, each line one byte longer than a row. */
  lemma ScanlinesLieInOrder(raw: seq<Byte>, height: nat, stride: nat, y: nat, x: nat)
    requires |raw| >= height * (stride + 1) && y < height && x < stride
    ensures 0 <= y * (stride + 1) && y * (stride + 1) + 1 + x < |raw|
    ensures ScanlinesOf(raw, height, stride)[y].filter == raw[y * (stride + 1)]
    ensures ScanlinesOf(raw, height, stride)[y].bytes[x] == raw[y * (stride + 1) + 1 + x]
  {
    RowFits(y, height, stride + 1);
    assert ScanlinesOf(raw, height, stride)[y] == ScanlineAt(raw, y, stride);
  }

  lemma StoredScanlines(lines: seq<Scanline>, stride: nat)
    requires Lines(lines, stride)
    ensures |Stored(lines)| == |lines| * (stride + 1)
    ensures ScanlinesOf(Stored(lines), |lines|, stride) == lines
  {
    hide Flat, RowAt;
    var rows := seq(|lines|, y requires 0 <= y < |lines| => [lines[y].filter] + lines[y].bytes);
    assert Rows(rows, stride + 1);
    FlatLength(rows, stride + 1);
    forall y | 0 <= y < |lines| ensures ScanlinesOf(Stored(lines), |lines|, stride)[y] == lines[y] {
      RowAtOfFlat(rows, y, stride + 1);
      assert rows[y][1..] == lines[y].bytes;
    }
  }

  /** The first line whose filter byte names no filter. */
  ghost predicate UnknownFilterAt(lines: seq<Scanline>, y: nat) {
    y < |lines| && lines[y].filter > 4 && forall z :: 0 <= z < y ==> lines[z].filter <= 4
  }

  datatype UnfilterResult = Unfiltered(out: seq<Byte>) | UnknownFilter(filter: Byte, y: nat)

  /** The row last written to a buffer of rows, or zeros before there is one. */
  function LastRow(flat: seq<Byte>, first: bool, stride: nat): (r: seq<Byte>)
    requires !first ==> |flat| >= stride
    ensures |r| == stride
  {
    if first then Zeros(stride) else flat[|flat| - stride..]
  }

  /** Reconstructing one more line onto the end of the buffer keeps it the unfiltered image so far. */
  lemma NextRow(flat: seq<Byte>, lines: seq<Scanline>, y: nat, stride: nat, bpp: nat)
    requires Lines(lines, stride) && bpp >= 1 && y < |lines|
    requires flat == Flat(Unfilter(lines[..y], stride, bpp))
    ensures |flat| == y * stride && (y > 0 ==> |flat| >= stride)
    ensures Flat(Unfilter(lines[..y + 1], stride, bpp))
         == flat + UnfilterLine(lines[y].filter, lines[y].bytes, LastRow(flat, y == 0, stride), bpp)
  {
    hide UnfilterLine, RowFollows, Flat;
    var rows := Unfilter(lines[..y], stride, bpp);
    FlatLength(rows, stride);
    if y > 0 {
      RowAtOfFlat(rows, y - 1, stride);
      assert (y - 1) * stride + stride == y * stride;
    }
    assert LastRow(flat, y == 0, stride) == Above(rows, y, stride);
    assert lines[..y + 1][..y] == lines[..y];
    LastOfFlat(rows, UnfilterLine(lines[y].filter, lines[y].bytes, Above(rows, y, stride), bpp));
  }

  lemma LastOfFlat(rows: seq<seq<Byte>>, row: seq<Byte>)
    ensures Flat(rows + [row]) == Flat(rows) + row
  {
    assert (rows + [row])[..|rows|] == rows;
  }

  method ReconstructByte(filter: Byte, value: Byte, a: Byte, b: Byte, c: Byte) returns (r: Byte)
    requires filter <= 4
    ensures r == (value + Predict(filter, a, b, c)) % 256
  {
    hide Paeth;
    var reconstructed :=
      match filter
      case 0 => value
      case 1 => value + a
      case 2 => value + b
      case 3 => value + (a + b) / 2
      case _ => value + Paeth(a, b, c);
    r := reconstructed % 256;
  }

  lemma ByteRebuilt(filter: Byte, line: seq<Byte>, above: seq<Byte>, row: seq<Byte>, x: nat,
                    a: Byte, b: Byte, c: Byte, bpp: nat)
    requires x < |line| <= |above| && bpp >= 1 && filter <= 4
    requires row == UnfilterLine(filter, line[..x], above, bpp)
    requires a == Back(row, x, bpp) && b == above[x] && c == Back(above, x, bpp)
    ensures UnfilterLine(filter, line[..x + 1], above, bpp) == row + [(line[x] + Predict(filter, a, b, c)) % 256]
  {
    hide Predict;
    assert line[..x + 1][..x] == line[..x];
  }

  /** Rebuilds one line in place; false when its filter byte names no filter. */
  method ReconstructLine(filter: Byte, line: seq<Byte>, out: array<Byte>, target: nat, first: bool, stride: nat, bpp: nat)
    returns (known: bool)
    requires |line| == stride && stride >= 1 && bpp >= 1
    requires target + stride <= out.Length && (!first ==> target >= stride)
    modifies out
    ensures known <==> filter <= 4
    ensures forall k :: 0 <= k < target ==> out[k] == old(out[k])
    ensures known ==>
      out[target..target + stride] == UnfilterLine(filter, line, LastRow(old(out[..target]), first, stride), bpp)
  {
    hide Predict, UnfilterLine;
    if filter > 4 {
      return false;
    }
    ghost var above := LastRow(out[..target], first, stride);
    ghost var row: seq<Byte> := [];
    EmptyLine(filter, line, above, bpp);
    var x := 0;
    while x < stride
      invariant 0 <= x <= stride && |row| == x
      invariant forall k :: 0 <= k < target ==> out[k] == old(out[k])
      invariant forall k :: 0 <= k < x ==> out[target + k] == row[k]
      invariant row == UnfilterLine(filter, line[..x], above, bpp)
    {
      var a := if x >= bpp then out[target + x - bpp] else 0;
      var b := if !first then out[target - stride + x] else 0;
      var c := if !first && x >= bpp then out[target - stride + x - bpp] else 0;
      ByteRebuilt(filter, line, above, row, x, a, b, c, bpp);
      var byte := ReconstructByte(filter, line[x], a, b, c);
      out[target + x] := byte;
      row := row + [byte];
      x := x + 1;
    }
    assert line[..x] == line;
    assert out[target..target + stride] == row;
    return true;
  }

  lemma EmptyLine(filter: Byte, line: seq<Byte>, above: seq<Byte>, bpp: nat)
    requires bpp >= 1
    ensures UnfilterLine(filter, line[..0], above, bpp) == []
  {
  }

  lemma NoRows(lines: seq<Scanline>, stride: nat, bpp: nat)
    requires Lines(lines, stride) && bpp >= 1
    ensures Flat(Unfilter(lines[..0], stride, bpp)) == []
  {
  }

  /** Undoes one scanline of `raw` after those before it; false when its filter is unknown. */
  method UnfilterNext(raw: seq<Byte>, y: nat, out: array<Byte>, height: nat, stride: nat, bpp: nat) returns (known: bool)
    requires |raw| >= height * (stride + 1) && stride >= 1 && bpp >= 1 && y < height
    requires 0 <= y * stride <= y * stride + stride <= out.Length
    requires out[..y * stride] == Flat(Unfilter(ScanlinesOf(raw, height, stride)[..y], stride, bpp))
    modifies out
    ensures known <==> ScanlinesOf(raw, height, stride)[y].filter <= 4
    ensures known ==>
      out[..y * stride + stride] == Flat(Unfilter(ScanlinesOf(raw, height, stride)[..y + 1], stride, bpp))
  {
    hide UnfilterLine, RowAt, ScanlineAt, Flat, LastRow, RowFollows, Unfilter;
    RowFits(y, height, stride + 1);
    var scanline := ScanlineAt(raw, y, stride);
    ghost var lines := ScanlinesOf(raw, height, stride);
    assert scanline == lines[y];
    var target := y * stride;
    ghost var flat := out[..target];
    NextRow(flat, lines, y, stride, bpp);
    known := ReconstructLine(scanline.filter, scanline.bytes, out, target, y == 0, stride, bpp);
    assert out[..target + stride] == flat + out[target..target + stride];
  }

  method UnfilterBuffer(raw: seq<Byte>, height: nat, stride: nat, bpp: nat) returns (r: UnfilterResult)
    requires |raw| >= height * (stride + 1) && stride >= 1 && bpp >= 1
    ensures var lines := ScanlinesOf(raw, height, stride);
      match r
      case Unfiltered(out) =>
        (forall y :: 0 <= y < height ==> lines[y].filter <= 4) && out == Flat(Unfilter(lines, stride, bpp))
      case UnknownFilter(filter, y) => UnknownFilterAt(lines, y) && filter == lines[y].filter
  {
    hide UnfilterLine, RowAt, Flat, Unfilter;
    TimesMonotone(stride, 0, height);
    var out := new Byte[height * stride];
    ghost var lines := ScanlinesOf(raw, height, stride);
    NoRows(lines, stride, bpp);
    var y := 0;
    while y < height
      invariant 0 <= y <= height
      invariant forall z :: 0 <= z < y ==> lines[z].filter <= 4
      invariant 0 <= y * stride <= out.Length
      invariant out[..y * stride] == Flat(Unfilter(lines[..y], stride, bpp))
    {
      RowFits(y, height, stride);
      RowFits(y, height, stride + 1);
      var known := UnfilterNext(raw, y, out, height, stride, bpp);
      if !known {
        return UnknownFilter(raw[y * (stride + 1)], y);
      }
      assert (y + 1) * stride == y * stride + stride;
      y := y + 1;
    }
    assert lines[..y] == lines;
    return Unfiltered(out[..]);
  }
}
