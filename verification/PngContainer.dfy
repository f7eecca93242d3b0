/**
 Reading a PNG file (decodePng in png.js), and the encoder it must invert (png_bytes in
 cifar-png.py). The layout of chunks is that of section 3.2 of RFC 2083.

 zlib is a parameter: `inflate` gives the data back, or nothing when the stream is corrupt.
 */
module PngContainer {
  import opened Prelude
  import opened PngFilter
  import opened PngPixels

  const SIGNATURE: seq<Byte> := [0x89, 0x50, 0x4e, 0x47, 0x0d, 0x0a, 0x1a, 0x0a]

  // Chunk names, as the ASCII codes of their letters.
  const IHDR: seq<Byte> := [0x49, 0x48, 0x44, 0x52]
  const PLTE: seq<Byte> := [0x50, 0x4c, 0x54, 0x45]
  const TRNS: seq<Byte> := [0x74, 0x52, 0x4e, 0x53]
  const IDAT: seq<Byte> := [0x49, 0x44, 0x41, 0x54]
  const IEND: seq<Byte> := [0x49, 0x45, 0x4e, 0x44]

  datatype PngError =
    | NotPng
    | Truncated(kind: seq<Byte>, claims: nat)
    | ShortHeader
    | ZeroSize
    | NoHeader
    | NoImageData
    | InterlacedImage
    | UnsupportedDepth(bitDepth: Byte)
    | UndefinedColourType(colourType: Byte)
    | NoPalette
    | CorruptStream
    | TooLittleData(got: nat, expected: nat)
    | UnknownFilterType(filter: Byte, y: nat)
    | PastPalette(index: Byte)

  // ------------------------------------------------------------------- words

  const WORD: nat := 0x1_0000_0000

  /** Four bytes, most significant first. */
  function Word(n: nat): (w: seq<Byte>)
    requires n < WORD
    ensures |w| == 4
  {
    [n / 256 / 256 / 256, n / 256 / 256 % 256, n / 256 % 256, n % 256]
  }

  function ReadWord(w: seq<Byte>): (n: nat)
    requires |w| >= 4
    ensures n < WORD
  {
    ((w[0] as int * 256 + w[1] as int) * 256 + w[2] as int) * 256 + w[3] as int
  }

  lemma WordRoundTrip(n: nat)
    requires n < WORD
    ensures ReadWord(Word(n)) == n
  {
  }

  // ------------------------------------------------------------------ headers

  datatype Dimensions = Header(width: nat, height: nat, bitDepth: Byte, colourType: Byte, interlace: Byte)

  /** A header with a zero dimension is refused when it is read. */
  type Header = h: Dimensions | 0 < h.width < WORD && 0 < h.height < WORD
    witness Header(1, 1, 8, 2, 0)

  function ReadHeader(data: seq<Byte>): Result<Header, PngError> {
    if |data| < 13 then Err(ShortHeader)
    else
      var width, height := ReadWord(data), ReadWord(data[4..]);
      if width == 0 || height == 0 then Err(ZeroSize)
      else Ok(Header(width, height, data[8], data[9], data[12]))
  }

  // ------------------------------------------------------------------- chunks

  /** What the chunk walk has collected. */
  datatype Found = Found(header: Option<Header>, palette: Option<seq<Byte>>, transparency: Option<seq<Byte>>,
                         idat: seq<seq<Byte>>)

  const NOTHING := Found(None, None, None, [])

  /** A walk is still going, has met IEND, or has failed. */
  datatype Scan = Going(found: Found) | Ended(found: Found) | Failed(error: PngError)

  /** Decoding as ASCII drops the top bit of each byte. */
  function Name(kind: seq<Byte>): (name: seq<Byte>)
    ensures |name| == |kind|
  {
    seq(|kind|, i requires 0 <= i < |kind| => kind[i] % 128)
  }

  function Meet(found: Found, name: seq<Byte>, data: seq<Byte>): Scan {
    if name == IHDR then
      match ReadHeader(data)
      case Err(e) => Failed(e)
      case Ok(h) => Going(found.(header := Some(h)))
    else if name == PLTE then Going(found.(palette := Some(data)))
    else if name == TRNS then Going(found.(transparency := Some(data)))
    else if name == IDAT then Going(found.(idat := found.idat + [data]))
    else if name == IEND then Ended(found)
    else Going(found)
  }

  /** The walk over what is left of the file. The CRC is stepped over. */
  function Walk(rest: seq<Byte>, found: Found): Scan
    decreases |rest|
  {
    if |rest| < 8 then Going(found)
    else
      var length, name := ReadWord(rest), Name(rest[4..8]);
      if |rest| < 12 + length then Failed(Truncated(name, length))
      else
        var next := Meet(found, name, rest[8..8 + length]);
        if next.Going? then Walk(rest[12 + length..], next.found) else next
  }

  // ------------------------------------------------- a file as a list of chunks

  datatype Chunk = Chunk(kind: seq<Byte>, data: seq<Byte>, crc: seq<Byte>)

  ghost predicate Layable(c: Chunk) {
    |c.kind| == 4 && |c.data| < WORD && |c.crc| == 4
  }

  ghost predicate AllLayable(cs: seq<Chunk>) {
    forall c :: c in cs ==> Layable(c)
  }

  function Laid(c: Chunk): seq<Byte>
    requires Layable(c)
  {
    Word(|c.data|) + c.kind + c.data + c.crc
  }

  function LaidOut(cs: seq<Chunk>): seq<Byte>
    requires AllLayable(cs)
  {
    if cs == [] then [] else Laid(cs[0]) + LaidOut(cs[1..])
  }

  /** The chunks one after another, until one ends or fails the walk. */
  function MeetAll(s: Scan, cs: seq<Chunk>): Scan
    decreases |cs|
  {
    if cs == [] || !s.Going? then s else MeetAll(Meet(s.found, Name(cs[0].kind), cs[0].data), cs[1..])
  }

  lemma LaidParts(c: Chunk, after: seq<Byte>)
    requires Layable(c)
    ensures var rest, n := Laid(c) + after, |c.data|;
      && |rest| == 12 + n + |after|
      && ReadWord(rest) == n && rest[4..8] == c.kind && rest[8..8 + n] == c.data && rest[12 + n..] == after
  {
    var rest := Laid(c) + after;
    WordRoundTrip(|c.data|);
    assert rest[..4] == Word(|c.data|);
    assert ReadWord(rest) == ReadWord(rest[..4]);
  }

  /** A walk that is still going goes on into what follows. */
  function Resume(s: Scan, tail: seq<Byte>): Scan {
    if s.Going? then Walk(tail, s.found) else s
  }

  /** Walking a file visits exactly the chunks it was laid out from, then what follows them unless one ended the walk. */
  lemma {:induction false} WalkVisitsChunks(cs: seq<Chunk>, tail: seq<Byte>, found: Found)
    requires AllLayable(cs)
    ensures Walk(LaidOut(cs) + tail, found) == Resume(MeetAll(Going(found), cs), tail)
  {
    hide Meet, Laid, ReadWord, Name;
    if cs == [] {
      assert LaidOut(cs) + tail == tail;
    } else {
      var after := LaidOut(cs[1..]) + tail;
      assert LaidOut(cs) + tail == Laid(cs[0]) + after;
      LaidParts(cs[0], after);
      var next := Meet(found, Name(cs[0].kind), cs[0].data);
      if next.Going? {
        WalkVisitsChunks(cs[1..], tail, next.found);
      }
    }
  }

  // ------------------------------------------------------------ image from chunks

  datatype Image = Image(width: nat, height: nat, pixels: seq<Byte>, hadAlpha: bool, colourType: Byte, bitDepth: Byte)

  function Joined(pieces: seq<seq<Byte>>): seq<Byte> {
    if pieces == [] then [] else pieces[0] + Joined(pieces[1..])
  }

  /** The first scanline, from `y` on, whose filter is none of the five. */
  function UnknownFrom(lines: seq<Scanline>, y: nat): (r: Option<nat>)
    requires y <= |lines|
    ensures r.Some? ==> r.value < |lines|
    decreases |lines| - y
  {
    if y == |lines| then None
    else if lines[y].filter > 4 then Some(y)
    else UnknownFrom(lines, y + 1)
  }

  function LayoutOf(h: Header, found: Found): Layout {
    Layout(h.width, h.colourType, h.bitDepth / 8, found.palette, found.transparency)
  }

  predicate Supported(h: Header, found: Found) {
    && h.interlace == 0
    && (h.bitDepth == 8 || h.bitDepth == 16)
    && Channels(h.colourType) > 0
    && (h.colourType == 3 ==> found.palette.Some?)
  }

  function Refusal(h: Header, found: Found): PngError
    requires !Supported(h, found)
  {
    if h.interlace != 0 then InterlacedImage
    else if h.bitDepth != 8 && h.bitDepth != 16 then UnsupportedDepth(h.bitDepth)
    else if Channels(h.colourType) == 0 then UndefinedColourType(h.colourType)
    else NoPalette
  }

  function HadAlpha(h: Header, found: Found): bool {
    h.colourType == 4 || h.colourType == 6 || (h.colourType == 3 && found.transparency.Some?)
  }

  lemma LayoutIsUsable(h: Header, found: Found)
    requires Supported(h, found)
    ensures Usable(LayoutOf(h, found))
    ensures BytesPerPixel(LayoutOf(h, found)) >= 1 && Stride(LayoutOf(h, found)) >= 1
  {
    var l := LayoutOf(h, found);
    AtLeastOneTimes(l.bytesPerSample, Channels(l.colourType));
    AtLeastOneTimes(l.width, BytesPerPixel(l));
  }

  /** What the inflated data shows. */
  function Pixels(raw: seq<Byte>, h: Header, found: Found): Result<seq<Byte>, PngError>
    requires Supported(h, found)
  {
    LayoutIsUsable(h, found);
    var l := LayoutOf(h, found);
    if |raw| < h.height * (Stride(l) + 1) then Err(TooLittleData(|raw|, h.height * (Stride(l) + 1)))
    else
      var lines := ScanlinesOf(raw, h.height, Stride(l));
      var unknown := UnknownFrom(lines, 0);
      if unknown.Some? then Err(UnknownFilterType(lines[unknown.value].filter, unknown.value))
      else
        match RgbImage(Unfilter(lines, Stride(l), BytesPerPixel(l)), l)
        case Err(index) => Err(PastPalette(index))
        case Ok(pixels) => Ok(pixels)
  }

  function Finish(found: Found, inflate: seq<Byte> -> Option<seq<Byte>>): Result<Image, PngError> {
    if found.header.None? then Err(NoHeader)
    else if found.idat == [] then Err(NoImageData)
    else
      var h := found.header.value;
      if !Supported(h, found) then Err(Refusal(h, found))
      else
        var raw := inflate(Joined(found.idat));
        if raw.None? then Err(CorruptStream)
        else
          match Pixels(raw.value, h, found)
          case Err(e) => Err(e)
          case Ok(pixels) => Ok(Image(h.width, h.height, pixels, HadAlpha(h, found), h.colourType, h.bitDepth))
  }

  function FinishScan(s: Scan, inflate: seq<Byte> -> Option<seq<Byte>>): Result<Image, PngError> {
    if s.Failed? then Err(s.error) else Finish(s.found, inflate)
  }

  function Decode(file: seq<Byte>, inflate: seq<Byte> -> Option<seq<Byte>>): Result<Image, PngError> {
    if |file| < 8 || file[..8] != SIGNATURE then Err(NotPng)
    else FinishScan(Walk(file[8..], NOTHING), inflate)
  }

  // ------------------------------------------------------- the format, outright

  /** The bytes of a text of plain ASCII. */
  function Ascii(text: string): (bytes: seq<Byte>)
    requires forall i :: 0 <= i < |text| ==> text[i] < 128 as char
    ensures |bytes| == |text|
  {
    seq(|text|, i requires 0 <= i < |text| => text[i] as int)
  }

  /** Section 3.1 and section 3.3 of RFC 2083: how a file begins, and what its chunks are called. */
  lemma FormatConstants()
    ensures SIGNATURE == [137, 80, 78, 71, 13, 10, 26, 10]
    ensures IHDR == Ascii("IHDR") && PLTE == Ascii("PLTE") && TRNS == Ascii("tRNS")
    ensures IDAT == Ascii("IDAT") && IEND == Ascii("IEND")
  {
  }

  /** Section 2.1 of RFC 2083: the most significant byte first. */
  lemma WordsAreBigEndian(n: nat, w: seq<Byte>)
    requires n < WORD && |w| >= 4
    ensures ReadWord(w) == 16777216 * w[0] as int + 65536 * w[1] as int + 256 * w[2] as int + w[3] as int
    ensures n == 16777216 * Word(n)[0] as int + 65536 * Word(n)[1] as int + 256 * Word(n)[2] as int + Word(n)[3] as int
  {
    WordRoundTrip(n);
  }

  /** A chunk's kind is read as 7-bit text: the top bit of a byte is dropped. */
  lemma KindsAreSevenBit(kind: seq<Byte>, i: nat)
    requires i < |kind|
    ensures Name(kind)[i] == if kind[i] < 128 then kind[i] else kind[i] - 128
  {
  }

  /** A file cut inside its last chunk: fewer than eight bytes of it are passed over, more are refused. */
  lemma CutFileIsRefused(cs: seq<Chunk>, c: Chunk, k: nat, found: Found)
    requires AllLayable(cs) && Layable(c) && k < 12 + |c.data|
    requires MeetAll(Going(found), cs).Going?
    ensures |Laid(c)| == 12 + |c.data|
    ensures Walk(LaidOut(cs) + Laid(c)[..k], found) ==
      if k < 8 then MeetAll(Going(found), cs) else Failed(Truncated(Name(c.kind), |c.data|))
  {
    hide Meet, Laid, Name, ReadWord, Walk;
    LaidParts(c, []);
    assert Laid(c) + [] == Laid(c);
    WalkVisitsChunks(cs, Laid(c)[..k], found);
    CutChunk(Laid(c), k, MeetAll(Going(found), cs).found);
  }

  lemma CutChunk(laid: seq<Byte>, k: nat, found: Found)
    requires |laid| >= 8 && k < 12 + ReadWord(laid) && k <= |laid|
    ensures Walk(laid[..k], found) == if k < 8 then Going(found) else Failed(Truncated(Name(laid[4..8]), ReadWord(laid)))
  {
    if k >= 8 {
      assert laid[..k][4..8] == laid[4..8];
      assert ReadWord(laid[..k]) == ReadWord(laid);
    }
  }

  /** Section 4.1.1 of RFC 2083: where the fields of a header are, and which headers are refused. */
  lemma HeaderFields(data: seq<Byte>)
    ensures |data| < 13 <==> ReadHeader(data) == Err(ShortHeader)
    ensures |data| >= 13 ==>
      var width, height := ReadWord(data[0..4]), ReadWord(data[4..8]);
      if width == 0 || height == 0 then ReadHeader(data) == Err(ZeroSize)
      else
        ReadHeader(data).Ok?
        && var h := ReadHeader(data).value;
           && h.width == width && h.height == height
           && h.bitDepth == data[8] && h.colourType == data[9] && h.interlace == data[12]
  {
    if |data| >= 13 {
      var first, second := data[0..4], data[4..8];
      assert first[0] == data[0] && second[0] == data[4..][0];
    }
  }

  /** The data of the last chunk of a kind, or what there was before. */
  function LastOf(cs: seq<Chunk>, kind: seq<Byte>, before: Option<seq<Byte>>): Option<seq<Byte>> {
    if cs == [] then before
    else LastOf(cs[1..], kind, if Name(cs[0].kind) == kind then Some(cs[0].data) else before)
  }

  function DataOfKind(cs: seq<Chunk>, kind: seq<Byte>): seq<seq<Byte>> {
    if cs == [] then []
    else (if Name(cs[0].kind) == kind then [cs[0].data] else []) + DataOfKind(cs[1..], kind)
  }

  /** Of the chunks up to IEND: the last palette, the last transparency, and all the image data in order. */
  lemma {:induction false} FindsWhatIsThere(cs: seq<Chunk>, found: Found)
    requires forall c :: c in cs ==> Name(c.kind) != IEND
    requires MeetAll(Going(found), cs).Going?
    ensures var f := MeetAll(Going(found), cs).found;
      && f.palette == LastOf(cs, PLTE, found.palette) && f.transparency == LastOf(cs, TRNS, found.transparency)
      && f.idat == found.idat + DataOfKind(cs, IDAT)
    decreases |cs|
  {
    hide Name, ReadHeader;
    if cs == [] {
      assert found.idat + [] == found.idat;
    } else {
      assert cs[0] in cs && forall c :: c in cs[1..] ==> c in cs;
      var next := Meet(found, Name(cs[0].kind), cs[0].data);
      FindsWhatIsThere(cs[1..], next.found);
    }
  }

  /** What is refused, in the order in which it is looked for, once the chunks have been read. */
  lemma RefusedInOrder(found: Found, inflate: seq<Byte> -> Option<seq<Byte>>)
    ensures found.header.None? ==> Finish(found, inflate) == Err(NoHeader)
    ensures found.header.Some? && found.idat == [] ==> Finish(found, inflate) == Err(NoImageData)
    ensures found.header.Some? && found.idat != [] ==>
      var h, r := found.header.value, Finish(found, inflate);
      && (h.interlace != 0 ==> r == Err(InterlacedImage))
      && (h.interlace == 0 ==>
           && (h.bitDepth != 8 && h.bitDepth != 16 ==> r == Err(UnsupportedDepth(h.bitDepth)))
           && (h.bitDepth == 8 || h.bitDepth == 16 ==>
                && (h.colourType !in {0, 2, 3, 4, 6} ==> r == Err(UndefinedColourType(h.colourType)))
                && (h.colourType == 3 && found.palette.None? ==> r == Err(NoPalette))
                && (h.colourType in {0, 2, 4, 6} || (h.colourType == 3 && found.palette.Some?) ==>
                     && (inflate(Joined(found.idat)).None? ==> r == Err(CorruptStream))
                     && (r.Ok? ==>
                          && r.value.width == h.width && r.value.height == h.height
                          && r.value.colourType == h.colourType && r.value.bitDepth == h.bitDepth
                          && (r.value.hadAlpha <==>
                               h.colourType in {4, 6} || (h.colourType == 3 && found.transparency.Some?))))))
  {
    hide Pixels, Joined;
  }

  /** Too little data is refused: fewer bytes than lines of a filter byte and the samples of a row. */
  lemma ShortDataRefused(raw: seq<Byte>, h: Header, found: Found)
    requires Supported(h, found)
    ensures var needed := h.height * (h.width * (Channels(h.colourType) * (h.bitDepth / 8)) + 1);
      if |raw| < needed then Pixels(raw, h, found) == Err(TooLittleData(|raw|, needed))
      else Pixels(raw, h, found).Ok? || !Pixels(raw, h, found).error.TooLittleData?
  {
    hide RgbImage, Unfilter, ScanlinesOf, UnknownFrom;
    LayoutIsUsable(h, found);
  }

  // ------------------------------------------------------------------ the decoder

  lemma {:induction false} FirstUnknown(lines: seq<Scanline>, y: nat, z: nat)
    requires z <= y <= |lines|
    requires forall k :: z <= k < y ==> lines[k].filter <= 4
    ensures UnknownFrom(lines, z) == UnknownFrom(lines, y)
    decreases y - z
  {
    if z < y {
      FirstUnknown(lines, y, z + 1);
    }
  }

  /** And so is data whose line `y` is the first with a filter byte other than 0 to 4. */
  lemma UnknownFilterRefused(raw: seq<Byte>, h: Header, found: Found, y: nat)
    requires Supported(h, found) && y < h.height
    requires var line := h.width * (Channels(h.colourType) * (h.bitDepth / 8)) + 1;
      && h.height * line <= |raw| && 0 <= y * line < |raw| && raw[y * line] > 4
      && forall z :: 0 <= z < y ==> 0 <= z * line < |raw| && raw[z * line] <= 4
    ensures var line := h.width * (Channels(h.colourType) * (h.bitDepth / 8)) + 1;
      Pixels(raw, h, found) == Err(UnknownFilterType(raw[y * line], y))
  {
    hide RgbImage, Unfilter, ScanlinesOf, UnknownFrom, Channels;
    LayoutIsUsable(h, found);
    var stride := Stride(LayoutOf(h, found));
    var lines := ScanlinesOf(raw, h.height, stride);
    ScanlinesLieInOrder(raw, h.height, stride, y, 0);
    forall z | 0 <= z < y ensures lines[z].filter <= 4 {
      ScanlinesLieInOrder(raw, h.height, stride, z, 0);
    }
    FirstUnknown(lines, y, 0);
    UnknownHere(lines, y);
  }

  lemma UnknownHere(lines: seq<Scanline>, y: nat)
    requires y < |lines| && lines[y].filter > 4
    ensures UnknownFrom(lines, y) == Some(y)
  {
  }

  method ReadPixels(raw: seq<Byte>, h: Header, found: Found) returns (r: Result<seq<Byte>, PngError>)
    requires Supported(h, found)
    ensures r == Pixels(raw, h, found)
  {
    hide RgbImage, Flat, Unfilter, Stride, BytesPerPixel, Usable, Supported, UnknownFrom;
    var l := LayoutOf(h, found);
    LayoutIsUsable(h, found);
    var expected := h.height * (Stride(l) + 1);
    if |raw| < expected {
      return Err(TooLittleData(|raw|, expected));
    }
    ghost var lines := ScanlinesOf(raw, h.height, Stride(l));
    var unfiltered := UnfilterBuffer(raw, h.height, Stride(l), BytesPerPixel(l));
    match unfiltered {
      case UnknownFilter(filter, y) =>
        UnknownIsFirst(lines, y);
        return Err(UnknownFilterType(filter, y));
      case Unfiltered(scanlines) =>
        AllKnown(lines);
        var rgb := ToRgb(scanlines, h.height, l, Unfilter(lines, Stride(l), BytesPerPixel(l)));
        match rgb {
          case Err(index) => return Err(PastPalette(index));
          case Ok(pixels) => return Ok(pixels);
        }
    }
  }

  lemma UnknownIsFirst(lines: seq<Scanline>, y: nat)
    requires UnknownFilterAt(lines, y)
    ensures UnknownFrom(lines, 0) == Some(y)
  {
    FirstUnknown(lines, y, 0);
  }

  lemma AllKnown(lines: seq<Scanline>)
    requires forall y :: 0 <= y < |lines| ==> lines[y].filter <= 4
    ensures UnknownFrom(lines, 0) == None
  {
    FirstUnknown(lines, |lines|, 0);
  }

  /** The loop over chunks. */
  method WalkChunks(file: seq<Byte>) returns (s: Scan)
    requires |file| >= 8
    ensures s == Walk(file[8..], NOTHING)
  {
    hide ReadWord, Name, Meet;
    var found := NOTHING;
    var offset := 8;
    while offset + 8 <= |file|
      invariant 8 <= offset <= |file|
      invariant Walk(file[offset..], found) == Walk(file[8..], NOTHING)
    {
      ghost var rest := file[offset..];
      var length := ReadWord(file[offset..]);
      var name := Name(file[offset + 4..offset + 8]);
      var start := offset + 8;
      var end := start + length;
      assert rest[4..8] == file[offset + 4..offset + 8];
      if end + 4 > |file| {
        return Failed(Truncated(name, length));
      }
      assert rest[8..8 + length] == file[start..end];
      assert rest[12 + length..] == file[end + 4..];
      var next := Meet(found, name, file[start..end]);
      if !next.Going? {
        return next;
      }
      found := next.found;
      offset := end + 4;
    }
    return Going(found);
  }

  method DecodePng(file: seq<Byte>, inflate: seq<Byte> -> Option<seq<Byte>>) returns (r: Result<Image, PngError>)
    ensures r == Decode(file, inflate)
  {
    hide Walk, Pixels, Supported, HadAlpha, Refusal;
    if |file| < 8 || file[..8] != SIGNATURE {
      return Err(NotPng);
    }
    var scan := WalkChunks(file);
    if scan.Failed? {
      return Err(scan.error);
    }
    var found := scan.found;
    if found.header.None? {
      return Err(NoHeader);
    }
    if found.idat == [] {
      return Err(NoImageData);
    }
    var h := found.header.value;
    if !Supported(h, found) {
      return Err(Refusal(h, found));
    }
    var raw := inflate(Joined(found.idat));
    if raw.None? {
      return Err(CorruptStream);
    }
    var pixels := ReadPixels(raw.value, h, found);
    match pixels {
      case Err(e) => return Err(e);
      case Ok(value) => return Ok(Image(h.width, h.height, value, HadAlpha(h, found), h.colourType, h.bitDepth));
    }
  }

  /** What is decoded has three bytes for every pixel. */
  lemma DecodedSize(file: seq<Byte>, inflate: seq<Byte> -> Option<seq<Byte>>)
    requires Decode(file, inflate).Ok?
    ensures var image := Decode(file, inflate).value; |image.pixels| == image.height * (3 * image.width)
  {
    hide Walk, Supported, RgbImage, Unfilter, Stride, BytesPerPixel;
    var found := Walk(file[8..], NOTHING).found;
    var h := found.header.value;
    var l := LayoutOf(h, found);
    LayoutIsUsable(h, found);
    var lines := ScanlinesOf(inflate(Joined(found.idat)).value, h.height, Stride(l));
    RgbImageLength(Unfilter(lines, Stride(l), BytesPerPixel(l)), l);
  }

  // ------------------------------------------------- what the layout cannot change

  ghost function FileOf(cs: seq<Chunk>, tail: seq<Byte>): seq<Byte>
    requires AllLayable(cs)
  {
    SIGNATURE + (LaidOut(cs) + tail)
  }

  /** Decoding a file is decoding the chunks it was laid out from, and what follows them. */
  lemma DecodeOfChunks(cs: seq<Chunk>, tail: seq<Byte>, inflate: seq<Byte> -> Option<seq<Byte>>)
    requires AllLayable(cs)
    ensures Decode(FileOf(cs, tail), inflate) == FinishScan(Resume(MeetAll(Going(NOTHING), cs), tail), inflate)
  {
    hide Finish, Walk, MeetAll, LaidOut, Resume;
    var file := FileOf(cs, tail);
    assert file[..8] == SIGNATURE && file[8..] == LaidOut(cs) + tail;
    WalkVisitsChunks(cs, tail, NOTHING);
  }

  lemma {:induction false} MeetAllAppend(s: Scan, a: seq<Chunk>, b: seq<Chunk>)
    ensures MeetAll(s, a + b) == MeetAll(MeetAll(s, a), b)
    decreases |a|
  {
    hide Meet, Name;
    if a == [] {
      assert a + b == b;
    } else if s.Going? {
      assert (a + b)[1..] == a[1..] + b;
      MeetAllAppend(Meet(s.found, Name(a[0].kind), a[0].data), a[1..], b);
    }
  }

  predicate Ancillary(c: Chunk) {
    Name(c.kind) !in {IHDR, PLTE, TRNS, IDAT, IEND}
  }

  function Known(cs: seq<Chunk>): seq<Chunk> {
    if cs == [] then [] else (if Ancillary(cs[0]) then [] else [cs[0]]) + Known(cs[1..])
  }

  /** Chunks of a kind the decoder does not know, wherever they stand, change nothing. */
  lemma {:induction false} UnknownChunksIgnored(s: Scan, cs: seq<Chunk>)
    ensures MeetAll(s, cs) == MeetAll(s, Known(cs))
    decreases |cs|
  {
    if cs != [] && s.Going? {
      UnknownChunksIgnored(Meet(s.found, Name(cs[0].kind), cs[0].data), cs[1..]);
      var rest := Known(cs[1..]);
      if Ancillary(cs[0]) {
        assert Known(cs) == rest;
      } else {
        assert Known(cs) == [cs[0]] + rest;
        assert Known(cs)[1..] == rest;
      }
    }
  }

  lemma {:induction false} KnownLayable(cs: seq<Chunk>)
    requires AllLayable(cs)
    ensures AllLayable(Known(cs))
  {
    if cs != [] {
      assert forall c :: c in cs[1..] ==> c in cs;
      KnownLayable(cs[1..]);
    }
  }

  /** A file decodes as it does with chunks of an unknown kind taken out, whatever follows them. */
  lemma AncillaryChunksIgnored(cs: seq<Chunk>, tail: seq<Byte>, inflate: seq<Byte> -> Option<seq<Byte>>)
    requires AllLayable(cs)
    ensures AllLayable(Known(cs))
    ensures Decode(FileOf(cs, tail), inflate) == Decode(FileOf(Known(cs), tail), inflate)
  {
    hide Decode, FileOf, MeetAll;
    KnownLayable(cs);
    UnknownChunksIgnored(Going(NOTHING), cs);
    DecodeOfChunks(cs, tail, inflate);
    DecodeOfChunks(Known(cs), tail, inflate);
  }

  // ---------------------------------------------------- splitting the image data

  ghost predicate SameFinds(a: Scan, b: Scan) {
    match (a, b)
    case (Failed(e), Failed(f)) => e == f
    case (Going(f), Going(g)) => SameFound(f, g)
    case (Ended(f), Ended(g)) => SameFound(f, g)
    case _ => false
  }

  ghost predicate SameFound(f: Found, g: Found) {
    && f.(idat := []) == g.(idat := [])
    && (f.idat == [] <==> g.idat == [])
    && Joined(f.idat) == Joined(g.idat)
  }

  lemma {:induction false} JoinedAppend(a: seq<seq<Byte>>, b: seq<seq<Byte>>)
    ensures Joined(a + b) == Joined(a) + Joined(b)
  {
    if a == [] {
      assert a + b == b;
    } else {
      assert (a + b)[1..] == a[1..] + b;
      JoinedAppend(a[1..], b);
    }
  }

  lemma MeetSame(f: Found, g: Found, name: seq<Byte>, data: seq<Byte>)
    requires SameFound(f, g)
    ensures SameFinds(Meet(f, name, data), Meet(g, name, data))
  {
    hide ReadHeader;
    JoinedAppend(f.idat, [data]);
    JoinedAppend(g.idat, [data]);
  }

  lemma {:induction false} MeetAllSame(a: Scan, b: Scan, cs: seq<Chunk>)
    requires SameFinds(a, b)
    ensures SameFinds(MeetAll(a, cs), MeetAll(b, cs))
    decreases |cs|
  {
    hide Meet, Name, SameFound;
    if cs != [] && a.Going? {
      var name, data := Name(cs[0].kind), cs[0].data;
      MeetSame(a.found, b.found, name, data);
      MeetAllSame(Meet(a.found, name, data), Meet(b.found, name, data), cs[1..]);
    }
  }

  /** Going over the same bytes, from the same finds, makes the same finds. */
  lemma {:induction false} ResumeSame(a: Scan, b: Scan, tail: seq<Byte>)
    requires SameFinds(a, b)
    ensures SameFinds(Resume(a, tail), Resume(b, tail))
    decreases |tail|
  {
    hide Meet, Name, ReadWord, SameFound;
    if a.Going? && |tail| >= 8 && |tail| >= 12 + ReadWord(tail) {
      var length, name := ReadWord(tail), Name(tail[4..8]);
      var data := tail[8..8 + length];
      MeetSame(a.found, b.found, name, data);
      ResumeSame(Meet(a.found, name, data), Meet(b.found, name, data), tail[12 + length..]);
    }
  }

  lemma FinishSame(a: Scan, b: Scan, inflate: seq<Byte> -> Option<seq<Byte>>)
    requires SameFinds(a, b)
    ensures FinishScan(a, inflate) == FinishScan(b, inflate)
  {
    hide RgbImage, Unfilter;
  }

  ghost predicate AllImageData(cs: seq<Chunk>) {
    forall c :: c in cs ==> Name(c.kind) == IDAT
  }

  function DataOf(cs: seq<Chunk>): seq<seq<Byte>> {
    if cs == [] then [] else [cs[0].data] + DataOf(cs[1..])
  }

  lemma {:induction false} ImageDataMet(found: Found, cs: seq<Chunk>)
    requires AllImageData(cs)
    ensures MeetAll(Going(found), cs) == Going(found.(idat := found.idat + DataOf(cs)))
    decreases |cs|
  {
    hide Name, ReadHeader;
    if cs == [] {
      assert found.idat + [] == found.idat;
    } else {
      assert cs[0] in cs && forall c :: c in cs[1..] ==> c in cs;
      var more := found.(idat := found.idat + [cs[0].data]);
      ImageDataMet(more, cs[1..]);
    }
  }

  lemma ImageDataJoined(s: Scan, ps: seq<Chunk>, qs: seq<Chunk>)
    requires AllImageData(ps) && AllImageData(qs) && ps != [] && qs != []
    requires Joined(DataOf(ps)) == Joined(DataOf(qs))
    ensures SameFinds(MeetAll(s, ps), MeetAll(s, qs))
  {
    if s.Going? {
      ImageDataMet(s.found, ps);
      ImageDataMet(s.found, qs);
      JoinedAppend(s.found.idat, DataOf(ps));
      JoinedAppend(s.found.idat, DataOf(qs));
    }
  }

  /** However the compressed stream is cut into IDAT chunks, and whatever follows, the file decodes the same. */
  lemma ImageDataMaySplit(before: seq<Chunk>, ps: seq<Chunk>, qs: seq<Chunk>, after: seq<Chunk>, tail: seq<Byte>,
                          inflate: seq<Byte> -> Option<seq<Byte>>)
    requires AllLayable(before + ps + after) && AllLayable(before + qs + after)
    requires AllImageData(ps) && AllImageData(qs) && ps != [] && qs != []
    requires Joined(DataOf(ps)) == Joined(DataOf(qs))
    ensures Decode(FileOf(before + ps + after, tail), inflate) == Decode(FileOf(before + qs + after, tail), inflate)
  {
    hide Decode, FileOf, MeetAll, SameFinds, FinishScan, AllImageData, AllLayable, Resume;
    var s := MeetAll(Going(NOTHING), before);
    MeetAllAppend(Going(NOTHING), before + ps, after);
    MeetAllAppend(Going(NOTHING), before, ps);
    MeetAllAppend(Going(NOTHING), before + qs, after);
    MeetAllAppend(Going(NOTHING), before, qs);
    ImageDataJoined(s, ps, qs);
    var a, b := MeetAll(MeetAll(s, ps), after), MeetAll(MeetAll(s, qs), after);
    MeetAllSame(MeetAll(s, ps), MeetAll(s, qs), after);
    ResumeSame(a, b, tail);
    DecodeOfChunks(before + ps + after, tail, inflate);
    DecodeOfChunks(before + qs + after, tail, inflate);
    FinishSame(Resume(a, tail), Resume(b, tail), inflate);
  }

  // ------------------------------------------------------------- the round trip

  /** The stored scanlines of flat RGB, each with filter 0. */
  function PlainLines(rgb: seq<Byte>, width: nat, height: nat): (lines: seq<Scanline>)
    requires |rgb| == height * (3 * width)
    ensures |lines| == height && Lines(lines, 3 * width)
  {
    var rows := RowsOf(rgb, height, 3 * width);
    seq(height, y requires 0 <= y < height => Scanline(0, rows[y]))
  }

  function HeaderData(width: nat, height: nat): (data: seq<Byte>)
    requires width < WORD && height < WORD
    ensures |data| == 13
  {
    Word(width) + Word(height) + [8, 2, 0, 0, 0]
  }

  ghost function PngChunks(lines: seq<Scanline>, width: nat, height: nat,
                           deflate: seq<Byte> -> seq<Byte>, crc: seq<Byte> -> nat): (cs: seq<Chunk>)
    requires width < WORD && height < WORD
  {
    var data := deflate(Stored(lines));
    [Chunk(IHDR, HeaderData(width, height), Word(crc(IHDR + HeaderData(width, height)) % WORD)),
     Chunk(IDAT, data, Word(crc(IDAT + data) % WORD)),
     Chunk(IEND, [], Word(crc(IEND) % WORD))]
  }

  lemma HeaderRead(width: nat, height: nat)
    requires width < WORD && height < WORD
    ensures ReadHeader(HeaderData(width, height)) ==
      if width == 0 || height == 0 then Err(ZeroSize) else Ok(Header(width, height, 8, 2, 0))
  {
    var data := HeaderData(width, height);
    WordRoundTrip(width);
    WordRoundTrip(height);
    assert data[..4] == Word(width) && data[4..][..4] == Word(height);
    assert ReadWord(data) == ReadWord(data[..4]) && ReadWord(data[4..]) == ReadWord(data[4..][..4]);
  }

  /** Eight bits a sample, truecolour, and the only compression, filtering and order of lines there are. */
  lemma HeaderWritten(width: nat, height: nat)
    requires width < WORD && height < WORD
    ensures var data := HeaderData(width, height);
      && ReadWord(data[0..4]) == width && ReadWord(data[4..8]) == height
      && data[8] == 8 && data[9] == 2 && data[10] == data[11] == data[12] == 0
  {
    var data := HeaderData(width, height);
    WordRoundTrip(width);
    WordRoundTrip(height);
    assert data[0..4] == Word(width) && data[4..8] == Word(height);
  }

  /** The stored scanlines of flat RGB, filtered line by line. */
  function FilteredLines(rgb: seq<Byte>, width: nat, height: nat, filters: seq<Byte>): (lines: seq<Scanline>)
    requires |rgb| == height * (3 * width) && |filters| == height
    ensures |lines| == height && Lines(lines, 3 * width)
  {
    Filter(RowsOf(rgb, height, 3 * width), filters, 3 * width, 3)
  }

  lemma PlainIsFilterZero(rgb: seq<Byte>, width: nat, height: nat)
    requires |rgb| == height * (3 * width)
    ensures PlainLines(rgb, width, height) == FilteredLines(rgb, width, height, Zeros(height))
  {
    hide Above, RowsOf;
    var rows := RowsOf(rgb, height, 3 * width);
    forall y | 0 <= y < height ensures FilterLine(0, rows[y], Above(rows, y, 3 * width), 3) == rows[y] {
    }
  }

  lemma OnlyKnownFilters(rgb: seq<Byte>, width: nat, height: nat, filters: seq<Byte>)
    requires |rgb| == height * (3 * width)
    requires |filters| == height && forall y :: 0 <= y < |filters| ==> filters[y] <= 4
    ensures UnknownFrom(FilteredLines(rgb, width, height, filters), 0) == None
  {
    AllKnown(FilteredLines(rgb, width, height, filters));
  }

  lemma FilteredPixels(rgb: seq<Byte>, h: Header, found: Found, filters: seq<Byte>)
    requires |rgb| == h.height * (3 * h.width) && h.colourType == 2 && h.bitDepth == 8 && h.interlace == 0
    requires |filters| == h.height && forall y :: 0 <= y < |filters| ==> filters[y] <= 4
    ensures Pixels(Stored(FilteredLines(rgb, h.width, h.height, filters)), h, found) == Ok(rgb)
  {
    hide Flat, Unfilter, RgbImage, Stored, RowsOf, Filter, ScanlinesOf, UnknownFrom;
    var l := LayoutOf(h, found);
    var lines := FilteredLines(rgb, h.width, h.height, filters);
    assert Stride(l) == 3 * h.width && BytesPerPixel(l) == 3;
    StoredScanlines(lines, 3 * h.width);
    OnlyKnownFilters(rgb, h.width, h.height, filters);
    UnfilterUndoesFilter(RowsOf(rgb, h.height, 3 * h.width), filters, 3 * h.width, 3);
    LayoutIsUsable(h, found);
    TruecolourImage(Unfilter(lines, 3 * h.width, 3), l);
    FlatOfRows(rgb, h.height, 3 * h.width);
  }

  /**
   Flat RGB written as a PNG, whichever filter is chosen for each line, is read back as the
   same RGB for every width and height the header can hold; it is refused exactly when one
   of them is zero.
   */
  lemma DecodeUndoesFilteredEncode(rgb: seq<Byte>, width: nat, height: nat, filters: seq<Byte>,
                                   deflate: seq<Byte> -> seq<Byte>, inflate: seq<Byte> -> Option<seq<Byte>>,
                                   crc: seq<Byte> -> nat)
    requires |rgb| == height * (3 * width) && width < WORD && height < WORD
    requires |filters| == height && forall y :: 0 <= y < |filters| ==> filters[y] <= 4
    requires forall raw :: inflate(deflate(raw)) == Some(raw)
    requires |deflate(Stored(FilteredLines(rgb, width, height, filters)))| < WORD
    ensures var cs := PngChunks(FilteredLines(rgb, width, height, filters), width, height, deflate, crc);
      && AllLayable(cs)
      && Decode(FileOf(cs, []), inflate) ==
         if width == 0 || height == 0 then Err(ZeroSize) else Ok(Image(width, height, rgb, false, 2, 8))
  {
    hide Decode, FileOf, Pixels, Stored, FilteredLines, HeaderData, ReadHeader, MeetAll;
    var lines := FilteredLines(rgb, width, height, filters);
    var cs := PngChunks(lines, width, height, deflate, crc);
    DecodeOfChunks(cs, [], inflate);
    HeaderRead(width, height);
    EncodedChunksMet(cs);
    if width > 0 && height > 0 {
      var h: Header := Header(width, height, 8, 2, 0);
      var raw := Stored(lines);
      var found := Found(Some(h), None, None, [deflate(raw)]);
      FilteredPixels(rgb, h, found, filters);
      assert Joined([deflate(raw)]) == deflate(raw);
    }
  }

  /** What the repository's own encoder writes, which filters nothing, the decoder reads back. */
  lemma DecodeUndoesEncode(rgb: seq<Byte>, width: nat, height: nat, deflate: seq<Byte> -> seq<Byte>,
                           inflate: seq<Byte> -> Option<seq<Byte>>, crc: seq<Byte> -> nat)
    requires |rgb| == height * (3 * width) && width < WORD && height < WORD
    requires forall raw :: inflate(deflate(raw)) == Some(raw)
    requires |deflate(Stored(PlainLines(rgb, width, height)))| < WORD
    ensures var cs := PngChunks(PlainLines(rgb, width, height), width, height, deflate, crc);
      && AllLayable(cs)
      && Decode(FileOf(cs, []), inflate) ==
         if width == 0 || height == 0 then Err(ZeroSize) else Ok(Image(width, height, rgb, false, 2, 8))
  {
    hide Decode, FileOf, PngChunks, PlainLines, FilteredLines, Stored;
    PlainIsFilterZero(rgb, width, height);
    DecodeUndoesFilteredEncode(rgb, width, height, Zeros(height), deflate, inflate, crc);
  }

  /** The walk over a header, one piece of image data and an end. */
  lemma EncodedChunksMet(cs: seq<Chunk>)
    requires |cs| == 3 && cs[0].kind == IHDR && cs[1].kind == IDAT && cs[2].kind == IEND
    ensures MeetAll(Going(NOTHING), cs) ==
      match ReadHeader(cs[0].data)
      case Err(e) => Failed(e)
      case Ok(h) => Ended(Found(Some(h), None, None, [cs[1].data]))
  {
    hide ReadHeader;
    assert Name(IHDR) == IHDR && Name(IDAT) == IDAT && Name(IEND) == IEND;
    var s := Meet(NOTHING, Name(cs[0].kind), cs[0].data);
    if s.Going? {
      var t := Meet(s.found, Name(cs[1].kind), cs[1].data);
      assert MeetAll(t, cs[2..]) == Ended(t.found);
    }
  }
}
