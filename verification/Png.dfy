/**
 Probe images: PNG chunks (W3C PNG Specification, Second Edition, section 5.3) and one
 solid-colour raster.  Compression is a pair of functions that undo each other.
 */
module Png {
  import opened Wrappers
  import Crc
  import Octets

  type Bytes = seq<bv8>

  const WORD: nat := 0x1_0000_0000

  // ---------------------------------------------------------------- 32-bit big-endian numbers

  function Be32(n: nat): Bytes
    requires n < WORD
  {
    [(n / 0x1000000) as bv8, (n / 0x10000 % 0x100) as bv8, (n / 0x100 % 0x100) as bv8, (n % 0x100) as bv8]
  }

  function FromBe32(s: Bytes): nat
    requires |s| == 4
  {
    s[0] as nat * 0x1000000 + s[1] as nat * 0x10000 + s[2] as nat * 0x100 + s[3] as nat
  }

  lemma Be32Reads(n: nat)
    requires n < WORD
    ensures FromBe32(Be32(n)) == n
  {
    Octets.ByteOfNumber(n / 0x1000000);
    Octets.ByteOfNumber(n / 0x10000 % 0x100);
    Octets.ByteOfNumber(n / 0x100 % 0x100);
    Octets.ByteOfNumber(n % 0x100);
    var a, b, c := n / 0x100, n / 0x10000, n / 0x1000000;
    assert b == a / 0x100 && c == b / 0x100;
    assert n == a * 0x100 + n % 0x100 && a == b * 0x100 + a % 0x100 && b == c * 0x100 + b % 0x100;
  }

  // ---------------------------------------------------------------- chunks

  function ChecksumOf(body: Bytes): (n: nat)
    ensures n < WORD
  {
    Crc.Checksum(body) as nat
  }

  lemma ChecksumsDiffer(a: Bytes, b: Bytes)
    requires Crc.Checksum(a) != Crc.Checksum(b)
    ensures ChecksumOf(a) != ChecksumOf(b)
  {
    hide Crc.Checksum;
    assert (Crc.Checksum(a) as nat) as bv32 == Crc.Checksum(a);
    assert (Crc.Checksum(b) as nat) as bv32 == Crc.Checksum(b);
  }

  /** Length of the data, kind, data, checksum of kind and data. */
  function Chunk(kind: Bytes, data: Bytes): Bytes
    requires |kind| == 4 && |data| < WORD
  {
    Be32(|data|) + kind + data + Be32(ChecksumOf(kind + data))
  }

  datatype Parsed = Parsed(kind: Bytes, data: Bytes, rest: Bytes)

  function ParseChunk(s: Bytes): Option<Parsed> {
    if |s| < 12 then None else
    var n := FromBe32(s[..4]);
    if |s| < 12 + n || FromBe32(s[8 + n..12 + n]) != ChecksumOf(s[4..8 + n]) then None
    else Some(Parsed(s[4..8], s[8..8 + n], s[12 + n..]))
  }

  /** A reader gets back what was framed, whatever follows it. */
  lemma ChunkReads(kind: Bytes, data: Bytes, rest: Bytes)
    requires |kind| == 4 && |data| < WORD
    ensures ParseChunk(Chunk(kind, data) + rest) == Some(Parsed(kind, data, rest))
  {
    hide ChecksumOf, Be32, FromBe32;
    var s, n := Chunk(kind, data) + rest, |data|;
    Be32Reads(n);
    Be32Reads(ChecksumOf(kind + data));
    BeLength(n);
    BeLength(ChecksumOf(kind + data));
    assert s[..4] == Be32(n);
    assert s[4..8 + n] == kind + data;
    assert s[4..8] == kind && s[8..8 + n] == data;
    assert s[8 + n..12 + n] == Be32(ChecksumOf(kind + data));
    assert s[12 + n..] == rest;
  }

  lemma BeLength(n: nat)
    requires n < WORD
    ensures |Be32(n)| == 4
  {
  }

  /** A chunk whose kind or data changed inside a window of four bytes is refused. */
  lemma DamageIsRefused(kind: Bytes, data: Bytes, rest: Bytes, before: Bytes, v: Bytes, w: Bytes, after: Bytes)
    requires |kind| == 4 && |data| < WORD
    requires kind + data == before + v + after && |v| == |w| <= 4 && v != w
    ensures ParseChunk(Be32(|data|) + (before + w + after) + Be32(ChecksumOf(kind + data)) + rest) == None
  {
    hide ChecksumOf, Be32, FromBe32;
    var n, damaged := |data|, before + w + after;
    var s := Be32(n) + damaged + Be32(ChecksumOf(kind + data)) + rest;
    Be32Reads(n);
    Be32Reads(ChecksumOf(kind + data));
    BeLength(n);
    BeLength(ChecksumOf(kind + data));
    Crc.WindowDetected(before, v, w, after);
    ChecksumsDiffer(kind + data, damaged);
    assert |damaged| == n + 4;
    assert s[..4] == Be32(n);
    assert s[4..8 + n] == damaged;
    assert s[8 + n..12 + n] == Be32(ChecksumOf(kind + data));
  }

  // ---------------------------------------------------------------- the raster

  datatype Colour = Colour(red: bv8, green: bv8, blue: bv8)

  function Pixels(n: nat, c: Colour): (s: Bytes)
    ensures |s| == 3 * n
  {
    if n == 0 then [] else Pixels(n - 1, c) + [c.red, c.green, c.blue]
  }

  function Row(width: nat, c: Colour): (s: Bytes)
    ensures |s| == 3 * width + 1
  {
    [0] + Pixels(width, c)
  }

  function Raster(width: nat, height: nat, c: Colour): (s: Bytes)
    ensures |s| == height * (3 * width + 1)
  {
    if height == 0 then [] else
    MulStep(height, 3 * width + 1);
    Raster(width, height - 1, c) + Row(width, c)
  }

  lemma MulStep(y: nat, stride: nat)
    requires y > 0
    ensures y * stride == (y - 1) * stride + stride
  {
  }

  lemma {:induction false} PixelAt(n: nat, c: Colour, x: nat)
    requires x < n
    ensures Pixels(n, c)[3 * x] == c.red && Pixels(n, c)[3 * x + 1] == c.green && Pixels(n, c)[3 * x + 2] == c.blue
  {
    if x == n - 1 {
    } else {
      PixelAt(n - 1, c, x);
    }
  }

  lemma {:induction false} MulLess(y: nat, height: nat, stride: nat)
    requires y < height
    ensures y * stride + stride <= height * stride
    decreases height
  {
    MulStep(height, stride);
    if y == height - 1 {
    } else {
      MulLess(y, height - 1, stride);
    }
  }

  /** Every row of the raster starts with filter byte 0 and holds the colour in each pixel. */
  lemma {:induction false} RasterAt(width: nat, height: nat, c: Colour, x: nat, y: nat)
    requires y < height
    ensures var row, s := y * (3 * width + 1), Raster(width, height, c);
            && row + 3 * width < |s| && s[row] == 0
            && (x < width ==>
                  s[row + 1 + 3 * x] == c.red && s[row + 2 + 3 * x] == c.green && s[row + 3 + 3 * x] == c.blue)
    decreases height
  {
    MulLess(y, height, 3 * width + 1);
    MulStep(height, 3 * width + 1);
    if y < height - 1 {
      RasterAt(width, height - 1, c, x, y);
    } else if x < width {
      PixelAt(width, c, x);
    }
  }

  lemma RasterGrows(width: nat, y: nat, c: Colour)
    ensures Raster(width, y + 1, c) == Raster(width, y, c) + Row(width, c)
  {
  }

  lemma EmptyRaster(width: nat, c: Colour)
    ensures Raster(width, 0, c) == []
  {
  }

  lemma RowStart(width: nat, c: Colour)
    ensures Row(width, c)[0] == 0
  {
  }

  lemma RowAt(width: nat, c: Colour, x: nat)
    requires x < width
    ensures var line := Row(width, c);
            line[3 * x + 1] == c.red && line[3 * x + 2] == c.green && line[3 * x + 3] == c.blue
  {
    PixelAt(width, c, x);
    hide Pixels;
  }

  predicate InOrder(written: seq<nat>, first: nat) { forall k :: 0 <= k < |written| ==> written[k] == first + k }

  /** The inner loop of the raster: one row, left to right. */
  method FillRow(raw: array<bv8>, row: nat, width: nat, c: Colour) returns (ghost written: seq<nat>)
    requires row + 3 * width + 1 <= raw.Length
    modifies raw
    ensures raw[..row] == old(raw[..row]) && raw[row..row + 3 * width + 1] == Row(width, c)
    ensures |written| == 3 * width + 1 && InOrder(written, row)
  {
    hide Row, Pixels;
    ghost var line := Row(width, c);
    RowStart(width, c);
    raw[row] := 0;
    written := [row];
    var x := 0;
    while x < width
      invariant x <= width && |written| == 1 + 3 * x && InOrder(written, row)
      invariant forall i :: 0 <= i < row ==> raw[i] == old(raw[i])
      invariant forall i :: 0 <= i < 1 + 3 * x ==> raw[row + i] == line[i]
    {
      var at := row + 1 + x * 3;
      RowAt(width, c, x);
      raw[at] := c.red;
      raw[at + 1] := c.green;
      raw[at + 2] := c.blue;
      written := written + [at, at + 1, at + 2];
      x := x + 1;
    }
  }

  /** The outer loop.  `written` lists the places written, in order: each byte of the buffer is
      written exactly once. */
  method FillRaster(width: nat, height: nat, c: Colour) returns (raw: array<bv8>, ghost written: seq<nat>)
    ensures fresh(raw) && raw[..] == Raster(width, height, c)
    ensures |written| == raw.Length && InOrder(written, 0)
  {
    hide Raster, Row;
    var stride := width * 3 + 1;
    raw := new bv8[stride * height](_ => 0);
    written := [];
    EmptyRaster(width, c);
    var y := 0;
    while y < height
      invariant y <= height && |written| == y * stride <= raw.Length && InOrder(written, 0)
      invariant raw[..y * stride] == Raster(width, y, c)
    {
      var row := y * stride;
      MulLess(y, height, stride);
      MulStep(y + 1, stride);
      RasterGrows(width, y, c);
      ghost var above := raw[..row];
      ghost var more := FillRow(raw, row, width, c);
      written := written + more;
      assert raw[..row + stride] == above + raw[row..row + stride];
      y := y + 1;
    }
    assert raw[..] == raw[..y * stride];
  }

  // ---------------------------------------------------------------- the whole file

  const SIGNATURE: Bytes := [0x89, 0x50, 0x4E, 0x47, 0x0D, 0x0A, 0x1A, 0x0A]
  const IHDR: Bytes := [0x49, 0x48, 0x44, 0x52]
  const IDAT: Bytes := [0x49, 0x44, 0x41, 0x54]
  const IEND: Bytes := [0x49, 0x45, 0x4E, 0x44]

  function Header(width: nat, height: nat): Bytes
    requires width < WORD && height < WORD
  {
    Be32(width) + Be32(height) + [8, 2, 0, 0, 0]
  }

  function File(width: nat, height: nat, packed: Bytes): Bytes
    requires width < WORD && height < WORD && |packed| < WORD
  {
    SIGNATURE + Chunk(IHDR, Header(width, height)) + Chunk(IDAT, packed) + Chunk(IEND, [])
  }

  datatype Image = Image(width: nat, height: nat, raw: Bytes)

  predicate Unfiltered(i: Image) {
    && |i.raw| == i.height * (3 * i.width + 1)
    && forall y :: 0 <= y < i.height ==> FilterOf(i, y) == Some(0)
  }

  function FilterOf(i: Image, y: nat): Option<bv8> {
    var row := y * (3 * i.width + 1);
    if row < |i.raw| then Some(i.raw[row]) else None
  }

  function PixelOf(i: Image, x: nat, y: nat): Option<Colour> {
    var at := y * (3 * i.width + 1) + 1 + 3 * x;
    if at + 2 < |i.raw| then Some(Colour(i.raw[at], i.raw[at + 1], i.raw[at + 2])) else None
  }

  function ReadHeader(s: Bytes): Option<(nat, nat)> {
    if |s| == 13 && s[8..] == [8, 2, 0, 0, 0] then Some((FromBe32(s[..4]), FromBe32(s[4..8]))) else None
  }

  /** A reader of truecolour files with one data chunk and no row filters. */
  function ReadFile(s: Bytes, inflate: Bytes -> Option<Bytes>): Option<Image> {
    if !(SIGNATURE <= s) then None else
    var header := ParseChunk(s[8..]);
    if header == None || header.value.kind != IHDR then None else
    var size := ReadHeader(header.value.data);
    var data := ParseChunk(header.value.rest);
    if size == None || data == None || data.value.kind != IDAT then None else
    var raw := inflate(data.value.data);
    var end := ParseChunk(data.value.rest);
    if raw == None || end != Some(Parsed(IEND, [], [])) then None else
    var image := Image(size.value.0, size.value.1, raw.value);
    if Unfiltered(image) then Some(image) else None
  }

  /** What a reader got is an image of that size with that colour in every pixel. */
  predicate Shows(image: Option<Image>, width: nat, height: nat, c: Colour) {
    && image.Some? && image.value.width == width && image.value.height == height
    && forall x, y :: 0 <= x < width && 0 <= y < height ==> PixelOf(image.value, x, y) == Some(c)
  }

  lemma HeaderReads(width: nat, height: nat)
    requires width < WORD && height < WORD
    ensures |Header(width, height)| == 13 && ReadHeader(Header(width, height)) == Some((width, height))
  {
    hide Be32, FromBe32;
    Be32Reads(width);
    Be32Reads(height);
    BeLength(width);
    BeLength(height);
    var s := Header(width, height);
    assert s[..4] == Be32(width) && s[4..8] == Be32(height) && s[8..] == [8, 2, 0, 0, 0];
  }

  lemma RasterIsUnfiltered(width: nat, height: nat, c: Colour)
    ensures Unfiltered(Image(width, height, Raster(width, height, c)))
  {
    var i := Image(width, height, Raster(width, height, c));
    forall y | 0 <= y < height ensures FilterOf(i, y) == Some(0) {
      RasterAt(width, height, c, 0, y);
    }
  }

  /** Whatever compression is used, as long as it can be undone, reading the file gives back
      the size and, in every pixel, the colour. */
  lemma FileReads(width: nat, height: nat, c: Colour, packed: Bytes, inflate: Bytes -> Option<Bytes>)
    requires width < WORD && height < WORD && |packed| < WORD
    requires inflate(packed) == Some(Raster(width, height, c))
    ensures Shows(ReadFile(File(width, height, packed), inflate), width, height, c)
  {
    hide Chunk, ParseChunk, ReadHeader, Header, Raster, Unfiltered;
    var s := File(width, height, packed);
    HeaderReads(width, height);
    var tail := Chunk(IEND, []);
    var rest := Chunk(IDAT, packed) + tail;
    ChunkReads(IHDR, Header(width, height), rest);
    ChunkReads(IDAT, packed, tail);
    ChunkReads(IEND, [], []);
    assert tail + [] == tail;
    assert s == SIGNATURE + (Chunk(IHDR, Header(width, height)) + rest);
    assert s[8..] == Chunk(IHDR, Header(width, height)) + rest;
    RasterIsUnfiltered(width, height, c);
    var image := ReadFile(s, inflate);
    forall x, y | 0 <= x < width && 0 <= y < height ensures PixelOf(image.value, x, y) == Some(c) {
      RasterAt(width, height, c, x, y);
    }
  }

  method MakeChunk(table: array<bv32>, kind: Bytes, data: Bytes) returns (s: Bytes)
    requires Crc.IsTable(table[..]) && |kind| == 4 && |data| < WORD
    ensures s == Chunk(kind, data)
  {
    hide Crc.Checksum, Be32;
    var body := kind + data;
    var crc := Crc.Crc32(table, body);
    s := Be32(|data|) + body + Be32(crc as nat);
    assert Be32(|data|) + kind + data == Be32(|data|) + body;
  }

  /** The probe image, with `deflate` for the compressor: whoever can undo what it did to this
      raster reads back the size and the colour. */
  method SolidPng(table: array<bv32>, width: nat, height: nat, c: Colour, deflate: Bytes -> Bytes) returns (s: Bytes)
    requires Crc.IsTable(table[..]) && width < WORD && height < WORD
    requires |deflate(Raster(width, height, c))| < WORD
    ensures s == File(width, height, deflate(Raster(width, height, c)))
    ensures forall inflate: Bytes -> Option<Bytes> ::
              inflate(deflate(Raster(width, height, c))) == Some(Raster(width, height, c)) ==>
                Shows(ReadFile(s, inflate), width, height, c)
  {
    hide Chunk, Raster, Header, ReadFile, Shows;
    var raw, written := FillRaster(width, height, c);
    HeaderReads(width, height);
    var ihdr := MakeChunk(table, IHDR, Header(width, height));
    var idat := MakeChunk(table, IDAT, deflate(raw[..]));
    var iend := MakeChunk(table, IEND, []);
    s := SIGNATURE + ihdr + idat + iend;
    ghost var packed := deflate(Raster(width, height, c));
    forall inflate: Bytes -> Option<Bytes> | inflate(packed) == Some(Raster(width, height, c))
      ensures Shows(ReadFile(s, inflate), width, height, c)
    {
      FileReads(width, height, c, packed, inflate);
    }
  }
}
