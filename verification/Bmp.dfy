// The BMP writer and reader: what is written is read back.
module Bmp {

  type Byte = b: int | 0 <= b < 256

  const EOF := -1
  const WORDS := 0x1_0000_0000

  // What fgetc returns at this place of a file, EOF behind its end.
  function At(bytes: seq<Byte>, v: nat): int {
    if v < |bytes| then bytes[v] else EOF
  }

  // A file open for writing at its end or for reading at pos.
  class Stream {
    var bytes: seq<Byte>
    var pos: nat

    constructor ()
      ensures bytes == [] && pos == 0
    {
      bytes, pos := [], 0;
    }

    ghost predicate Valid()
      reads this
    {
      pos <= |bytes|
    }

    // The reader has asked for all bytes before v, whether they were there or not.
    ghost predicate ReadTo(v: nat)
      reads this
    {
      pos == if v < |bytes| then v else |bytes|
    }

    // fputc converts its argument to unsigned char.
    method Put(c: int)
      requires Valid()
      modifies this`bytes
      ensures Valid() && bytes == old(bytes) + [c % 256]
    {
      bytes := bytes + [c % 256];
    }

    method Get() returns (c: int)
      requires Valid()
      modifies this`pos
      ensures Valid() && pos == (if old(pos) < |bytes| then old(pos) + 1 else old(pos))
      ensures c == At(bytes, old(pos))
    {
      if pos < |bytes| {
        c, pos := bytes[pos], pos + 1;
      } else {
        c := EOF;
      }
    }

    // fseek from the start of the file
    method Seek(at: nat)
      requires at <= |bytes|
      modifies this`pos
      ensures Valid() && pos == at
    {
      pos := at;
    }
  }

  // ---- little-endian integers ----

  function Le16(bytes: seq<Byte>, at: nat): int
    requires at + 2 <= |bytes|
  {
    (bytes[at] as int) + 256 * (bytes[at + 1] as int)
  }

  function Le32(bytes: seq<Byte>, at: nat): int
    requires at + 4 <= |bytes|
  {
    Le16(bytes, at) + 65536 * Le16(bytes, at + 2)
  }

  // A C conversion of 32 bits to int.
  function Signed(w: int): int {
    if w < WORDS / 2 then w else w - WORDS
  }

  ghost function Bytes16(v: int): (s: seq<Byte>)
    ensures |s| == 2
  {
    [v % 256, v / 256 % 256]
  }

  ghost function Bytes32(v: int): (s: seq<Byte>)
    ensures |s| == 4
  {
    Bytes16(v) + Bytes16(v / 65536)
  }

  lemma Halves(v: int)
    ensures v % 256 + 256 * (v / 256 % 256) == v % 65536
  {
    var q := v / 65536;
    var lo := v - 65536 * q;
    assert 0 <= lo < 65536 && v % 65536 == lo;
    assert v == 256 * (256 * q) + lo;
    DivAdds(256 * q, lo);
    DivAdds(q, lo / 256);
  }

  // The bytes of a number, the lowest first, give it back.
  lemma Bytes32RoundTrip(v: int)
    requires 0 <= v < WORDS
    ensures Le32(Bytes32(v), 0) == v
    ensures Bytes32(v) == [v % 256, v / 256 % 256, v / 65536 % 256, v / 65536 / 256 % 256]
  {
    Halves(v);
    Halves(v / 65536);
    var b := Bytes32(v);
    assert b[0] == v % 256 && b[1] == v / 256 % 256;
    assert b[2] == v / 65536 % 256 && b[3] == v / 65536 / 256 % 256;
    assert v / 65536 % 65536 == v / 65536;
  }

  // write_u_short_int and write_u_long_int with byte_swap set
  method WriteShort(f: Stream, v: int)
    requires f.Valid()
    modifies f`bytes
    ensures f.Valid() && f.bytes == old(f.bytes) + Bytes16(v)
  {
    f.Put(v % 256);
    f.Put(v / 256);
  }

  method WriteLong(f: Stream, v: int)
    requires f.Valid()
    modifies f`bytes
    ensures f.Valid() && f.bytes == old(f.bytes) + Bytes32(v)
  {
    LowHalf(v);
    WriteShort(f, v % 65536);
    WriteShort(f, v / 65536);
  }

  lemma LowHalf(v: int)
    ensures Bytes16(v % 65536) == Bytes16(v)
  {
    SplitHalves(v / 65536, v % 65536);
    assert v == 65536 * (v / 65536) + v % 65536;
  }

  lemma SplitHalves(hi: int, lo: int)
    ensures (65536 * hi + lo) % 256 == lo % 256
    ensures (65536 * hi + lo) / 256 % 256 == lo / 256 % 256
  {
    DivAdds(256 * hi, lo);
    DivAdds(hi, lo / 256);
  }

  lemma DivAdds(k: int, r: int)
    ensures (256 * k + r) / 256 == k + r / 256 && (256 * k + r) % 256 == r % 256
  {
  }

  // read_u_short_int and read_u_long_int: err is 1 at the end of the file
  method ReadShort(f: Stream) returns (err: int, v: int)
    requires f.Valid()
    modifies f`pos
    ensures f.Valid() && (err == 0 <==> old(f.pos) + 2 <= |f.bytes|) && (err == 0 || err == 1)
    ensures err == 0 ==> v == Le16(f.bytes, old(f.pos)) && f.pos == old(f.pos) + 2
  {
    v := 0;
    var lo := f.Get();
    if lo == EOF {
      return 1, v;
    }
    var hi := f.Get();
    if hi == EOF {
      return 1, v;
    }
    err, v := 0, 256 * hi + lo;
  }

  method ReadLong(f: Stream) returns (err: int, v: int)
    requires f.Valid()
    modifies f`pos
    ensures f.Valid() && (err == 0 <==> old(f.pos) + 4 <= |f.bytes|) && (err == 0 || err == 1)
    ensures err == 0 ==> v == Le32(f.bytes, old(f.pos)) && f.pos == old(f.pos) + 4
  {
    v := 0;
    var lo, hi;
    err, lo := ReadShort(f);
    if err != 0 {
      return 1, v;
    }
    err, hi := ReadShort(f);
    if err != 0 {
      return 1, v;
    }
    v := 65536 * hi + lo;
  }

  // ---- the header ----

  // The size field. It counts no padding.
  function SizeField(x: int, y: int): int {
    3 * x * y + 54
  }

  ghost function Header(x: int, y: int): seq<Byte> {
    FileHeader(x, y) + BitmapHeader(x, y)
  }

  // "BM", file size, two reserved fields, where the pixels start
  ghost function FileHeader(x: int, y: int): seq<Byte> {
    [66, 77] + Bytes32(SizeField(x, y)) + Bytes16(0) + Bytes16(0) + Bytes32(54)
  }

  // size of this part, width, height, planes, bits per pixel, six unused fields
  ghost function BitmapHeader(x: int, y: int): seq<Byte> {
    Dimensions(x, y) + (Bytes16(1) + Bytes16(24) + Zeros32(6))
  }

  ghost function Dimensions(x: int, y: int): (s: seq<Byte>)
    ensures |s| == 12
  {
    Bytes32(40) + Bytes32(x) + Bytes32(y)
  }

  method WriteHeader(f: Stream, x: int, y: int)
    requires f.Valid()
    modifies f`bytes
    ensures f.Valid() && f.bytes == old(f.bytes) + Header(x, y)
  {
    WriteFileHeader(f, x, y);
    WriteBitmapHeader(f, x, y);
    Assoc(old(f.bytes), FileHeader(x, y), BitmapHeader(x, y));
  }

  method WriteFileHeader(f: Stream, x: int, y: int)
    requires f.Valid()
    modifies f`bytes
    ensures f.Valid() && f.bytes == old(f.bytes) + FileHeader(x, y)
  {
    f.Put('B' as int);
    f.Put('M' as int);
    hide Bytes32, Bytes16;
    WriteLong(f, SizeField(x, y));
    WriteShort(f, 0);
    WriteShort(f, 0);
    WriteLong(f, 54);
    assert f.bytes == old(f.bytes) + FileHeader(x, y);
  }

  method WriteBitmapHeader(f: Stream, x: int, y: int)
    requires f.Valid()
    modifies f`bytes
    ensures f.Valid() && f.bytes == old(f.bytes) + BitmapHeader(x, y)
  {
    hide Bytes16, Zeros32, Dimensions;
    WriteDimensions(f, x, y);
    WriteShort(f, 1);
    WriteShort(f, 24);
    WriteZeros(f);
    assert f.bytes == old(f.bytes) + BitmapHeader(x, y);
  }

  method WriteDimensions(f: Stream, x: int, y: int)
    requires f.Valid()
    modifies f`bytes
    ensures f.Valid() && f.bytes == old(f.bytes) + Dimensions(x, y)
  {
    hide Bytes32;
    WriteLong(f, 40);
    WriteLong(f, x);
    WriteLong(f, y);
  }

  method WriteZeros(f: Stream)
    requires f.Valid()
    modifies f`bytes
    ensures f.Valid() && f.bytes == old(f.bytes) + Zeros32(6)
  {
    hide Bytes32;
    for i := 0 to 6
      invariant f.Valid() && f.bytes == old(f.bytes) + Zeros32(i)
    {
      WriteLong(f, 0);
      Assoc(old(f.bytes), Zeros32(i), Bytes32(0));
    }
  }

  lemma Assoc(a: seq<Byte>, b: seq<Byte>, c: seq<Byte>)
    ensures (a + b) + c == a + (b + c)
  {
  }

  ghost function Zeros32(n: nat): (s: seq<Byte>)
    ensures |s| == 4 * n && forall i :: 0 <= i < 4 * n ==> s[i] == 0
  {
    if n == 0 then [] else Zeros32(n - 1) + Bytes32(0)
  }

  // bmp_read_header: succeeds exactly on files of at least 54 bytes that begin with "BM", and returns the
  // fields at their places.
  method ReadHeader(f: Stream) returns (err: int, x: int, y: int, offset: int)
    requires f.Valid() && f.pos == 0
    modifies f`pos
    ensures f.Valid() && (err == 0 || err == 1)
    ensures err == 0 <==> |f.bytes| >= 54 && f.bytes[0] == 'B' as int && f.bytes[1] == 'M' as int
    ensures err == 0 ==>
              && x == Signed(Le32(f.bytes, 18)) && y == Signed(Le32(f.bytes, 22)) && offset == Signed(Le32(f.bytes, 10))
              && f.pos == 54
  {
    x, y, offset := 0, 0, 0;
    var c1 := f.Get();
    if c1 == EOF {
      return 1, x, y, offset;
    }
    var c2 := f.Get();
    if c2 == EOF {
      return 1, x, y, offset;
    }
    if c1 != 'B' as int || c2 != 'M' as int {
      return 1, x, y, offset;
    }
    hide Le32, Le16;
    var v;
    err, v := ReadLong(f);
    if err != 0 { return; }
    err, v := ReadShort(f);
    if err != 0 { return; }
    err, v := ReadShort(f);
    if err != 0 { return; }
    err, v := ReadLong(f);
    if err != 0 { return; }
    offset := Signed(v);
    err, v := ReadLong(f);
    if err != 0 { return; }
    err, v := ReadLong(f);
    if err != 0 { return; }
    x := Signed(v);
    err, v := ReadLong(f);
    if err != 0 { return; }
    y := Signed(v);
    err, v := ReadShort(f);
    if err != 0 { return; }
    err, v := ReadShort(f);
    if err != 0 { return; }
    for i := 0 to 6
      invariant f.Valid() && err == 0 && f.pos == 30 + 4 * i
    {
      err, v := ReadLong(f);
      if err != 0 { return; }
    }
  }

  // ---- the pixels ----

  datatype Image = Image(x: nat, y: nat, r: seq<Byte>, g: seq<Byte>, b: seq<Byte>)

  // n rows of width w; also where row n starts.
  function Span(n: nat, w: nat): nat {
    n * w
  }

  lemma {:induction false} SpanNext(n: nat, w: nat)
    ensures Span(n + 1, w) == Span(n, w) + w
  {
  }

  lemma {:induction false} SpanMonotone(n: nat, n': nat, w: nat)
    requires n <= n'
    ensures Span(n, w) <= Span(n', w)
    decreases n'
  {
    if n < n' {
      SpanMonotone(n, n' - 1, w);
      SpanNext(n' - 1, w);
    }
  }

  ghost predicate Fits(m: Image) {
    |m.r| == |m.g| == |m.b| == Span(m.y, m.x)
  }

  lemma RowFits(x: nat, y: nat, row: nat)
    requires row < y
    ensures Span(row, x) + x == Span(row + 1, x) <= Span(y, x)
  {
    SpanNext(row, x);
    SpanMonotone(row + 1, y, x);
  }

  function Padding(x: nat): nat {
    (4 - (3 * x) % 4) % 4
  }

  function Scanline(x: nat): nat {
    Padding(x) + 3 * x
  }

  // Each scanline has the row's three bytes per pixel, filled up to the next multiple of 4.
  lemma ScanlineAligned(x: nat)
    ensures Scanline(x) % 4 == 0 && 3 * x <= Scanline(x) < 3 * x + 4
  {
  }

  ghost function Zeros(n: nat): (z: seq<Byte>)
    ensures |z| == n && forall i :: 0 <= i < n ==> z[i] == 0
  {
    seq(n, _ => 0)
  }

  // n pixels from pixel k on, as blue, green, red.
  ghost function Pixels(m: Image, k: nat, n: nat): (p: seq<Byte>)
    requires Fits(m) && k + n <= Span(m.y, m.x)
    ensures |p| == 3 * n
    decreases n
  {
    if n == 0 then [] else [m.b[k], m.g[k], m.r[k]] + Pixels(m, k + 1, n - 1)
  }

  // The lowest rows of the image, the topmost of them first: a BMP file is upside down.
  ghost function Rows(m: Image, rows: nat): seq<Byte>
    requires Fits(m) && rows <= m.y
  {
    if rows == 0 then [] else
    RowFits(m.x, m.y, rows - 1);
    Pixels(m, Span(rows - 1, m.x), m.x) + Zeros(Padding(m.x)) + Rows(m, rows - 1)
  }

  // The whole file.
  ghost function FileOf(m: Image): seq<Byte>
    requires Fits(m)
  {
    Header(m.x, m.y) + Rows(m, m.y)
  }

  lemma {:induction false} RowsLength(m: Image, rows: nat)
    requires Fits(m) && rows <= m.y
    ensures |Rows(m, rows)| == Span(rows, Scanline(m.x))
  {
    hide Padding, Span;
    NoRows(Scanline(m.x));
    if rows > 0 {
      RowFits(m.x, m.y, rows - 1);
      RowsLength(m, rows - 1);
      SpanNext(rows - 1, Scanline(m.x));
    }
  }

  lemma NoRows(w: nat)
    ensures Span(0, w) == 0
  {
  }

  lemma {:induction false} PixelsAt(m: Image, k: nat, n: nat, j: nat)
    requires Fits(m) && k + n <= Span(m.y, m.x) && j < n
    ensures PixelIsAt(m, Pixels(m, k, n), 3 * j, k + j)
    decreases n
  {
    hide Span;
    if j > 0 {
      PixelsAt(m, k + 1, n - 1, j - 1);
      assert Pixels(m, k, n)[3..] == Pixels(m, k + 1, n - 1);
    }
  }

  // Where a pixel is: the row counted from the bottom, blue first.
  ghost predicate PixelIsAt(m: Image, bytes: seq<Byte>, at: nat, k: nat)
    requires Fits(m)
  {
    && at + 3 <= |bytes| && k < Span(m.y, m.x)
    && bytes[at] == m.b[k] && bytes[at + 1] == m.g[k] && bytes[at + 2] == m.r[k]
  }

  lemma {:induction false} PixelPlace(m: Image, rows: nat, row: nat, col: nat)
    requires Fits(m) && row < rows <= m.y && col < m.x
    ensures PixelIsAt(m, Rows(m, rows), Span(rows - 1 - row, Scanline(m.x)) + 3 * col, Span(row, m.x) + col)
    decreases rows
  {
    hide Pixels, Padding, Span;
    RowFits(m.x, m.y, row);
    RowFits(m.x, m.y, rows - 1);
    var line := Pixels(m, Span(rows - 1, m.x), m.x) + Zeros(Padding(m.x));
    var rest := Rows(m, rows - 1);
    assert Rows(m, rows) == line + rest && |line| == Scanline(m.x);
    if row == rows - 1 {
      NoRows(Scanline(m.x));
      PixelsAt(m, Span(row, m.x), m.x, col);
    } else {
      PixelPlace(m, rows - 1, row, col);
      SpanNext(rows - 2 - row, Scanline(m.x));
    }
  }

  method WriteData(f: Stream, m: Image)
    requires f.Valid() && Fits(m)
    modifies f`bytes
    ensures f.Valid() && f.bytes == old(f.bytes) + Rows(m, m.y)
  {
    hide Padding, Span, Pixels;
    ghost var start := f.bytes;
    var i := 0;
    while i < m.y
      invariant i <= m.y && f.Valid() && f.bytes + Rows(m, m.y - i) == start + Rows(m, m.y)
    {
      RowFits(m.x, m.y, m.y - i - 1);
      ghost var rest := Rows(m, m.y - i - 1);
      ghost var line := Pixels(m, Span(m.y - i - 1, m.x), m.x);
      ghost var before := f.bytes;
      WriteRow(f, m, Span(m.y - i - 1, m.x));
      Regroup(before, line, Zeros(Padding(m.x)), rest);
      i := i + 1;
    }
  }

  lemma Regroup(a: seq<Byte>, b: seq<Byte>, c: seq<Byte>, d: seq<Byte>)
    ensures a + (b + c + d) == (a + (b + c)) + d
  {
  }

  // One turn of the outer loop: the row of pixels from pixel k on, and its padding.
  method WriteRow(f: Stream, m: Image, k: nat)
    requires f.Valid() && Fits(m) && k + m.x <= Span(m.y, m.x)
    modifies f`bytes
    ensures f.Valid() && f.bytes == old(f.bytes) + (Pixels(m, k, m.x) + Zeros(Padding(m.x)))
  {
    ghost var start := f.bytes;
    var j := 0;
    while j < m.x
      invariant j <= m.x && f.Valid() && f.bytes + Pixels(m, k + j, m.x - j) == start + Pixels(m, k, m.x)
    {
      ghost var before := f.bytes;
      f.Put(m.b[k + j]);
      f.Put(m.g[k + j]);
      f.Put(m.r[k + j]);
      assert f.bytes == before + [m.b[k + j], m.g[k + j], m.r[k + j]];
      Assoc(before, [m.b[k + j], m.g[k + j], m.r[k + j]], Pixels(m, k + j + 1, m.x - j - 1));
      j := j + 1;
    }
    assert f.bytes == start + Pixels(m, k, m.x);
    WritePadding(f, m.x);
    Assoc(start, Pixels(m, k, m.x), Zeros(Padding(m.x)));
  }

  method WritePadding(f: Stream, x: nat)
    requires f.Valid()
    modifies f`bytes
    ensures f.Valid() && f.bytes == old(f.bytes) + Zeros(Padding(x))
  {
    for p := 0 to Scanline(x) - 3 * x
      invariant f.Valid() && f.bytes == old(f.bytes) + Zeros(p)
    {
      f.Put(0);
      assert Zeros(p) + [0] == Zeros(p + 1);
      Assoc(old(f.bytes), Zeros(p), [0]);
    }
  }

  // ---- reading the pixels ----

  // n pixels of the arrays from pixel k on are the bytes of the file from v on, blue first.
  ghost predicate PixelsRead(bytes: seq<Byte>, v: nat, b: seq<int>, g: seq<int>, r: seq<int>, k: nat, n: nat) {
    && k + n <= |b| && k + n <= |g| && k + n <= |r|
    && forall j :: 0 <= j < n ==> b[k + j] == At(bytes, v + 3 * j) && g[k + j] == At(bytes, v + 3 * j + 1)
                                  && r[k + j] == At(bytes, v + 3 * j + 2)
  }

  // A row of x pixels can be read from v on of a file of n bytes. k is its first pixel, first the value of the
  // red array's first element before: the check for the end of the file after a red byte looks there instead
  // of at the byte just read.
  predicate RowThere(n: nat, v: nat, x: nat, k: nat, first: int) {
    x == 0 || (n >= v + 3 * x - 1 && (if k == 0 then n >= v + 3 else first != EOF))
  }

  // The last byte bmp_read_data must find: all of the rows, but for the padding of the last row and, in images
  // wider than one pixel, its very last red byte.
  function Needed(x: nat, y: nat): nat
    requires x > 0 && y > 0
  {
    Span(y - 1, Scanline(x)) + 3 * x - (if x > 1 then 1 else 0)
  }

  // bmp_read_data, for any file and any arrays with room for the image: it succeeds exactly if the bytes it
  // needs are there and, for images of more than one row, the red array does not start out with EOF. Then every
  // entry is its byte of the file, and only the red entry at the end of the first row can be EOF.
  method ReadData(f: Stream, x: nat, y: nat, r: array<int>, g: array<int>, b: array<int>) returns (err: int)
    requires f.Valid() && r.Length >= Span(y, x) && g.Length >= Span(y, x) && b.Length >= Span(y, x)
    requires r != g && g != b && r != b
    modifies f`pos, r, g, b
    ensures f.Valid() && (err == 0 || err == 1)
    ensures err == 0 <==>
              || x == 0 || y == 0
              || (Span(y, x) > 0 && (y == 1 || old(r[..])[0] != EOF) && |f.bytes| - old(f.pos) >= Needed(x, y))
    ensures err == 0 ==> f.ReadTo(old(f.pos) + Span(y, Scanline(x)))
    ensures err == 0 ==> forall i: nat :: i < y ==>
              PixelsRead(f.bytes, old(f.pos) + Span(i, Scanline(x)), b[..], g[..], r[..], Span(y - 1 - i, x), x)
  {
    hide Padding, Span, PixelsRead, Scanline;
    ghost var start, n, first := f.pos, |f.bytes|, if r.Length > 0 then r[0] else 0;
    NoRows(Scanline(x));
    Pixelless(x, y);
    var i := 0;
    while i < y
      invariant i <= y && f.Valid() && f.ReadTo(start + Span(i, Scanline(x)))
      invariant i < y && r.Length > 0 ==> r[0] == first
      invariant forall l: nat :: l < i ==> RowThere(n, start + Span(l, Scanline(x)), x, Span(y - 1 - l, x), first)
      invariant forall l: nat :: l < i ==>
                  PixelsRead(f.bytes, start + Span(l, Scanline(x)), b[..], g[..], r[..], Span(y - 1 - l, x), x)
    {
      RowFits(x, y, y - i - 1);
      SpanNext(i, Scanline(x));
      Pixelless(x, y - 1 - i);
      ghost var b0, g0, r0 := b[..], g[..], r[..];
      err := ReadRow(f, x, Span(y - i - 1, x), r, g, b, start + Span(i, Scanline(x)));
      if err != 0 {
        RowMissing(n - start, x, y, i, first);
        return;
      }
      forall l: nat | l < i
        ensures PixelsRead(f.bytes, start + Span(l, Scanline(x)), b[..], g[..], r[..], Span(y - 1 - l, x), x)
      {
        SpanMonotone(y - i, y - 1 - l, x);
        StillRead(f.bytes, start + Span(l, Scanline(x)), b0, g0, r0, b[..], g[..], r[..], Span(y - 1 - l, x), x);
      }
      i := i + 1;
    }
    AllThere(n, start, x, y, first);
    err := 0;
  }

  // In a file of n bytes from here on that the reader accepts, every byte of every pixel is there, except that the
  // red byte at the end of the first row, the last one read, may be missing if the image is wider than one pixel.
  lemma OnlyLastRedMissing(n: nat, x: nat, y: nat, i: nat, j: nat)
    requires i < y && j < x && n >= Needed(x, y)
    ensures var v := Span(i, Scanline(x)) + 3 * j;
            v + 1 < n && (v + 2 >= n <==> i == y - 1 && j == x - 1 && x > 1 && n == Needed(x, y))
  {
    hide Span, Scanline;
    ScanlineAligned(x);
    if i < y - 1 {
      SpanNext(i, Scanline(x));
      SpanMonotone(i + 1, y - 1, Scanline(x));
    }
  }

  lemma StillRead(bytes: seq<Byte>, v: nat, b0: seq<int>, g0: seq<int>, r0: seq<int>, b: seq<int>, g: seq<int>, r: seq<int>, k: nat, n: nat)
    requires PixelsRead(bytes, v, b0, g0, r0, k, n) && |b| == |b0| && |g| == |g0| && |r| == |r0|
    requires forall q :: k <= q < |b| ==> b[q] == b0[q]
    requires forall q :: k <= q < |g| ==> g[q] == g0[q]
    requires forall q :: k <= q < |r| ==> r[q] == r0[q]
    ensures PixelsRead(bytes, v, b, g, r, k, n)
  {
  }

  // A row that is not there leaves the file, of n bytes from here on, short of what is needed.
  lemma RowMissing(n: int, x: nat, y: nat, i: nat, first: int)
    requires i < y && n >= 0 && !RowThere(n, Span(i, Scanline(x)), x, Span(y - 1 - i, x), first)
    ensures x > 0 && !((y == 1 || first != EOF) && n >= Needed(x, y))
  {
    hide Span, Scanline;
    Pixelless(x, y - 1 - i);
    SpanMonotone(i, y - 1, Scanline(x));
  }

  // All rows there means that what is needed is there.
  lemma AllThere(n: nat, start: nat, x: nat, y: nat, first: int)
    requires start <= n
    requires forall l: nat :: l < y ==> RowThere(n, start + Span(l, Scanline(x)), x, Span(y - 1 - l, x), first)
    ensures x == 0 || y == 0 || (Span(y, x) > 0 && (y == 1 || first != EOF) && n - start >= Needed(x, y))
  {
    hide Span, Scanline;
    Pixelless(x, y);
    if x > 0 && y > 0 {
      Pixelless(x, 0);
      assert RowThere(n, start + Span(y - 1, Scanline(x)), x, Span(y - 1 - (y - 1), x), first);
      if y > 1 {
        Pixelless(x, y - 1);
        assert RowThere(n, start + Span(0, Scanline(x)), x, Span(y - 1 - 0, x), first);
      }
    }
  }

  lemma Pixelless(x: nat, rows: nat)
    ensures Span(rows, x) == 0 <==> x == 0 || rows == 0
  {
  }

  // One turn of the outer loop: the row of pixels from pixel k on, and its padding.
  method ReadRow(f: Stream, x: nat, k: nat, r: array<int>, g: array<int>, b: array<int>, ghost v: nat) returns (err: int)
    requires f.Valid() && f.ReadTo(v) && k + x <= r.Length && k + x <= g.Length && k + x <= b.Length
    requires r != g && g != b && r != b
    modifies f`pos, r, g, b
    ensures f.Valid() && (err == 0 || err == 1)
    ensures err == 0 <==> RowThere(|f.bytes|, v, x, k, if r.Length > 0 then old(r[..])[0] else 0)
    ensures err == 0 ==> f.ReadTo(v + Scanline(x)) && PixelsRead(f.bytes, v, b[..], g[..], r[..], k, x)
    ensures forall q :: 0 <= q < r.Length && !(k <= q < k + x) ==> r[q] == old(r[q])
    ensures forall q :: 0 <= q < g.Length && !(k <= q < k + x) ==> g[q] == old(g[q])
    ensures forall q :: 0 <= q < b.Length && !(k <= q < k + x) ==> b[q] == old(b[q])
  {
    ghost var first := if r.Length > 0 then r[0] else 0;
    var j := 0;
    while j < x
      invariant j <= x && f.Valid() && f.ReadTo(v + 3 * j) && RowThere(|f.bytes|, v, j, k, first)
      invariant forall l :: 0 <= l < j ==> b[k + l] == At(f.bytes, v + 3 * l) && g[k + l] == At(f.bytes, v + 3 * l + 1)
                                           && r[k + l] == At(f.bytes, v + 3 * l + 2)
      invariant forall q :: 0 <= q < r.Length && !(k <= q < k + j) ==> r[q] == old(r[q])
      invariant forall q :: 0 <= q < g.Length && !(k <= q < k + j) ==> g[q] == old(g[q])
      invariant forall q :: 0 <= q < b.Length && !(k <= q < k + j) ==> b[q] == old(b[q])
    {
      assert k == 0 && j > 0 ==> r[k + 0] == At(f.bytes, v + 3 * 0 + 2);
      err := ReadPixel(f, k + j, r, g, b, v + 3 * j);
      if err != 0 {
        return;
      }
      j := j + 1;
    }
    SkipPadding(f, x, v + 3 * x);
    err := 0;
  }

  // One turn of the inner loop.
  method ReadPixel(f: Stream, p: nat, r: array<int>, g: array<int>, b: array<int>, ghost v: nat) returns (err: int)
    requires f.Valid() && f.ReadTo(v) && p < r.Length && p < g.Length && p < b.Length && r != g && g != b && r != b
    modifies f`pos, r, g, b
    ensures f.Valid() && (err == 0 || err == 1)
    ensures err == 0 <==> v + 1 < |f.bytes| && (if p == 0 then v + 2 < |f.bytes| else old(r[0]) != EOF)
    ensures err == 0 ==> f.ReadTo(v + 3)
                         && b[p] == At(f.bytes, v) && g[p] == At(f.bytes, v + 1) && r[p] == At(f.bytes, v + 2)
    ensures forall q :: 0 <= q < r.Length && q != p ==> r[q] == old(r[q])
    ensures forall q :: 0 <= q < g.Length && q != p ==> g[q] == old(g[q])
    ensures forall q :: 0 <= q < b.Length && q != p ==> b[q] == old(b[q])
  {
    var c := f.Get();
    b[p] := c;
    if b[p] == EOF {
      return 1;
    }
    c := f.Get();
    g[p] := c;
    if g[p] == EOF {
      return 1;
    }
    c := f.Get();
    r[p] := c;
    if r[0] == EOF {
      return 1;
    }
    err := 0;
  }

  method SkipPadding(f: Stream, x: nat, ghost v: nat)
    requires f.Valid() && f.ReadTo(v)
    modifies f`pos
    ensures f.Valid() && f.ReadTo(v + Padding(x))
  {
    for p := 0 to Scanline(x) - 3 * x
      invariant f.Valid() && f.ReadTo(v + p)
    {
      var dummy := f.Get();
    }
  }

  // ---- the round trip ----

  lemma HeaderFields(x: int, y: int, rest: seq<Byte>)
    requires 0 <= x && 0 <= y && 0 <= SizeField(x, y) < WORDS / 2 && x < WORDS / 2 && y < WORDS / 2
    ensures var file := Header(x, y) + rest;
            && |file| == 54 + |rest| && file[0] == 'B' as int && file[1] == 'M' as int
            && Le32(file, 2) == SizeField(x, y) && Le32(file, 10) == 54 && Le32(file, 14) == 40
            && Le32(file, 18) == x && Le32(file, 22) == y && Le16(file, 26) == 1 && Le16(file, 28) == 24
    ensures SizeField(x, y) == 54 + 3 * x * y
    ensures forall i :: 6 <= i < 10 || 30 <= i < 54 ==> (Header(x, y) + rest)[i] == 0
  {
    SizeIs(x, y);
    hide Bytes32, Bytes16, Zeros32, Le32, Le16, SizeField;
    var file := Header(x, y) + rest;
    ZeroShort();
    assert file[6..8] == Bytes16(0) && file[8..10] == Bytes16(0);
    assert file[6] == file[6..8][0] && file[7] == file[6..8][1] && file[8] == file[8..10][0] && file[9] == file[8..10][1];
    assert file[30..54] == Zeros32(6);
    forall i | 30 <= i < 54 ensures file[i] == 0 { assert file[i] == file[30..54][i - 30]; }
    LongAt(file, 2, SizeField(x, y));
    LongAt(file, 10, 54);
    var d := Dimensions(x, y);
    assert file[14..26] == d;
    assert d[0..4] == Bytes32(40) && d[4..8] == Bytes32(x) && d[8..12] == Bytes32(y);
    assert file[14..18] == file[14..26][0..4];
    LongAt(file, 14, 40);
    assert file[26..28] == Bytes16(1) && file[28..30] == Bytes16(24);
    ShortAt(file, 26, 1);
    ShortAt(file, 28, 24);
    assert file[18..22] == file[14..26][4..8] && file[22..26] == file[14..26][8..12];
    LongAt(file, 18, x);
    LongAt(file, 22, y);
  }

  lemma SizeIs(x: int, y: int)
    ensures SizeField(x, y) == 54 + 3 * x * y
  {
  }

  lemma ZeroShort()
    ensures Bytes16(0) == [0, 0]
  {
  }

  lemma ShortAt(file: seq<Byte>, at: nat, v: int)
    requires 0 <= v < 256 && at + 2 <= |file| && file[at..at + 2] == Bytes16(v)
    ensures Le16(file, at) == v
  {
    assert file[at] == file[at..at + 2][0] && file[at + 1] == file[at..at + 2][1];
  }

  lemma LongAt(file: seq<Byte>, at: nat, v: int)
    requires 0 <= v < WORDS && at + 4 <= |file| && file[at..at + 4] == Bytes32(v)
    ensures Le32(file, at) == v
  {
    Bytes32RoundTrip(v);
    assert file[at] == file[at..at + 4][0] && file[at + 1] == file[at..at + 4][1];
    assert file[at + 2] == file[at..at + 4][2] && file[at + 3] == file[at..at + 4][3];
  }

  // No dimension, and not the size field, overflows an int.
  ghost predicate Small(m: Image) {
    m.x < WORDS / 2 && m.y < WORDS / 2 && 0 <= SizeField(m.x, m.y) < WORDS / 2
  }

  // 54 bytes of header, then one scanline for each row.
  lemma FileLength(m: Image)
    requires Fits(m)
    ensures |FileOf(m)| == 54 + Span(m.y, Scanline(m.x))
  {
    hide Rows, Span, Scanline, SizeField;
    RowsLength(m, m.y);
  }

  // The bytes of the pixel in row row and column col of the image.
  lemma PixelInFile(m: Image, row: nat, col: nat)
    requires Fits(m) && row < m.y && col < m.x
    ensures PixelIsAt(m, FileOf(m), 54 + Span(m.y - 1 - row, Scanline(m.x)) + 3 * col, Span(row, m.x) + col)
  {
    hide Rows, Span, Scanline, SizeField;
    PixelPlace(m, m.y, row, col);
  }

  // bmp_write
  method WriteImage(m: Image) returns (f: Stream)
    requires Fits(m)
    ensures fresh(f) && f.Valid() && f.pos == 0 && f.bytes == FileOf(m)
  {
    hide Header, Rows;
    f := new Stream();
    WriteHeader(f, m.x, m.y);
    WriteData(f, m);
  }

  ghost predicate IsFileOf(bytes: seq<Byte>, m: Image) {
    Small(m) && Fits(m) && bytes == FileOf(m)
  }

  // The number of elements of each array that bmp_read asks calloc for: the bytes an image needs, as an int.
  function NumBytes(x: nat, y: nat): int {
    Signed(4 * Span(y, x) % WORDS)
  }

  lemma FieldBound(x: nat, y: nat)
    ensures SizeField(x, y) == 3 * Span(y, x) + 54
  {
    assert 3 * x * y == 3 * (x * y) && x * y == y * x;
  }

  lemma RoomEnough(m: Image)
    requires Small(m)
    ensures NumBytes(m.x, m.y) == (if 4 * Span(m.y, m.x) < WORDS / 2 then 4 * Span(m.y, m.x) else 4 * Span(m.y, m.x) - WORDS)
    ensures NumBytes(m.x, m.y) >= 0 <==> 4 * Span(m.y, m.x) < WORDS / 2
  {
    hide Span;
    FieldBound(m.x, m.y);
  }

  // What was read at the place of a pixel is the pixel.
  lemma PixelReadBack(m: Image, b: seq<int>, g: seq<int>, r: seq<int>, row: nat, col: nat)
    requires Fits(m) && row < m.y && col < m.x
    requires PixelsRead(FileOf(m), 54 + Span(m.y - 1 - row, Scanline(m.x)), b, g, r, Span(row, m.x), m.x)
    ensures var p := Span(row, m.x) + col; p < Span(m.y, m.x) <= |m.r| && r[p] == m.r[p] && g[p] == m.g[p] && b[p] == m.b[p]
  {
    hide Span, Scanline, FileOf;
    PixelInFile(m, row, col);
    RowFits(m.x, m.y, row);
  }

  lemma RowCol(p: nat, x: nat, y: nat) returns (row: nat, col: nat)
    requires p < Span(y, x)
    ensures row < y && col < x && p == Span(row, x) + col
  {
    Pixelless(x, y);
    row, col := p / x, p % x;
    RowBound(p, x, y);
  }

  lemma RowBound(p: nat, x: nat, y: nat)
    requires x > 0 && p < Span(y, x)
    ensures p / x < y && p == Span(p / x, x) + p % x
  {
    if p / x >= y { SpanMonotone(y, p / x, x); }
  }

  // All rows read back are the image.
  lemma ImageReadBack(m: Image, b: seq<int>, g: seq<int>, r: seq<int>)
    requires Fits(m) && |b| >= Span(m.y, m.x) && |g| >= Span(m.y, m.x) && |r| >= Span(m.y, m.x)
    requires forall i: nat :: i < m.y ==>
               PixelsRead(FileOf(m), 54 + Span(i, Scanline(m.x)), b, g, r, Span(m.y - 1 - i, m.x), m.x)
    ensures var n := Span(m.y, m.x); r[..n] == m.r && g[..n] == m.g && b[..n] == m.b
  {
    hide Span, Scanline, FileOf, PixelsRead;
    forall p: nat | p < Span(m.y, m.x) ensures r[p] == m.r[p] && g[p] == m.g[p] && b[p] == m.b[p] {
      var row, col := RowCol(p, m.x, m.y);
      var i: nat := m.y - 1 - row;
      assert PixelsRead(FileOf(m), 54 + Span(i, Scanline(m.x)), b, g, r, Span(m.y - 1 - i, m.x), m.x);
      PixelReadBack(m, b, g, r, row, col);
    }
  }

  // The file has what the reader needs.
  lemma FileSuffices(m: Image)
    requires Fits(m) && m.x > 0 && m.y > 0
    ensures |FileOf(m)| - 54 >= Needed(m.x, m.y) && Span(m.y, m.x) > 0
  {
    FileLength(m);
    hide Span, FileOf;
    SpanNext(m.y - 1, Scanline(m.x));
    ScanlineAligned(m.x);
    Pixelless(m.x, m.y);
  }

  // bmp_read on a file that bmp_write made. If the size in bytes of the planes fits an int, it returns the same
  // dimensions and the same three planes, each at the start of an array four times as long, and reads the file
  // to its end. Otherwise calloc cannot succeed, and noRoom says so; m is the image written.
  method ReadImage(f: Stream, ghost m: Image)
    returns (err: int, noRoom: bool, x: int, y: int, r: array<int>, g: array<int>, b: array<int>)
    requires f.Valid() && f.pos == 0 && IsFileOf(f.bytes, m)
    modifies f`pos
    ensures f.Valid() && x == m.x && y == m.y
    ensures noRoom <==> 4 * Span(m.y, m.x) >= WORDS / 2
    ensures !noRoom ==>
              var n := Span(m.y, m.x);
              && err == 0 && r.Length == g.Length == b.Length == 4 * n
              && r[..n] == m.r && g[..n] == m.g && b[..n] == m.b && f.pos == |f.bytes|
  {
    hide Header, Rows, Span, Le32, SizeField, FileOf, Scanline, PixelsRead;
    HeaderOfFile(m);
    RoomEnough(m);
    var offset;
    err, x, y, offset := ReadHeader(f);
    f.Seek(offset);
    var numBytes := NumBytes(x, y);
    noRoom := numBytes < 0;
    var room := if noRoom then 0 else numBytes;
    r := new int[room](_ => 0);
    g := new int[room](_ => 0);
    b := new int[room](_ => 0);
    if noRoom {
      return;
    }
    Pixelless(m.x, m.y);
    if m.x > 0 && m.y > 0 { FileSuffices(m); }
    err := ReadData(f, x, y, r, g, b);
    FileLength(m);
    ImageReadBack(m, b[..], g[..], r[..]);
  }

  lemma HeaderOfFile(m: Image)
    requires Fits(m) && Small(m)
    ensures var file := FileOf(m);
            && |file| >= 54 && file[0] == 'B' as int && file[1] == 'M' as int
            && Signed(Le32(file, 10)) == 54 && Signed(Le32(file, 18)) == m.x && Signed(Le32(file, 22)) == m.y
  {
    hide Header, Rows, Span, Le32, SizeField;
    HeaderFields(m.x, m.y, Rows(m, m.y));
  }
}
