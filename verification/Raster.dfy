/**
 Turning a packed bitmap into a ZPL graphic field, and an independent reader of such
 fields to say what the printer is being told.
 */
module Raster {
  import opened Basics
  import opened Text

  type u32 = n: int | 0 <= n < 0x1_0000_0000
  type u16 = n: int | 0 <= n < 0x1_0000

  /** A page as submitted. `bits` is missing when its base64 text is not valid. */
  datatype RasterPage = RasterPage(
    version: byte, width: u32, height: u32, dpi: u32, copies: u16, bits: Option<seq<byte>>)

  datatype Profile = Profile(resolution: Option<u32>, maxWidth: u32, maxLength: u32)

  datatype Flaw =
    BadVersion | Empty | BadCopies | TooWide | TooLong | WrongResolution | BadBase64 | BadLength | DirtyPadding

  datatype Prepared = Prepared(bytes: string, labels: Option<nat>)

  /** What one graphic format says. */
  datatype Format = Format(width: nat, height: nat, rowBytes: nat, bits: seq<byte>, copies: nat)

  // ---------------------------------------------------------------------- pixels

  function RowBytes(width: nat): nat {
    (width + 7) / 8
  }

  lemma RowFits(row: nat, height: nat, rowBytes: nat)
    requires row < height
    ensures row * rowBytes + rowBytes <= rowBytes * height
  {
    assert row * rowBytes + rowBytes == (row + 1) * rowBytes <= height * rowBytes;
  }

  function ByteAt(bits: seq<byte>, rowBytes: nat, height: nat, row: nat, i: nat): byte
    requires |bits| == rowBytes * height && row < height && i < rowBytes
  {
    RowFits(row, height, rowBytes);
    bits[row * rowBytes + i]
  }

  /** The value of bit `i` of a byte, counted from the left. */
  function Weight(i: nat): nat
    requires i < 8
  {
    if i == 0 then 128 else if i == 1 then 64 else if i == 2 then 32 else if i == 3 then 16
    else if i == 4 then 8 else if i == 5 then 4 else if i == 6 then 2 else 1
  }

  predicate Black(bits: seq<byte>, rowBytes: nat, height: nat, row: nat, column: nat)
    requires |bits| == rowBytes * height && row < height && column < 8 * rowBytes
  {
    ByteAt(bits, rowBytes, height, row, column / 8) / Weight(column % 8) % 2 == 1
  }

  /** No dot is black to the right of the page. */
  ghost predicate CleanPadding(bits: seq<byte>, width: nat, height: nat)
    requires |bits| == RowBytes(width) * height
  {
    forall row: nat, column: nat | row < height && width <= column < 8 * RowBytes(width) ::
      !Black(bits, RowBytes(width), height, row, column)
  }

  lemma HighHalving(b: byte)
    ensures b % 128 == 0 <==> b % 64 == 0 && b / 64 % 2 == 0
    ensures b % 64 == 0 <==> b % 32 == 0 && b / 32 % 2 == 0
    ensures b % 32 == 0 <==> b % 16 == 0 && b / 16 % 2 == 0
  {
  }

  lemma LowHalving(b: byte)
    ensures b % 16 == 0 <==> b % 8 == 0 && b / 8 % 2 == 0
    ensures b % 8 == 0 <==> b % 4 == 0 && b / 4 % 2 == 0
    ensures b % 4 == 0 <==> b % 2 == 0 && b / 2 % 2 == 0
  {
  }

  lemma TopBit(b: byte, used: nat)
    requires 0 < used < 8
    ensures b % Weight(used - 1) == 0 <==> b % Weight(used) == 0 && b / Weight(used) % 2 == 0
  {
    HighHalving(b);
    LowHalving(b);
  }

  /** Masking the low bits of a byte looks at exactly the bits from `used` on. */
  lemma {:induction false} LowBits(b: byte, used: nat)
    requires 0 < used <= 8
    ensures b % Weight(used - 1) == 0 <==> forall i | used <= i < 8 :: b / Weight(i) % 2 == 0
    decreases 8 - used
  {
    if used < 8 {
      TopBit(b, used);
      LowBits(b, used + 1);
    }
  }

  lemma PaddingColumns(width: nat, column: nat)
    requires width % 8 != 0
    ensures width <= column < 8 * RowBytes(width) <==> column / 8 == RowBytes(width) - 1 && width % 8 <= column % 8
  {
  }

  /** A dot beyond the page is one of the unused bits of the row's last byte. */
  lemma PaddingDot(bits: seq<byte>, width: nat, height: nat, row: nat, column: nat)
    requires width > 0 && width % 8 != 0 && |bits| == RowBytes(width) * height && row < height
    requires width <= column < 8 * RowBytes(width)
    ensures width % 8 <= column % 8
    ensures Black(bits, RowBytes(width), height, row, column)
       <==> ByteAt(bits, RowBytes(width), height, row, RowBytes(width) - 1) / Weight(column % 8) % 2 == 1
  {
    PaddingColumns(width, column);
  }

  lemma PaddingColumn(width: nat, i: nat)
    requires width > 0 && width % 8 != 0 && width % 8 <= i < 8
    ensures ColumnOf(RowBytes(width), i) % 8 == i && width <= ColumnOf(RowBytes(width), i) < 8 * RowBytes(width)
  {
    PaddingColumns(width, ColumnOf(RowBytes(width), i));
  }

  /** In one row, all dots beyond the page are in the unused bits of the last byte. */
  lemma PaddingIsLastByte(bits: seq<byte>, width: nat, height: nat, row: nat)
    requires width > 0 && width % 8 != 0 && |bits| == RowBytes(width) * height && row < height
    ensures ByteAt(bits, RowBytes(width), height, row, RowBytes(width) - 1) % Weight(width % 8 - 1) == 0
       <==> forall column: nat | width <= column < 8 * RowBytes(width) ::
              !Black(bits, RowBytes(width), height, row, column)
  {
    var rowBytes, used := RowBytes(width), width % 8;
    var b := ByteAt(bits, rowBytes, height, row, rowBytes - 1);
    LowBits(b, used);
    if forall i | used <= i < 8 :: b / Weight(i) % 2 == 0 {
      forall column: nat | width <= column < 8 * rowBytes ensures !Black(bits, rowBytes, height, row, column) {
        PaddingDot(bits, width, height, row, column);
      }
    } else {
      var i :| used <= i < 8 && b / Weight(i) % 2 != 0;
      PaddingColumn(width, i);
      PaddingDot(bits, width, height, row, ColumnOf(rowBytes, i));
    }
  }

  function ColumnOf(rowBytes: nat, i: nat): nat
    requires rowBytes > 0
  {
    8 * (rowBytes - 1) + i
  }

  // ------------------------------------------------------------------- the encoder

  ghost predicate Printable(page: RasterPage, profile: Profile) {
    && page.version == 1 && 0 < page.width <= profile.maxWidth && 0 < page.height <= profile.maxLength
    && 1 <= page.copies <= 999
    && (profile.resolution.Some? ==> page.dpi == profile.resolution.value)
    && page.bits.Some? && |page.bits.value| == RowBytes(page.width) * page.height
    && CleanPadding(page.bits.value, page.width, page.height)
  }

  function FormatOf(page: RasterPage): Format
    requires page.bits.Some?
  {
    Format(page.width, page.height, RowBytes(page.width), page.bits.value, page.copies)
  }

  method PaddingIsWhite(bits: seq<byte>, width: nat, height: nat) returns (ok: bool)
    requires width > 0 && |bits| == RowBytes(width) * height
    ensures ok <==> CleanPadding(bits, width, height)
  {
    var rowBytes, used := RowBytes(width), width % 8;
    if used == 0 { return true; }
    for row := 0 to height
      invariant forall r: nat, column: nat | r < row && width <= column < 8 * rowBytes ::
                  !Black(bits, rowBytes, height, r, column)
    {
      PaddingIsLastByte(bits, width, height, row);
      if ByteAt(bits, rowBytes, height, row, rowBytes - 1) % Weight(used - 1) != 0 { return false; }
    }
    ok := true;
  }

  /** A page is accepted exactly when it is printable, and then the text says, to a
      reader that knows nothing of the page, the page and its copies. */
  method EncodeRasterPage(page: RasterPage, profile: Profile) returns (r: Result<Prepared, Flaw>)
    ensures r.Ok? <==> Printable(page, profile)
    ensures r.Ok? ==>
              && r.value.labels == Some(page.copies)
              && r.value.bytes == FormatText(FormatOf(page))
              && ReadFormat(r.value.bytes) == Some((FormatOf(page), ""))
  {
    if page.version != 1 { return Err(BadVersion); }
    if page.width == 0 || page.height == 0 { return Err(Empty); }
    if page.copies == 0 || page.copies > 999 { return Err(BadCopies); }
    if page.width > profile.maxWidth { return Err(TooWide); }
    if page.height > profile.maxLength { return Err(TooLong); }
    if profile.resolution.Some? && page.dpi != profile.resolution.value { return Err(WrongResolution); }
    var rowBytes := RowBytes(page.width);
    var expected := rowBytes * page.height;
    if page.bits.None? { return Err(BadBase64); }
    var packed := page.bits.value;
    if |packed| != expected { return Err(BadLength); }
    var white := PaddingIsWhite(packed, page.width, page.height);
    if !white { return Err(DirtyPadding); }
    var zpl := WriteFormat(page.width, page.height, rowBytes, packed, page.copies);
    FormatReads(FormatOf(page), "");
    r := Ok(Prepared(zpl, Some(page.copies)));
  }

  method WriteFormat(width: nat, height: nat, rowBytes: nat, packed: seq<byte>, copies: nat) returns (zpl: string)
    ensures zpl == FormatText(Format(width, height, rowBytes, packed, copies))
  {
    var hexadecimal := "";
    for n := 0 to |packed|
      invariant hexadecimal == Hex(packed[..n])
    {
      hexadecimal := hexadecimal + HexByte(packed[n]);
      assert packed[..n + 1][..n] == packed[..n];
    }
    assert packed[..|packed|] == packed;
    var tail := "\n^FS\n^PQ" + (Decimal(copies) + "\n^XZ\n");
    EmptyTail("\n^XZ\n");
    var count := Decimal(|packed|);
    var graphic := "\n^FO0,0\n^GFA,"
      + (count + ("," + (count + ("," + (Decimal(rowBytes) + ("," + (hexadecimal + tail)))))));
    zpl := "^XA\n^PW" + (Decimal(width) + ("\n^LL" + (Decimal(height) + graphic)));
  }

  lemma EmptyTail(s: string)
    ensures s + "" == s
  {
  }

  // ---------------------------------------------------------------- text of a format

  function SizeThen(f: Format, rest: string): string {
    "^XA\n^PW" + (Decimal(f.width) + ("\n^LL" + (Decimal(f.height) + rest)))
  }

  function GraphicThen(f: Format, rest: string): string {
    "\n^FO0,0\n^GFA," + (Decimal(|f.bits|) + ("," + (Decimal(|f.bits|) + ("," + (Decimal(f.rowBytes)
      + ("," + (Hex(f.bits) + rest)))))))
  }

  function CopiesThen(f: Format, rest: string): string {
    "\n^FS\n^PQ" + (Decimal(f.copies) + ("\n^XZ\n" + rest))
  }

  /** The text of a format, followed by `rest`. */
  function FormatThen(f: Format, rest: string): string {
    SizeThen(f, GraphicThen(f, CopiesThen(f, rest)))
  }

  function FormatText(f: Format): string {
    FormatThen(f, "")
  }

  // ------------------------------------------------------------------- the reader

  function Field(s: string, literal: string): (r: Option<(nat, string)>)
    ensures r.Some? ==> |r.value.1| < |s|
  {
    match Expect(s, literal)
    case None => None
    case Some(t) => Number(t)
  }

  function ReadSize(s: string): (r: Option<(nat, nat, string)>)
    ensures r.Some? ==> |r.value.2| < |s|
  {
    match Field(s, "^XA\n^PW")
    case None => None
    case Some(w) =>
      match Field(w.1, "\n^LL")
      case None => None
      case Some(h) => Some((w.0, h.0, h.1))
  }

  function ReadBits(s: string, n: nat): (r: Option<(seq<byte>, string)>)
    ensures r.Some? ==> |r.value.1| <= |s|
  {
    match Expect(s, ",")
    case None => None
    case Some(t) => HexBytes(t, n)
  }

  /** A graphic field whose two byte counts agree and whose data has that length. */
  function ReadGraphic(s: string): (r: Option<(nat, seq<byte>, string)>)
    ensures r.Some? ==> |r.value.2| < |s|
  {
    match Field(s, "\n^FO0,0\n^GFA,")
    case None => None
    case Some(total) =>
      match Field(total.1, ",")
      case None => None
      case Some(count) =>
        match Field(count.1, ",")
        case None => None
        case Some(rowBytes) =>
          match ReadBits(rowBytes.1, total.0)
          case None => None
          case Some(bits) => if count.0 != total.0 then None else Some((rowBytes.0, bits.0, bits.1))
  }

  function ReadCopies(s: string): (r: Option<(nat, string)>)
    ensures r.Some? ==> |r.value.1| < |s|
  {
    match Field(s, "\n^FS\n^PQ")
    case None => None
    case Some(copies) =>
      match Expect(copies.1, "\n^XZ\n")
      case None => None
      case Some(t) => Some((copies.0, t))
  }

  /** Reads one format off the front of `s`. */
  function ReadFormat(s: string): (r: Option<(Format, string)>)
    ensures r.Some? ==> |r.value.1| < |s|
  {
    match ReadSize(s)
    case None => None
    case Some(size) =>
      match ReadGraphic(size.2)
      case None => None
      case Some(graphic) =>
        match ReadCopies(graphic.2)
        case None => None
        case Some(copies) => Some((Format(size.0, size.1, graphic.0, graphic.1, copies.0), copies.1))
  }

  type Reader = string -> Option<(Format, string)>

  /** A stream of formats and nothing else. */
  function ReadAll(read: Reader, s: string): Option<seq<Format>>
    decreases |s|
  {
    if s == "" then Some([])
    else match read(s)
      case None => None
      case Some(first) =>
        if |first.1| >= |s| then None
        else match ReadAll(read, first.1)
          case None => None
          case Some(more) => Some([first.0] + more)
  }

  function ReadStream(s: string): Option<seq<Format>> {
    ReadAll(ReadFormat, s)
  }

  // ---------------------------------------------------------------------- round trip

  lemma FieldThere(literal: string, n: nat, rest: string)
    requires Stops(rest)
    ensures Field(literal + (Decimal(n) + rest), literal) == Some((n, rest))
  {
    ExpectThere(literal, Decimal(n) + rest);
    NumberThere(n, rest);
  }

  lemma SizeReads(f: Format, rest: string)
    requires Stops(rest)
    ensures ReadSize(SizeThen(f, rest)) == Some((f.width, f.height, rest))
  {
    FieldThere("\n^LL", f.height, rest);
    FieldThere("^XA\n^PW", f.width, "\n^LL" + (Decimal(f.height) + rest));
  }

  lemma BitsRead(f: Format, rest: string)
    ensures ReadBits("," + (Hex(f.bits) + rest), |f.bits|) == Some((f.bits, rest))
  {
    ExpectThere(",", Hex(f.bits) + rest);
    HexThere(f.bits, rest);
  }

  lemma GraphicReads(f: Format, rest: string)
    ensures ReadGraphic(GraphicThen(f, rest)) == Some((f.rowBytes, f.bits, rest))
  {
    var bits := "," + (Hex(f.bits) + rest);
    var row := "," + (Decimal(f.rowBytes) + bits);
    var count := "," + (Decimal(|f.bits|) + row);
    BitsRead(f, rest);
    FieldThere(",", f.rowBytes, bits);
    FieldThere(",", |f.bits|, row);
    FieldThere("\n^FO0,0\n^GFA,", |f.bits|, count);
  }

  lemma CopiesRead(f: Format, rest: string)
    ensures ReadCopies(CopiesThen(f, rest)) == Some((f.copies, rest))
  {
    ExpectThere("\n^XZ\n", rest);
    FieldThere("\n^FS\n^PQ", f.copies, "\n^XZ\n" + rest);
  }

  /** A format read part by part. */
  lemma PartsRead(f: Format, s: string, graphic: string, copies: string, rest: string)
    requires ReadSize(s) == Some((f.width, f.height, graphic))
    requires ReadGraphic(graphic) == Some((f.rowBytes, f.bits, copies))
    requires ReadCopies(copies) == Some((f.copies, rest))
    ensures ReadFormat(s) == Some((f, rest))
  {
  }

  /** Width, height, rows, dots and copies all come back, whatever follows. */
  lemma FormatReads(f: Format, rest: string)
    ensures ReadFormat(FormatThen(f, rest)) == Some((f, rest))
  {
    var copies := CopiesThen(f, rest);
    var graphic := GraphicThen(f, copies);
    CopiesRead(f, rest);
    GraphicReads(f, copies);
    SizeReads(f, graphic);
    PartsRead(f, SizeThen(f, graphic), graphic, copies, rest);
  }

  /** Two pages with the same text are the same page. */
  lemma FormatsDiffer(f: Format, g: Format)
    requires FormatText(f) == FormatText(g)
    ensures f == g
  {
    FormatReads(f, "");
    FormatReads(g, "");
  }

  lemma Shift(a: string, b: string, c: string)
    ensures a + (b + c) == (a + b) + c
  {
  }

  lemma SizeShifts(f: Format, a: string, b: string)
    ensures SizeThen(f, a) + b == SizeThen(f, a + b)
  {
    Shift(Decimal(f.height), a, b);
    Shift("\n^LL", Decimal(f.height) + a, b);
    Shift(Decimal(f.width), "\n^LL" + (Decimal(f.height) + a), b);
    Shift("^XA\n^PW", Decimal(f.width) + ("\n^LL" + (Decimal(f.height) + a)), b);
  }

  lemma GraphicShifts(f: Format, a: string, b: string)
    ensures GraphicThen(f, a) + b == GraphicThen(f, a + b)
  {
    var n := Decimal(|f.bits|);
    var bits := "," + (Hex(f.bits) + a);
    var row := "," + (Decimal(f.rowBytes) + bits);
    var count := "," + (n + row);
    Shift(Hex(f.bits), a, b);
    Shift(",", Hex(f.bits) + a, b);
    Shift(Decimal(f.rowBytes), bits, b);
    Shift(",", Decimal(f.rowBytes) + bits, b);
    Shift(n, row, b);
    Shift(",", n + row, b);
    Shift(n, count, b);
    Shift("\n^FO0,0\n^GFA,", n + count, b);
  }

  lemma CopiesShift(f: Format, a: string, b: string)
    ensures CopiesThen(f, a) + b == CopiesThen(f, a + b)
  {
    Shift("\n^XZ\n", a, b);
    Shift(Decimal(f.copies), "\n^XZ\n" + a, b);
    Shift("\n^FS\n^PQ", Decimal(f.copies) + ("\n^XZ\n" + a), b);
  }

  lemma FormatShifts(f: Format, rest: string)
    ensures FormatText(f) + rest == FormatThen(f, rest)
  {
    CopiesShift(f, "", rest);
    GraphicShifts(f, CopiesThen(f, ""), rest);
    SizeShifts(f, GraphicThen(f, CopiesThen(f, "")), rest);
    assert "" + rest == rest;
  }

  /** Whatever follows it, the text is read as the format. */
  ghost predicate SaysTo(read: Reader, text: string, f: Format) {
    text != "" && forall rest: string :: read(text + rest) == Some((f, rest))
  }

  ghost predicate Says(text: string, f: Format) {
    SaysTo(ReadFormat, text, f)
  }

  lemma FormatSays(f: Format)
    ensures Says(FormatText(f), f)
  {
    forall rest: string ensures ReadFormat(FormatText(f) + rest) == Some((f, rest)) {
      FormatShifts(f, rest);
      FormatReads(f, rest);
    }
  }

  function Concat(texts: seq<string>): string {
    if texts == [] then "" else texts[0] + Concat(texts[1..])
  }

  lemma {:induction false} AllRead(read: Reader, texts: seq<string>, fs: seq<Format>)
    requires |texts| == |fs| && forall i :: 0 <= i < |fs| ==> SaysTo(read, texts[i], fs[i])
    ensures ReadAll(read, Concat(texts)) == Some(fs)
    decreases |fs|
  {
    if fs != [] {
      AllRead(read, texts[1..], fs[1..]);
      assert SaysTo(read, texts[0], fs[0]);
      assert read(texts[0] + Concat(texts[1..])) == Some((fs[0], Concat(texts[1..])));
      assert fs == [fs[0]] + fs[1..];
    }
  }

  /** Texts put end to end are read back format by format. */
  lemma StreamReads(texts: seq<string>, fs: seq<Format>)
    requires |texts| == |fs| && forall i :: 0 <= i < |fs| ==> Says(texts[i], fs[i])
    ensures ReadStream(Concat(texts)) == Some(fs)
  {
    AllRead(ReadFormat, texts, fs);
  }
}
