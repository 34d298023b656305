/**
 * The OpenTag3D core-block encoder of SpoolCompanion.
 *
 * One spool record is turned into a fixed 111-byte buffer laid out by the
 * OpenTag3D core memory map (MIME type application/opentag3d):
 *
 *   0x00-0x01  tag version          big-endian 16 bits
 *   0x02-0x06  base material name   5 bytes UTF-8, truncated / zero-padded
 *   0x07-0x0B  material modifiers   5 bytes UTF-8
 *   0x0C-0x1A  reserved             zero
 *   0x1B-0x2A  manufacturer         16 bytes UTF-8
 *   0x2B-0x4A  colour name          32 bytes UTF-8
 *   0x4B-0x4E  colour 1             R, G, B, A
 *   0x4F       gap                  zero
 *   0x50-0x53  colour 2             R, G, B, A
 *   0x54-0x57  colour 3             R, G, B, A
 *   0x58-0x5B  colour 4             R, G, B, A
 *   0x5C-0x5D  target diameter      big-endian, micrometres
 *   0x5E-0x5F  target weight        big-endian, grams
 *   0x60       print temperature    degrees C / 5
 *   0x61       bed temperature      degrees C / 5
 *   0x62-0x63  density              big-endian, micrograms per cm3
 *   0x64-0x65  transmission distance big-endian, always 0
 *   0x66-0x6E  unassigned           zero
 *
 * The layout is stated once, byte by byte, by LayoutByte / Encoded; the
 * imperative encoder EncodeToBytes and its three in-place helpers are proved
 * against it, and the lemmas below state what the layout promises.
 */
module OpenTag3D {

  /** One byte of the buffer, as its 8-bit pattern (a Kotlin Byte with the same bits). */
  type Byte = b: int | 0 <= b < 256

  /** A Kotlin Int. */
  type Int32 = x: int | -0x8000_0000 <= x < 0x8000_0000

  /**
   * A Compose colour as its packed unsigned 64-bit value (a ULong): alpha,
   * red, green, blue in bits 63..32 (sRGB layout), other data below.
   */
  type Color = c: int | 0 <= c < 0x1_0000_0000_0000_0000

  /** Size of the core block, addresses 0x00-0x6E. */
  const CoreSize: nat := 111

  const MimeType: string := "application/opentag3d"

  /** Color.Black: opaque, all colour channels zero. */
  const Black: Color := 0xFF00_0000_0000_0000

  /** Color.Transparent: every channel zero. */
  const Transparent: Color := 0

  /**
   * The spool record. Text fields are already UTF-8 encoded; numeric fields
   * are already scaled to the integer units of the wire format (diameter in
   * micrometres, weight in grams, temperatures in degrees C, density in
   * micrograms per cm3). Defaults are those of the data class.
   */
  datatype SpoolTag = SpoolTag(
    tagVersion: Int32 := 20,
    materialBase: seq<Byte>,
    materialMod: seq<Byte> := [],
    manufacturer: seq<Byte>,
    colorName: seq<Byte>,
    colors: seq<Color>,
    targetDiameter: Int32,
    targetWeight: Int32,
    printTemp: Int32,
    bedTemp: Int32,
    density: Int32)

  // ---------------------------------------------------------------------------
  // Byte-level building blocks

  /** Kotlin's toByte(): keeps the low 8 bits, i.e. the byte congruent to x modulo 256. */
  function ToByte(x: int): (b: Byte)
    ensures (x - b) % 256 == 0
  {
    x % 256
  }

  function Min(a: int, b: int): (m: int)
  {
    if a <= b then a else b
  }

  function Zeros(n: nat): (z: seq<Byte>)
    ensures |z| == n && forall i :: 0 <= i < n ==> z[i] == 0
  {
    seq(n, _ => 0)
  }

  /**
   * The bytes a text field of the given width holds: the text cut to the
   * width, then zero padding.
   */
  function Utf8Field(text: seq<Byte>, width: nat): (f: seq<Byte>)
    ensures |f| == width
    ensures forall i :: 0 <= i < width ==> f[i] == if i < |text| then text[i] else 0
  {
    var n := Min(|text|, width);
    text[..n] + Zeros(width - n)
  }

  /**
   * A 16-bit big-endian value: (v shr 8) and 0xFF, then v and 0xFF.
   * An arithmetic shift right by 8 is floor division by 256, which is Dafny's
   * division by a positive divisor.
   */
  function BigEndian16(v: int): (s: seq<Byte>)
    ensures |s| == 2
  {
    [ToByte(v / 256), ToByte(v)]
  }

  /** Temperature byte: the value divided by 5, truncated toward zero, then cut to 8 bits. */
  function TempByte(t: int): (b: Byte)
  {
    ToByte(TruncDiv5(t))
  }

  /** Division by 5 rounding toward zero, as Double division followed by toInt() does on an integer. */
  function TruncDiv5(t: int): (q: int)
    ensures 0 <= t ==> 0 <= 5 * q <= t < 5 * q + 5
    ensures t < 0 ==> 5 * q - 5 < t <= 5 * q <= 0
  {
    if t >= 0 then t / 5 else -((-t) / 5)
  }

  /** The channels of a packed colour, (value shr 56, 48, 40, 32) and 0xFF. */
  function Alpha(c: Color): (a: Byte) { (c / 0x100_0000_0000_0000) % 256 }
  function Red(c: Color): (r: Byte) { (c / 0x1_0000_0000_0000) % 256 }
  function Green(c: Color): (g: Byte) { (c / 0x100_0000_0000) % 256 }
  function Blue(c: Color): (b: Byte) { (c / 0x1_0000_0000) % 256 }

  /** The four bytes of a colour slot, in R, G, B, A order. */
  function Rgba(c: Color): (s: seq<Byte>)
    ensures |s| == 4
  {
    [Red(c), Green(c), Blue(c), Alpha(c)]
  }

  /** colors.getOrElse(i) { default } */
  function ColorOrDefault(colors: seq<Color>, i: nat, default: Color): (c: Color)
  {
    if i < |colors| then colors[i] else default
  }

  /** The colour written to slot 0..3: the list entry, else Black for slot 0 and Transparent after. */
  function SlotColor(colors: seq<Color>, slot: nat): (c: Color)
  {
    ColorOrDefault(colors, slot, if slot == 0 then Black else Transparent)
  }

  // ---------------------------------------------------------------------------
  // The layout of the core block, byte by byte

  function LayoutByte(tag: SpoolTag, i: nat): (b: Byte)
    requires i < CoreSize
  {
    if i < 0x02 then BigEndian16(tag.tagVersion)[i]
    else if i < 0x07 then Utf8Field(tag.materialBase, 5)[i - 0x02]
    else if i < 0x0C then Utf8Field(tag.materialMod, 5)[i - 0x07]
    else if i < 0x1B then 0
    else if i < 0x2B then Utf8Field(tag.manufacturer, 16)[i - 0x1B]
    else if i < 0x4B then Utf8Field(tag.colorName, 32)[i - 0x2B]
    else if i < 0x4F then Rgba(SlotColor(tag.colors, 0))[i - 0x4B]
    else if i < 0x50 then 0
    else if i < 0x54 then Rgba(SlotColor(tag.colors, 1))[i - 0x50]
    else if i < 0x58 then Rgba(SlotColor(tag.colors, 2))[i - 0x54]
    else if i < 0x5C then Rgba(SlotColor(tag.colors, 3))[i - 0x58]
    else if i < 0x5E then BigEndian16(tag.targetDiameter)[i - 0x5C]
    else if i < 0x60 then BigEndian16(tag.targetWeight)[i - 0x5E]
    else if i == 0x60 then TempByte(tag.printTemp)
    else if i == 0x61 then TempByte(tag.bedTemp)
    else if i < 0x64 then BigEndian16(tag.density)[i - 0x62]
    else if i < 0x66 then BigEndian16(0)[i - 0x64]
    else 0
  }

  /** The core block a record encodes to. */
  function Encoded(tag: SpoolTag): (bytes: seq<Byte>)
    ensures |bytes| == CoreSize
  {
    seq(CoreSize, i requires 0 <= i < CoreSize => LayoutByte(tag, i))
  }

  // ---------------------------------------------------------------------------
  // Readers used only to state round trips (the system itself has no decoder)

  /** The unsigned big-endian 16-bit value at p. */
  function ReadU16(s: seq<Byte>, p: nat): (v: nat)
    requires p + 2 <= |s|
    ensures v < 0x1_0000
  {
    var high: int := s[p];
    high * 256 + s[p + 1]
  }

  /** The text of a zero-padded field: its bytes up to the first zero byte. */
  function ReadText(field: seq<Byte>): (text: seq<Byte>)
  {
    if field == [] || field[0] == 0 then [] else [field[0]] + ReadText(field[1..])
  }

  /** The bytes of text that fit in a field of the given width. */
  function Truncated(text: seq<Byte>, width: nat): (t: seq<Byte>)
    ensures |t| == Min(|text|, width) && t <= text
    ensures |text| <= width ==> t == text
  {
    text[..Min(|text|, width)]
  }

  ghost predicate NoNul(text: seq<Byte>)
  {
    forall i :: 0 <= i < |text| ==> text[i] != 0
  }

  /** The sRGB packing of a Compose colour: alpha, red, green, blue in bits 63..32, low bits below. */
  function PackArgb(alpha: Byte, red: Byte, green: Byte, blue: Byte, low: nat): (c: Color)
    requires low < 0x1_0000_0000
  {
    alpha * 0x100_0000_0000_0000 + red * 0x1_0000_0000_0000 + green * 0x100_0000_0000
      + blue * 0x1_0000_0000 + low
  }

  // ---------------------------------------------------------------------------
  // Arithmetic helpers

  lemma {:induction false} MulAtLeast(k: int, d: int)
    requires 1 <= k && 0 < d
    ensures d <= k * d
  {
    if k > 1 {
      MulAtLeast(k - 1, d);
      assert k * d == (k - 1) * d + d;
    }
  }

  /** Euclidean division is unique: c = hi * d + lo with 0 <= lo < d fixes quotient and remainder. */
  lemma DivOf(c: int, hi: int, d: int, lo: int)
    requires 0 < d && c == hi * d + lo && 0 <= lo < d
    ensures c / d == hi && c % d == lo
  {
    var q, r := c / d, c % d;
    assert c == q * d + r && 0 <= r < d;
    if q > hi {
      MulAtLeast(q - hi, d);
    } else if q < hi {
      MulAtLeast(hi - q, d);
    }
  }

  // ---------------------------------------------------------------------------
  // Properties of the building blocks

  /** Reading a written 16-bit field gives the value modulo 2^16, so values in 0..65535 come back exactly. */
  lemma BigEndian16RoundTrip(v: int)
    ensures ReadU16(BigEndian16(v), 0) == v % 0x1_0000
    ensures 0 <= v < 0x1_0000 ==> ReadU16(BigEndian16(v), 0) == v
  {
    var q := v / 256;
    assert v == 0x1_0000 * (q / 256) + (256 * (q % 256) + v % 256);
  }

  lemma {:induction false} ReadTextStopsAtNul(text: seq<Byte>, rest: seq<Byte>)
    requires NoNul(text)
    requires rest == [] || rest[0] == 0
    ensures ReadText(text + rest) == text
  {
    if text == [] {
      assert text + rest == rest;
    } else {
      assert (text + rest)[1..] == text[1..] + rest;
      ReadTextStopsAtNul(text[1..], rest);
    }
  }

  /**
   * A text field gives back the truncated text, as long as the kept bytes
   * hold no zero byte (a zero byte inside the text ends it early).
   */
  lemma Utf8FieldRoundTrip(text: seq<Byte>, width: nat)
    requires NoNul(Truncated(text, width))
    ensures ReadText(Utf8Field(text, width)) == Truncated(text, width)
  {
    var n := Min(|text|, width);
    assert Utf8Field(text, width) == text[..n] + Zeros(width - n);
    ReadTextStopsAtNul(text[..n], Zeros(width - n));
  }

  /** The colour bytes are the red, green, blue and alpha channels of the packed value, in that order. */
  lemma RgbaOfPacked(alpha: Byte, red: Byte, green: Byte, blue: Byte, low: nat)
    requires low < 0x1_0000_0000
    ensures Rgba(PackArgb(alpha, red, green, blue, low)) == [red, green, blue, alpha]
  {
    var c := PackArgb(alpha, red, green, blue, low);
    DivOf(c, alpha, 0x100_0000_0000_0000,
      red * 0x1_0000_0000_0000 + green * 0x100_0000_0000 + blue * 0x1_0000_0000 + low);
    DivOf(c, alpha * 0x100 + red, 0x1_0000_0000_0000, green * 0x100_0000_0000 + blue * 0x1_0000_0000 + low);
    DivOf(alpha * 0x100 + red, alpha, 0x100, red);
    DivOf(c, alpha * 0x1_0000 + red * 0x100 + green, 0x100_0000_0000, blue * 0x1_0000_0000 + low);
    DivOf(alpha * 0x1_0000 + red * 0x100 + green, alpha * 0x100 + red, 0x100, green);
    DivOf(c, alpha * 0x100_0000 + red * 0x1_0000 + green * 0x100 + blue, 0x1_0000_0000, low);
    DivOf(alpha * 0x100_0000 + red * 0x1_0000 + green * 0x100 + blue, alpha * 0x1_0000 + red * 0x100 + green, 0x100, blue);
  }

  /** Black is written 00 00 00 FF and Transparent 00 00 00 00. */
  lemma DefaultColorBytes()
    ensures Rgba(Black) == [0x00, 0x00, 0x00, 0xFF]
    ensures Rgba(Transparent) == [0x00, 0x00, 0x00, 0x00]
  {
    RgbaOfPacked(0xFF, 0, 0, 0, 0);
    RgbaOfPacked(0, 0, 0, 0, 0);
  }

  /**
   * A temperature in 0..1279 degrees C is stored as the largest multiple of 5
   * not above it, divided by 5; above that the byte wraps around every 1280 degrees.
   */
  lemma TempByteRange(t: nat)
    ensures t < 1280 ==> 5 * TempByte(t) <= t < 5 * TempByte(t) + 5
    ensures TempByte(t + 1280) == TempByte(t)
  {
    assert TruncDiv5(t + 1280) == TruncDiv5(t) + 256;
  }

  // ---------------------------------------------------------------------------
  // Properties of the core block

  /** Every field sits at its memory-map offset with its width. */
  lemma EncodedFields(tag: SpoolTag)
    ensures Encoded(tag)[0x00..0x02] == BigEndian16(tag.tagVersion)
    ensures Encoded(tag)[0x02..0x07] == Utf8Field(tag.materialBase, 5)
    ensures Encoded(tag)[0x07..0x0C] == Utf8Field(tag.materialMod, 5)
    ensures Encoded(tag)[0x1B..0x2B] == Utf8Field(tag.manufacturer, 16)
    ensures Encoded(tag)[0x2B..0x4B] == Utf8Field(tag.colorName, 32)
    ensures Encoded(tag)[0x4B..0x4F] == Rgba(SlotColor(tag.colors, 0))
    ensures Encoded(tag)[0x50..0x54] == Rgba(SlotColor(tag.colors, 1))
    ensures Encoded(tag)[0x54..0x58] == Rgba(SlotColor(tag.colors, 2))
    ensures Encoded(tag)[0x58..0x5C] == Rgba(SlotColor(tag.colors, 3))
    ensures Encoded(tag)[0x5C..0x5E] == BigEndian16(tag.targetDiameter)
    ensures Encoded(tag)[0x5E..0x60] == BigEndian16(tag.targetWeight)
    ensures Encoded(tag)[0x60..0x61] == [TempByte(tag.printTemp)]
    ensures Encoded(tag)[0x61..0x62] == [TempByte(tag.bedTemp)]
    ensures Encoded(tag)[0x62..0x64] == BigEndian16(tag.density)
    ensures Encoded(tag)[0x64..0x66] == BigEndian16(0)
  {
  }

  /** The reserved bytes 0x0C-0x1A, the gap 0x4F and the tail 0x66-0x6E are zero for every record. */
  lemma ReservedBytesZero(tag: SpoolTag)
    ensures Encoded(tag)[0x0C..0x1B] == Zeros(15)
    ensures Encoded(tag)[0x4F..0x50] == Zeros(1)
    ensures Encoded(tag)[0x66..CoreSize] == Zeros(9)
  {
  }

  /**
   * The numeric fields read back as their values modulo 2^16 (16-bit fields),
   * the temperatures as their bytes, and the transmission distance as 0.
   */
  lemma EncodedNumbers(tag: SpoolTag)
    ensures ReadU16(Encoded(tag), 0x00) == tag.tagVersion % 0x1_0000
    ensures ReadU16(Encoded(tag), 0x5C) == tag.targetDiameter % 0x1_0000
    ensures ReadU16(Encoded(tag), 0x5E) == tag.targetWeight % 0x1_0000
    ensures Encoded(tag)[0x60] == TempByte(tag.printTemp)
    ensures Encoded(tag)[0x61] == TempByte(tag.bedTemp)
    ensures ReadU16(Encoded(tag), 0x62) == tag.density % 0x1_0000
    ensures ReadU16(Encoded(tag), 0x64) == 0
  {
    var e := Encoded(tag);
    EncodedFields(tag);
    BigEndian16RoundTrip(tag.tagVersion);
    BigEndian16RoundTrip(tag.targetDiameter);
    BigEndian16RoundTrip(tag.targetWeight);
    assert e[0x60] == e[0x60..0x61][0];
    assert e[0x61] == e[0x61..0x62][0];
    BigEndian16RoundTrip(tag.density);
    BigEndian16RoundTrip(0);
  }

  /** The four text fields read back as their truncated texts when those hold no zero byte. */
  lemma EncodedTexts(tag: SpoolTag)
    ensures NoNul(Truncated(tag.materialBase, 5)) ==>
      ReadText(Encoded(tag)[0x02..0x07]) == Truncated(tag.materialBase, 5)
    ensures NoNul(Truncated(tag.materialMod, 5)) ==>
      ReadText(Encoded(tag)[0x07..0x0C]) == Truncated(tag.materialMod, 5)
    ensures NoNul(Truncated(tag.manufacturer, 16)) ==>
      ReadText(Encoded(tag)[0x1B..0x2B]) == Truncated(tag.manufacturer, 16)
    ensures NoNul(Truncated(tag.colorName, 32)) ==>
      ReadText(Encoded(tag)[0x2B..0x4B]) == Truncated(tag.colorName, 32)
  {
    EncodedFields(tag);
    if NoNul(Truncated(tag.materialBase, 5)) { Utf8FieldRoundTrip(tag.materialBase, 5); }
    if NoNul(Truncated(tag.materialMod, 5)) { Utf8FieldRoundTrip(tag.materialMod, 5); }
    if NoNul(Truncated(tag.manufacturer, 16)) { Utf8FieldRoundTrip(tag.manufacturer, 16); }
    if NoNul(Truncated(tag.colorName, 32)) { Utf8FieldRoundTrip(tag.colorName, 32); }
  }

  /**
   * Colour slot i holds colors[i] in R, G, B, A order when the list has it;
   * otherwise slot 0 holds opaque black and slots 1-3 transparent.
   */
  lemma EncodedColors(tag: SpoolTag)
    ensures Encoded(tag)[0x4B..0x4F] == if 0 < |tag.colors| then Rgba(tag.colors[0]) else [0, 0, 0, 0xFF]
    ensures Encoded(tag)[0x50..0x54] == if 1 < |tag.colors| then Rgba(tag.colors[1]) else [0, 0, 0, 0]
    ensures Encoded(tag)[0x54..0x58] == if 2 < |tag.colors| then Rgba(tag.colors[2]) else [0, 0, 0, 0]
    ensures Encoded(tag)[0x58..0x5C] == if 3 < |tag.colors| then Rgba(tag.colors[3]) else [0, 0, 0, 0]
  {
    EncodedFields(tag);
    DefaultColorBytes();
  }

  /** Colour list entries at index 4 and beyond never affect the block. */
  lemma ExtraColorsIgnored(tag: SpoolTag, extra: seq<Color>)
    requires 4 <= |tag.colors|
    ensures Encoded(tag.(colors := tag.colors + extra)) == Encoded(tag)
  {
    var tag' := tag.(colors := tag.colors + extra);
    forall slot: nat | slot < 4 ensures SlotColor(tag'.colors, slot) == SlotColor(tag.colors, slot) {
      assert tag'.colors[slot] == tag.colors[slot];
    }
    forall i | 0 <= i < CoreSize ensures Encoded(tag')[i] == Encoded(tag)[i] {
      assert LayoutByte(tag', i) == LayoutByte(tag, i);
    }
  }

  /** A record built without tag version or material modifier gets version 20 and an empty modifier. */
  lemma DataClassDefaults(base: seq<Byte>, manufacturer: seq<Byte>, colorName: seq<Byte>, colors: seq<Color>,
                          diameter: Int32, weight: Int32, printTemp: Int32, bedTemp: Int32, density: Int32)
    ensures var e := Encoded(SpoolTag(materialBase := base, manufacturer := manufacturer,
                                      colorName := colorName, colors := colors,
                                      targetDiameter := diameter, targetWeight := weight,
                                      printTemp := printTemp, bedTemp := bedTemp, density := density));
      e[0x00..0x02] == [0x00, 0x14] && e[0x07..0x0C] == [0, 0, 0, 0, 0]
  {
    var tag := SpoolTag(materialBase := base, manufacturer := manufacturer,
                        colorName := colorName, colors := colors,
                        targetDiameter := diameter, targetWeight := weight,
                        printTemp := printTemp, bedTemp := bedTemp, density := density);
    EncodedFields(tag);
    assert Encoded(tag)[0x07..0x0C] == Utf8Field([], 5);
  }

  /**
   * The usual spool values, 1.75 mm, 1000 g, 220 and 60 degrees C and
   * 1.24 g/cm3, are stored as big-endian 1750, 1000, bytes 44 and 12, and
   * big-endian 1240.
   */
  lemma ExampleBlock(tag: SpoolTag)
    requires tag.targetDiameter == 1750 && tag.targetWeight == 1000
    requires tag.printTemp == 220 && tag.bedTemp == 60 && tag.density == 1240
    ensures ReadU16(Encoded(tag), 0x5C) == 1750
    ensures ReadU16(Encoded(tag), 0x5E) == 1000
    ensures Encoded(tag)[0x60] == 44 && Encoded(tag)[0x61] == 12
    ensures ReadU16(Encoded(tag), 0x62) == 1240
  {
    EncodedNumbers(tag);
  }

  // ---------------------------------------------------------------------------
  // The encoder, writing in place

  /** s with the bytes f written over it from position p on. */
  function Splice(s: seq<Byte>, p: nat, f: seq<Byte>): (r: seq<Byte>)
    requires p + |f| <= |s|
    ensures |r| == |s|
    ensures forall i :: 0 <= i < |s| ==> r[i] == if p <= i < p + |f| then f[i - p] else s[i]
  {
    s[..p] + f + s[p + |f|..]
  }

  /** Updating the bytes at p, p+1, ... one by one is splicing them in. */
  lemma UpdatesAreSplice(s: seq<Byte>, p: nat, f: seq<Byte>)
    requires |f| == 4 && p + 4 <= |s|
    ensures s[p := f[0]][p + 1 := f[1]][p + 2 := f[2]][p + 3 := f[3]] == Splice(s, p, f)
  {
  }

  /** The buffer after each write of EncodeToBytes, in the order it does them. */
  ghost function Writes(tag: SpoolTag): (s: seq<Byte>)
  {
    NumberWrites(tag, ColorWrites(tag, TextWrites(tag)))
  }

  /** The zero-filled buffer after the version and the four text fields are written. */
  ghost function TextWrites(tag: SpoolTag): (s: seq<Byte>)
    ensures |s| == CoreSize
  {
    var s0 := Zeros(CoreSize)[0x00 := ToByte(tag.tagVersion / 256)][0x01 := ToByte(tag.tagVersion % 256)];
    var s1 := Splice(s0, 0x02, Utf8Field(tag.materialBase, 5));
    var s2 := Splice(s1, 0x07, Utf8Field(tag.materialMod, 5));
    var s3 := Splice(s2, 0x1B, Utf8Field(tag.manufacturer, 16));
    Splice(s3, 0x2B, Utf8Field(tag.colorName, 32))
  }

  /** s after the four colour slots are written. */
  ghost function ColorWrites(tag: SpoolTag, s: seq<Byte>): (r: seq<Byte>)
    requires |s| == CoreSize
    ensures |r| == CoreSize
  {
    var s5 := Splice(s, 0x4B, Rgba(ColorOrDefault(tag.colors, 0, Black)));
    var s6 := Splice(s5, 0x50, Rgba(ColorOrDefault(tag.colors, 1, Transparent)));
    var s7 := Splice(s6, 0x54, Rgba(ColorOrDefault(tag.colors, 2, Transparent)));
    Splice(s7, 0x58, Rgba(ColorOrDefault(tag.colors, 3, Transparent)))
  }

  /** s after the numeric fields and the transmission distance are written. */
  ghost function NumberWrites(tag: SpoolTag, s: seq<Byte>): (r: seq<Byte>)
    requires |s| == CoreSize
    ensures |r| == CoreSize
  {
    var s9 := Splice(s, 0x5C, BigEndian16(tag.targetDiameter));
    var s10 := Splice(s9, 0x5E, BigEndian16(tag.targetWeight));
    var s11 := s10[0x60 := ToByte(TruncDiv5(tag.printTemp))];
    var s12 := s11[0x61 := ToByte(TruncDiv5(tag.bedTemp))];
    var s13 := Splice(s12, 0x62, BigEndian16(tag.density));
    Splice(s13, 0x64, BigEndian16(0))
  }

  /** The writes of EncodeToBytes, in order, produce exactly the core-block layout. */
  lemma WritesProduceLayout(tag: SpoolTag)
    ensures Writes(tag) == Encoded(tag)
  {
  }

  /**
   * Encodes the record into a fresh zero-filled 111-byte buffer; every field
   * write lands inside the buffer, and the result is the core-block layout.
   */
  method EncodeToBytes(tag: SpoolTag) returns (data: array<Byte>)
    ensures fresh(data)
    ensures data[..] == Encoded(tag)
  {
    data := new Byte[CoreSize](_ => 0);
    assert data[..] == Zeros(CoreSize);

    data[0x00] := ToByte(tag.tagVersion / 256);
    data[0x01] := ToByte(tag.tagVersion % 256);

    WriteUtf8(data, 0x02, tag.materialBase, 5);
    WriteUtf8(data, 0x07, tag.materialMod, 5);
    // 0x0C-0x1A: reserved, left zero
    WriteUtf8(data, 0x1B, tag.manufacturer, 16);
    WriteUtf8(data, 0x2B, tag.colorName, 32);

    WriteRgba(data, 0x4B, ColorOrDefault(tag.colors, 0, Black));
    // 0x4F: gap, left zero
    WriteRgba(data, 0x50, ColorOrDefault(tag.colors, 1, Transparent));
    WriteRgba(data, 0x54, ColorOrDefault(tag.colors, 2, Transparent));
    WriteRgba(data, 0x58, ColorOrDefault(tag.colors, 3, Transparent));

    WriteBigEndianShort(data, 0x5C, tag.targetDiameter);
    WriteBigEndianShort(data, 0x5E, tag.targetWeight);
    data[0x60] := ToByte(TruncDiv5(tag.printTemp));
    data[0x61] := ToByte(TruncDiv5(tag.bedTemp));
    WriteBigEndianShort(data, 0x62, tag.density);
    WriteBigEndianShort(data, 0x64, 0);
    // 0x66-0x6E: left zero

    WritesProduceLayout(tag);
  }

  /**
   * Copies the first min(|text|, maxLength) bytes of text to startPos and
   * zeroes the rest of the field; nothing outside the field changes.
   */
  method WriteUtf8(data: array<Byte>, startPos: nat, text: seq<Byte>, maxLength: nat)
    requires startPos + maxLength <= data.Length
    modifies data
    ensures data[..] == Splice(old(data[..]), startPos, Utf8Field(text, maxLength))
  {
    var bytesToCopy := Min(|text|, maxLength);
    for i := 0 to bytesToCopy
      invariant forall j :: startPos <= j < startPos + i ==> data[j] == Utf8Field(text, maxLength)[j - startPos]
      invariant forall j :: 0 <= j < data.Length && !(startPos <= j < startPos + i) ==> data[j] == old(data[j])
    {
      data[startPos + i] := text[i];
    }
    for i := bytesToCopy to maxLength
      invariant forall j :: startPos <= j < startPos + i ==> data[j] == Utf8Field(text, maxLength)[j - startPos]
      invariant forall j :: 0 <= j < data.Length && !(startPos <= j < startPos + i) ==> data[j] == old(data[j])
    {
      data[startPos + i] := 0;
    }
    assert data[..] == Splice(old(data[..]), startPos, Utf8Field(text, maxLength));
  }

  /** Writes red, green, blue, alpha of the packed colour at startPos..startPos+3; nothing else changes. */
  method WriteRgba(data: array<Byte>, startPos: nat, color: Color)
    requires startPos + 4 <= data.Length
    modifies data
    ensures data[..] == Splice(old(data[..]), startPos, Rgba(color))
  {
    var alpha := Alpha(color);
    var red := Red(color);
    var green := Green(color);
    var blue := Blue(color);

    data[startPos + 0] := ToByte(red);
    data[startPos + 1] := ToByte(green);
    data[startPos + 2] := ToByte(blue);
    data[startPos + 3] := ToByte(alpha);
    assert data[..] == old(data[..])[startPos := red][startPos + 1 := green][startPos + 2 := blue][startPos + 3 := alpha];
    UpdatesAreSplice(old(data[..]), startPos, [red, green, blue, alpha]);
  }

  /** Writes (value shr 8) and 0xFF, then value and 0xFF, at startPos and startPos+1; nothing else changes. */
  method WriteBigEndianShort(data: array<Byte>, startPos: nat, value: Int32)
    requires startPos + 2 <= data.Length
    modifies data
    ensures data[..] == Splice(old(data[..]), startPos, BigEndian16(value))
  {
    data[startPos + 0] := ToByte((value / 256) % 256);
    data[startPos + 1] := ToByte(value % 256);
    assert data[..] == Splice(old(data[..]), startPos, BigEndian16(value));
  }
}
