# OpenTag3D core-block encoder (SpoolCompanion)

This project models the OpenTag3D encoder of SpoolCompanion in Dafny, and proves properties of that model. SpoolCompanion is an Android app for filament spools. The encoder turns one spool record (material, manufacturer, colour name, up to four colours, diameter, weight, temperatures, density) into the fixed 111-byte core block of the OpenTag3D format. The app writes that block to an NFC tag with MIME type `application/opentag3d`.

Everything is in `opentag3d.dfy`, module `OpenTag3D`:

- **Data.** `SpoolTag` is the record, with the data class's defaults: tag version 20 and an empty material modifier. `Byte` is one buffer byte, held as its 8-bit pattern 0..255. `Int32` is a Kotlin `Int`. `Color` is a Compose colour's packed 64-bit value. `Black` and `Transparent` are the two default colours.
- **Layout.** `LayoutByte` states the memory map byte by byte, following the doc comment of the data class. `Encoded(tag)` is the 111-byte block that the layout gives for a record.
- **Encoder.** `EncodeToBytes` allocates a zero-filled `array<Byte>` of 111 bytes. It then fills the array field by field, in the source's order, through three in-place helpers:
  - `WriteUtf8` runs two loops: it copies the text, then zero-pads.
  - `WriteRgba` writes a colour.
  - `WriteBigEndianShort` writes a 16-bit value.
  
  Each helper's postcondition gives the whole new array: the old one with one field spliced in (`Splice`), so nothing outside the field changes. The encoder is proved to return exactly `Encoded(tag)`. Because every write verifies, every index written lies in 0..110.
- **Properties.** The lemmas state what the layout promises:
  - where each field sits;
  - which bytes are always zero;
  - how colours are ordered and defaulted;
  - how numbers and texts read back.
  
  `ReadU16` and `ReadText` are readers defined only so that these round trips can be stated. The system itself has no decoder.

Kotlin's `toByte()` keeps the low 8 bits, modelled as `x % 256`. Dafny's `%` is Euclidean, so for a negative `x` this gives the two's-complement bit pattern. `shr 8` on an `Int` is floor division by 256. The colour channels `(value shr k) and 0xFF` are `(value / 2^k) % 256`. The temperature `(t / 5).toInt()` is division by 5 rounded toward zero (`TruncDiv5`).

The code extracts the colour channels from a packed 64-bit value: alpha in bits 63..56, red in 55..48, green in 47..40 and blue in 39..32. For each numeric field it writes the low 16 (or 8) bits of whatever integer it is given. The model does the same, so a negative or oversized value wraps.

## Model

| member | source | states |
|---|---|---|
| `OpenTag3D.EncodeToBytes` | app/src/main/java/com/hexxotest/spoolcompanion/opentag3d/OpenTag3D.kt:39-94 | returns a fresh 111-byte buffer equal to the memory-map layout of the record |
| `OpenTag3D.WritesProduceLayout` | app/src/main/java/com/hexxotest/spoolcompanion/opentag3d/OpenTag3D.kt:41-91 | the encoder's writes, done in order over a zero-filled 111-byte buffer, give exactly the layout `Encoded(tag)`; no write falls outside its field or disturbs an earlier one |
| `OpenTag3D.WriteUtf8` | app/src/main/java/com/hexxotest/spoolcompanion/opentag3d/OpenTag3D.kt:100-113 | afterwards the field [startPos, startPos+maxLength) holds the first min(len, maxLength) text bytes followed by zeros; every other index is unchanged; no bound on the text length |
| `OpenTag3D.WriteRgba` | app/src/main/java/com/hexxotest/spoolcompanion/opentag3d/OpenTag3D.kt:119-134 | afterwards bytes startPos..startPos+3 hold `Rgba(color)` and every other index is unchanged. `Rgba` is red, green, blue, alpha, where `Alpha`, `Red`, `Green` and `Blue` take bits 63..56, 55..48, 47..40 and 39..32 of the packed value |
| `OpenTag3D.WriteBigEndianShort` | app/src/main/java/com/hexxotest/spoolcompanion/opentag3d/OpenTag3D.kt:139-142 | afterwards bytes startPos and startPos+1 hold `BigEndian16(value)`, the high byte (value shr 8) then the low byte, and every other index is unchanged |
| `OpenTag3D.Splice` | app/src/main/java/com/hexxotest/spoolcompanion/opentag3d/OpenTag3D.kt:105-111 | writing a field over a buffer keeps its length, puts the field's bytes at their positions and leaves every other byte as it was |
| `OpenTag3D.ToByte` | app/src/main/java/com/hexxotest/spoolcompanion/opentag3d/OpenTag3D.kt:44-45 | `toByte()` gives the one byte congruent to the integer modulo 256 |
| `OpenTag3D.Utf8Field` | app/src/main/java/com/hexxotest/spoolcompanion/opentag3d/OpenTag3D.kt:96-113 | a text field has exactly its width; byte i is text byte i while the text lasts and zero after it, so over-long text is cut and short text is zero-padded |
| `OpenTag3D.Utf8FieldRoundTrip` | app/src/main/java/com/hexxotest/spoolcompanion/opentag3d/OpenTag3D.kt:100-113 | reading a text field up to its first zero byte gives back the text truncated to the width, when the kept bytes hold no zero byte |
| `OpenTag3D.ReadTextStopsAtNul` | app/src/main/java/com/hexxotest/spoolcompanion/opentag3d/OpenTag3D.kt:109-112 | the zero padding ends the text: a zero-free text followed by padding reads back as the text |
| `OpenTag3D.Truncated` | app/src/main/java/com/hexxotest/spoolcompanion/opentag3d/OpenTag3D.kt:102 | the kept part of a text is its prefix of exactly min(length, width) bytes, so it is the whole text when it fits |
| `OpenTag3D.BigEndian16RoundTrip` | app/src/main/java/com/hexxotest/spoolcompanion/opentag3d/OpenTag3D.kt:139-142 | high byte * 256 + low byte gives the value modulo 65536, and the value itself when it lies in 0..65535 |
| `OpenTag3D.TruncDiv5` | app/src/main/java/com/hexxotest/spoolcompanion/opentag3d/OpenTag3D.kt:82-85 | temperature / 5 rounds toward zero, and `TempByte` narrows that quotient to 8 bits: for t >= 0, 5q <= t < 5q+5; for t < 0, 5q-5 < t <= 5q <= 0 |
| `OpenTag3D.TempByteRange` | app/src/main/java/com/hexxotest/spoolcompanion/opentag3d/OpenTag3D.kt:81-85 | the temperature byte `TempByte(t)` of a temperature in 0..1279 is stored as floor(t/5); 1280 degrees higher gives the same byte (narrowing wraps) |
| `OpenTag3D.RgbaOfPacked` | app/src/main/java/com/hexxotest/spoolcompanion/opentag3d/OpenTag3D.kt:120-133 | for a colour packed with alpha, red, green, blue in bits 63..32, the four bytes written are red, green, blue, alpha, whatever the low 32 bits hold |
| `OpenTag3D.DefaultColorBytes` | app/src/main/java/com/hexxotest/spoolcompanion/opentag3d/OpenTag3D.kt:62-73 | Black is written 00 00 00 FF and Transparent 00 00 00 00 |
| `OpenTag3D.Encoded` | app/src/main/java/com/hexxotest/spoolcompanion/opentag3d/OpenTag3D.kt:8-24 | the core block of a record is exactly 111 bytes long; `LayoutByte` gives each byte from the memory map, and the lemmas below state its contents |
| `OpenTag3D.EncodedFields` | app/src/main/java/com/hexxotest/spoolcompanion/opentag3d/OpenTag3D.kt:8-24 | each field sits at its memory-map offset with its width: version 0x00, texts 0x02/0x07/0x1B/0x2B, colours 0x4B/0x50/0x54/0x58, diameter 0x5C, weight 0x5E, temperatures 0x60/0x61, density 0x62, transmission distance 0x64 |
| `OpenTag3D.ReservedBytesZero` | app/src/main/java/com/hexxotest/spoolcompanion/opentag3d/OpenTag3D.kt:41-91 | for every record the reserved bytes 0x0C-0x1A, the gap 0x4F and the tail 0x66-0x6E are zero |
| `OpenTag3D.EncodedNumbers` | app/src/main/java/com/hexxotest/spoolcompanion/opentag3d/OpenTag3D.kt:43-91 | the version, diameter, weight and density read back big-endian as their values modulo 65536; bytes 0x60 and 0x61 are the temperature bytes; the transmission distance reads 0 |
| `OpenTag3D.EncodedTexts` | app/src/main/java/com/hexxotest/spoolcompanion/opentag3d/OpenTag3D.kt:47-59 | base material, modifier, manufacturer and colour name read back as their texts truncated to 5, 5, 16 and 32 bytes, when those hold no zero byte |
| `OpenTag3D.EncodedColors` | app/src/main/java/com/hexxotest/spoolcompanion/opentag3d/OpenTag3D.kt:61-73 | `colors.getOrElse(i)` (line 62) with its defaults: slot i holds colors[i] as R, G, B, A when the list has it; otherwise slot 0 holds 00 00 00 FF and slots 1-3 hold 00 00 00 00 |
| `OpenTag3D.ExtraColorsIgnored` | app/src/main/java/com/hexxotest/spoolcompanion/opentag3d/OpenTag3D.kt:62-73 | colour list entries at index 4 and beyond never change the block |
| `OpenTag3D.DataClassDefaults` | app/src/main/java/com/hexxotest/spoolcompanion/opentag3d/OpenTag3D.kt:26-51 | a record built without version or modifier encodes version 20 as 0x00 0x14 and the modifier as five zero bytes |
| `OpenTag3D.ExampleBlock` | app/src/main/java/com/hexxotest/spoolcompanion/opentag3d/OpenTag3D.kt:75-88 | 1750 um, 1000 g, 220 and 60 degrees C and 1240 ug/cm3 are stored as big-endian 1750, big-endian 1000, bytes 44 and 12, and big-endian 1240 |

## Left out

- Floating point. Diameter, weight, temperatures and density are `Double` in the source, scaled by `* 1000` or `/ 5` and then converted with `toInt()`. In the model they are already-scaled integers (micrometres, grams, degrees C, micrograms per cm3). Only the division of a temperature by 5, rounded toward zero, and the narrowing to 8 or 16 bits stay. Fractional temperatures, rounding of `* 1000`, and `toInt()` saturation for NaN or huge values are not modelled.
- UTF-8 encoding. `toByteArray(Charsets.UTF_8)` is a library call, so text fields are given as byte sequences that are already encoded.
- Compose `Color` internals. A colour is its packed 64-bit value in the sRGB layout the code assumes. Colours in other colour spaces, whose packed value has another layout, are not modelled. The model takes `Black` as 0xFF000000_00000000 and `Transparent` as 0, which is how Compose packs `Color(0xFF000000)` and `Color(0x00000000)`.
- Kotlin's `Byte` is signed. The model stores each byte as its unsigned bit pattern 0..255, which has the same bits.
- `WriteUtf8`: `maxLength` is a `nat`. The source never passes a negative width, and with one its loops would write nothing.
- `EncodeToBytes` is a module-level method that takes the record, not a member of the data class. The `application/opentag3d` MIME type is the constant `MimeType` and has no behaviour.
- The UI state holders and the network fetch of spool data are not part of this model. That covers the Compose state, the Retrofit calls and coroutines, logging, hex colour parsing and `Double`-to-string formatting, none of which has logic beyond field copying that the encoder depends on.
- Writing the block to an NFC tag is not modelled. There is no decoder in the system: `ReadU16` and `ReadText` exist only to state the round trips.
