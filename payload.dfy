/** The 22-byte sensor advertisement payload and the gateway's decoder
    (gateway/internal/ble/parse.go).

    Layout, little-endian: [0,2) magic 0x01 0xD0, [2,6) device id, [6,10) reading id,
    [10,14) temperature, [14,18) pressure, [18,22) humidity. The three float32 readings
    are carried as their 32-bit patterns, so decoding is exact. */
module Payload {
  import opened LittleEndian

  const Magic0: byte := 0x01
  const Magic1: byte := 0xD0
  const PayloadLen: nat := 22

  /** A decoded reading; the float fields are IEEE-754 single-precision bit patterns. */
  datatype SensorReading = SensorReading(
    deviceId: u32,
    readingId: u32,
    temperatureBits: u32,
    pressureBits: u32,
    humidityBits: u32)

  /** Either a whole reading or one of the two errors; never a partial reading. */
  datatype ParseResult =
    | Parsed(reading: SensorReading)
    | TooShort(length: nat)
    | BadMagic(first: byte, second: byte)

  /** The canonical byte layout of a reading; both firmware encoders produce exactly this. */
  function Encode(r: SensorReading): (b: seq<byte>)
    ensures |b| == PayloadLen
    ensures b[0] == Magic0 && b[1] == Magic1
    ensures b[2..6] == Le32(r.deviceId) && b[6..10] == Le32(r.readingId)
    ensures b[10..14] == Le32(r.temperatureBits) && b[14..18] == Le32(r.pressureBits)
    ensures b[18..22] == Le32(r.humidityBits)
  {
    [Magic0, Magic1] + Le32(r.deviceId) + Le32(r.readingId)
      + Le32(r.temperatureBits) + Le32(r.pressureBits) + Le32(r.humidityBits)
  }

  /** A 22-byte sequence laid out field by field is the canonical encoding. */
  lemma EncodedBySegments(b: seq<byte>, r: SensorReading)
    requires |b| == PayloadLen && b[0] == Magic0 && b[1] == Magic1
    requires b[2..6] == Le32(r.deviceId) && b[6..10] == Le32(r.readingId)
    requires b[10..14] == Le32(r.temperatureBits) && b[14..18] == Le32(r.pressureBits)
    requires b[18..22] == Le32(r.humidityBits)
    ensures b == Encode(r)
  {
    var e := Encode(r);
    forall i | 0 <= i < PayloadLen ensures b[i] == e[i] {
      if 2 <= i < 6 { assert b[i] == b[2..6][i - 2] && e[i] == e[2..6][i - 2]; }
      else if 6 <= i < 10 { assert b[i] == b[6..10][i - 6] && e[i] == e[6..10][i - 6]; }
      else if 10 <= i < 14 { assert b[i] == b[10..14][i - 10] && e[i] == e[10..14][i - 10]; }
      else if 14 <= i < 18 { assert b[i] == b[14..18][i - 14] && e[i] == e[14..18][i - 14]; }
      else if 18 <= i < 22 { assert b[i] == b[18..22][i - 18] && e[i] == e[18..22][i - 18]; }
    }
  }

  /** ParseSensorPayload: length check first, then the magic check, then fixed-offset reads. */
  function ParseSensorPayload(data: seq<byte>): (r: ParseResult)
    ensures r.TooShort? <==> |data| < PayloadLen
    ensures r.TooShort? ==> r.length == |data|
    ensures r.BadMagic? <==> |data| >= PayloadLen && (data[0] != Magic0 || data[1] != Magic1)
    ensures r.BadMagic? ==> r.first == data[0] && r.second == data[1]
    ensures r.Parsed? ==>
      && r.reading.deviceId == FromLe32(data[2..6])
      && r.reading.readingId == FromLe32(data[6..10])
      && r.reading.temperatureBits == FromLe32(data[10..14])
      && r.reading.pressureBits == FromLe32(data[14..18])
      && r.reading.humidityBits == FromLe32(data[18..22])
  {
    if |data| < PayloadLen then TooShort(|data|)
    else if data[0] != Magic0 || data[1] != Magic1 then BadMagic(data[0], data[1])
    else Parsed(SensorReading(
      FromLe32(data[2..6]), FromLe32(data[6..10]),
      FromLe32(data[10..14]), FromLe32(data[14..18]), FromLe32(data[18..22])))
  }

  /** Central round trip: decoding an encoded reading gives back that reading. */
  lemma ParseEncode(r: SensorReading)
    ensures ParseSensorPayload(Encode(r)) == Parsed(r)
  {
    var b := Encode(r);
    FromLe32OfLe32(r.deviceId);
    FromLe32OfLe32(r.readingId);
    FromLe32OfLe32(r.temperatureBits);
    FromLe32OfLe32(r.pressureBits);
    FromLe32OfLe32(r.humidityBits);
  }

  /** The converse: a successful decode determines the first 22 bytes exactly. */
  lemma EncodeParse(data: seq<byte>)
    requires ParseSensorPayload(data).Parsed?
    ensures Encode(ParseSensorPayload(data).reading) == data[..PayloadLen]
  {
    var r := ParseSensorPayload(data).reading;
    Le32OfFromLe32(data[2..6]);
    Le32OfFromLe32(data[6..10]);
    Le32OfFromLe32(data[10..14]);
    Le32OfFromLe32(data[14..18]);
    Le32OfFromLe32(data[18..22]);
    EncodedBySegments(data[..PayloadLen], r);
  }

  /** Bytes past offset 22 are ignored. */
  lemma ParseIgnoresTail(a: seq<byte>, b: seq<byte>)
    requires |a| >= PayloadLen && |b| >= PayloadLen
    requires a[..PayloadLen] == b[..PayloadLen]
    ensures ParseSensorPayload(a) == ParseSensorPayload(b)
  {
    assert a[2..6] == a[..PayloadLen][2..6];
    assert b[2..6] == b[..PayloadLen][2..6];
    assert a[6..10] == a[..PayloadLen][6..10];
    assert b[6..10] == b[..PayloadLen][6..10];
    assert a[10..14] == a[..PayloadLen][10..14];
    assert b[10..14] == b[..PayloadLen][10..14];
    assert a[14..18] == a[..PayloadLen][14..18];
    assert b[14..18] == b[..PayloadLen][14..18];
    assert a[18..22] == a[..PayloadLen][18..22];
    assert b[18..22] == b[..PayloadLen][18..22];
    assert a[0] == a[..PayloadLen][0] && b[0] == b[..PayloadLen][0];
    assert a[1] == a[..PayloadLen][1] && b[1] == b[..PayloadLen][1];
  }

  /** The worked example: device 0x12345678, reading 1, 25.0 degrees (0x41C80000),
      1000.0 (0x447A0000) and 5.0 (0x40A00000). */
  lemma ParseExample()
    ensures ParseSensorPayload([0x01, 0xD0, 0x78, 0x56, 0x34, 0x12, 0x01, 0x00, 0x00, 0x00,
                                0x00, 0x00, 0xC8, 0x41, 0x00, 0x00, 0x7A, 0x44, 0x00, 0x00, 0xA0, 0x40])
      == Parsed(SensorReading(0x12345678, 1, 0x41C8_0000, 0x447A_0000, 0x40A0_0000))
  {
    var d: seq<byte> := [0x01, 0xD0, 0x78, 0x56, 0x34, 0x12, 0x01, 0x00, 0x00, 0x00,
                         0x00, 0x00, 0xC8, 0x41, 0x00, 0x00, 0x7A, 0x44, 0x00, 0x00, 0xA0, 0x40];
    assert d[2..6] == [0x78, 0x56, 0x34, 0x12];
    assert d[6..10] == [0x01, 0x00, 0x00, 0x00];
    assert d[10..14] == [0x00, 0x00, 0xC8, 0x41];
    assert d[14..18] == [0x00, 0x00, 0x7A, 0x44];
    assert d[18..22] == [0x00, 0x00, 0xA0, 0x40];
    assert FromLe32(d[2..6]) == 0x12345678;
    assert FromLe32(d[6..10]) == 1;
    assert FromLe32(d[10..14]) == 0x41C8_0000;
    assert FromLe32(d[14..18]) == 0x447A_0000;
    assert FromLe32(d[18..22]) == 0x40A0_0000;
  }
}
