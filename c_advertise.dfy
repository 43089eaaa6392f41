/** The C firmware's BLE advertiser (csensor/ble_advertise.c): the module statics
    `ble_initialized`, `device_id`, `reading_id`, `adv_data[31]` and `adv_data_len`,
    and the BTstack calls it makes, recorded as the data handed to the radio. */
module CAdvertise {
  import opened Wrappers
  import opened LittleEndian
  import Payload

  /** Advertising data types from the Bluetooth Core Specification Supplement, Part A:
      Flags (section 1.3) and Manufacturer Specific Data (section 1.4). */
  const DataTypeFlags: byte := 0x01
  const DataTypeManufacturerSpecific: byte := 0xFF
  /** LE General Discoverable Mode, BR/EDR Not Supported. */
  const FlagsValue: byte := 0x06
  const CompanyId: u16 := 0xFFFF
  const MaxAdvDataLen: nat := 31

  /** sensor_data_t, as float bit patterns. */
  datatype SensorData = SensorData(temperatureBits: u32, pressureBits: u32, humidityBits: u32)

  /** One advertising-data structure (Core Specification Vol 3, Part C, section 11):
      a length byte covering the type byte and the value. */
  datatype AdStructure = AdStructure(adType: byte, value: seq<byte>)

  /** The bytes build_adv_data lays out: the Flags structure, then one Manufacturer
      Specific Data structure carrying company id 0xFFFF (little-endian) and the payload. */
  function AdvData(r: Payload.SensorReading): (b: seq<byte>)
    ensures |b| == 29
  {
    AdvHeader + Payload.Encode(r)
  }

  /** The seven bytes in front of the payload: the Flags structure, then the length, type and
      company id of the manufacturer data. */
  const AdvHeader: seq<byte> :=
    [2, DataTypeFlags, FlagsValue, 25, DataTypeManufacturerSpecific, ByteAt(CompanyId, 0), ByteAt(CompanyId, 1)]

  /** Splits advertising data into structures; a zero length byte or a structure running
      past the end terminates the data. */
  function AdStructures(data: seq<byte>): (r: seq<AdStructure>)
    decreases |data|
  {
    if |data| == 0 || data[0] == 0 || |data| < 1 + data[0] as int then []
    else [AdStructure(data[1], data[2..1 + data[0]])] + AdStructures(data[1 + data[0]..])
  }

  /** A receiver splits the firmware's advertisement into exactly the two intended
      structures: Flags 0x06, and manufacturer data made of the company id and the payload. */
  lemma AdvDataStructures(r: Payload.SensorReading)
    ensures AdStructures(AdvData(r)) == [
      AdStructure(DataTypeFlags, [FlagsValue]),
      AdStructure(DataTypeManufacturerSpecific, Le16(CompanyId) + Payload.Encode(r))]
  {
    var d := AdvData(r);
    var e := Le16(CompanyId) + Payload.Encode(r);
    assert d == [2, DataTypeFlags, FlagsValue, 25, DataTypeManufacturerSpecific] + e;
    assert d[0] == 2 && d[3] == 25;
    var rest := d[3..];
    assert rest[0] == 25 && |rest| == 26;
    assert rest[26..] == [];
    assert AdStructures(rest[26..]) == [];
    assert rest[2..26] == d[5..] == e;
    assert AdStructures(rest) == [AdStructure(DataTypeManufacturerSpecific, rest[2..26])];
    assert d[2..3] == [FlagsValue];
  }

  /** The little-endian 16-bit company id as written by the firmware. */
  function Le16(v: u16): (b: seq<byte>)
    ensures |b| == 2 && b[0] as int + 0x100 * b[1] as int == v
  {
    [ByteAt(v, 0), ByteAt(v, 1)]
  }

  /** The 31-byte limit applied to adv_data_len after building. */
  function ClampAdvDataLen(n: nat): (r: byte)
    ensures r <= MaxAdvDataLen
    ensures n <= MaxAdvDataLen ==> r == n
  {
    if n > MaxAdvDataLen then 31 else n
  }

  /** The firmware's module state and what it last gave the radio. */
  class Advertiser {
    var bleInitialized: bool
    var deviceId: u32
    var readingId: u32
    const advData: array<byte>
    var advDataLen: byte
    /** The data most recently passed to gap_advertisements_set_data. */
    var radioData: seq<byte>
    var advertisingEnabled: bool

    ghost predicate Valid()
      reads this
    {
      advData.Length == MaxAdvDataLen && advDataLen <= MaxAdvDataLen
    }

    /** Program start: statics zero-initialised. */
    constructor ()
      ensures Valid() && fresh(advData)
      ensures !bleInitialized && deviceId == 0 && readingId == 0 && advDataLen == 0
      ensures radioData == [] && !advertisingEnabled
    {
      bleInitialized, deviceId, readingId := false, 0, 0;
      advData := new byte[MaxAdvDataLen](_ => 0);
      advDataLen := 0;
      radioData := [];
      advertisingEnabled := false;
    }

    /** build_manufacturer_data: exactly 22 bytes in the canonical payload layout. */
    static method BuildManufacturerData(buffer: array<byte>, r: Payload.SensorReading)
      requires buffer.Length == Payload.PayloadLen
      modifies buffer
      ensures buffer[..] == Payload.Encode(r)
    {
      buffer[0] := Payload.Magic0;
      buffer[1] := Payload.Magic1;
      PutUint32(buffer, 2, r.deviceId);
      PutUint32(buffer, 6, r.readingId);
      PutUint32(buffer, 10, r.temperatureBits);
      PutUint32(buffer, 14, r.pressureBits);
      PutUint32(buffer, 18, r.humidityBits);
      Payload.EncodedBySegments(buffer[..], r);
    }

    /** build_adv_data: fills adv_data and sets adv_data_len to 29, so the clamp to 31
        never takes effect. */
    method BuildAdvData(r: Payload.SensorReading)
      requires Valid()
      modifies advData, this`advDataLen
      ensures Valid()
      ensures advDataLen == 29
      ensures advData[..advDataLen] == AdvData(r)
    {
      advData[0] := 0x02;
      advData[1] := DataTypeFlags;
      advData[2] := FlagsValue;
      ghost var flags := advData[..3];
      assert flags == AdvHeader[..3];
      var mfgData := new byte[Payload.PayloadLen];
      BuildManufacturerData(mfgData, r);
      advData[3] := 25;
      advData[4] := DataTypeManufacturerSpecific;
      advData[5] := ByteAt(CompanyId, 0);
      advData[6] := ByteAt(CompanyId, 1);
      assert advData[..7] == AdvHeader by {
        assert advData[..3] == flags;
        assert advData[..7] == advData[..3] + [advData[3], advData[4], advData[5], advData[6]];
      }
      Memcpy(advData, 7, mfgData);
      advDataLen := ClampAdvDataLen(7 + Payload.PayloadLen);
      assert advData[..29] == advData[..7] + advData[7..29];
    }

    /** memcpy(dst + off, src, src.Length): the bytes before `off` are kept. */
    static method Memcpy(dst: array<byte>, off: nat, src: array<byte>)
      requires dst != src && off + src.Length <= dst.Length
      modifies dst
      ensures dst[..off] == old(dst[..off])
      ensures dst[off..off + src.Length] == src[..]
    {
      var i := 0;
      while i < src.Length
        invariant 0 <= i <= src.Length
        invariant dst[..off] == old(dst[..off])
        invariant forall k :: 0 <= k < i ==> dst[off + k] == src[k]
      {
        dst[off + i] := src[i];
        i := i + 1;
      }
    }

    /** ble_advertise_init: a no-op when already initialised; otherwise stores the device id
        and restarts reading ids at 0. Readiness comes later, from the packet handler. */
    method Init(devId: u32) returns (status: int)
      requires Valid()
      modifies this
      ensures Valid()
      ensures status == 0
      ensures old(bleInitialized) ==> deviceId == old(deviceId) && readingId == old(readingId)
      ensures !old(bleInitialized) ==> deviceId == devId && readingId == 0
      ensures bleInitialized == old(bleInitialized)
      ensures advDataLen == old(advDataLen) && radioData == old(radioData)
      ensures advertisingEnabled == old(advertisingEnabled)
    {
      if bleInitialized {
        return 0;
      }
      deviceId := devId;
      readingId := 0;
      return 0;
    }

    /** packet_handler on a BTstack state event reporting HCI_STATE_WORKING: advertise the
        current reading id with zero readings, enable advertising, then mark ready. Any other
        packet or event changes nothing. */
    method PacketHandler(isHciEventPacket: bool, isStateEvent: bool, stateIsWorking: bool)
      requires Valid()
      modifies this, advData
      ensures Valid()
      ensures deviceId == old(deviceId) && readingId == old(readingId)
      ensures var fires := isHciEventPacket && isStateEvent && stateIsWorking;
        && (fires ==> bleInitialized && advertisingEnabled
                      && radioData == AdvData(Payload.SensorReading(deviceId, readingId, 0, 0, 0)))
        && (!fires ==> bleInitialized == old(bleInitialized) && radioData == old(radioData)
                       && advertisingEnabled == old(advertisingEnabled))
    {
      if !isHciEventPacket || !isStateEvent || !stateIsWorking {
        return;
      }
      BuildAdvData(Payload.SensorReading(deviceId, readingId, 0, 0, 0));
      radioData := advData[..advDataLen];
      advertisingEnabled := true;
      bleInitialized := true;
    }

    /** ble_advertise_update: -1 with no change when not ready or `data` is NULL; otherwise
        bump the reading id (uint32, wrapping) and advertise it with the new readings. */
    method Update(data: Option<SensorData>) returns (status: int)
      requires Valid()
      modifies advData, this`readingId, this`advDataLen, this`radioData
      ensures Valid()
      ensures status == (if bleInitialized && data.Some? then 0 else -1)
      ensures status == -1 ==> readingId == old(readingId) && radioData == old(radioData)
      ensures status == 0 ==>
        && readingId == Inc32(old(readingId))
        && radioData == AdvData(Payload.SensorReading(deviceId, readingId,
             data.value.temperatureBits, data.value.pressureBits, data.value.humidityBits))
    {
      if !bleInitialized {
        return -1;
      }
      if data.None? {
        return -1;
      }
      readingId := Inc32(readingId);
      BuildAdvData(Payload.SensorReading(deviceId, readingId,
        data.value.temperatureBits, data.value.pressureBits, data.value.humidityBits));
      radioData := advData[..advDataLen];
      return 0;
    }

    /** ble_advertise_deinit: nothing when not ready; otherwise stop advertising and clear the flag. */
    method Deinit()
      requires Valid()
      modifies this`bleInitialized, this`advertisingEnabled
      ensures !bleInitialized
      ensures old(bleInitialized) ==> !advertisingEnabled
      ensures !old(bleInitialized) ==> advertisingEnabled == old(advertisingEnabled)
    {
      if !bleInitialized {
        return;
      }
      advertisingEnabled := false;
      bleInitialized := false;
    }

    /** ble_advertise_is_ready. */
    method IsReady() returns (ready: bool)
      ensures ready == bleInitialized
    {
      return bleInitialized;
    }
  }

  /** After init and the WORKING event, the first sensor update advertises reading id 1,
      and the gateway decodes exactly that from the manufacturer structure. */
  method FirstUpdateCarriesIdOne(devId: u32, data: SensorData) returns (decoded: Payload.ParseResult)
    ensures decoded == Payload.Parsed(Payload.SensorReading(
      devId, 1, data.temperatureBits, data.pressureBits, data.humidityBits))
  {
    var adv := new Advertiser();
    var s := adv.Init(devId);
    adv.PacketHandler(true, true, true);
    s := adv.Update(Some(data));
    assert s == 0;
    var r := Payload.SensorReading(devId, 1, data.temperatureBits, data.pressureBits, data.humidityBits);
    AdvDataStructures(r);
    var mfg := AdStructures(adv.radioData)[1].value;
    assert mfg[2..] == Payload.Encode(r);
    Payload.ParseEncode(r);
    decoded := Payload.ParseSensorPayload(mfg[2..]);
  }
}
