/** The TinyGo sensor node's advertiser (sensor/ble.go): a reusable 22-byte buffer that is
    also the advertised manufacturer data, and a package-wide reading counter. */
module TinyGoSensor {
  import opened Wrappers
  import opened LittleEndian
  import Payload

  /** A sensor reading as float32 bit patterns (math.Float32bits of each field). */
  datatype Reading = Reading(temperatureBits: u32, pressureBits: u32, humidityBits: u32)

  const CompanyId: u16 := 0xFFFF
  const LocalName: string := "pico2w-sensor"

  /** The package-level `counter` that numbers readings. */
  class Counter {
    var value: u32

    constructor ()
      ensures value == 0
    {
      value := 0;
    }
  }

  class Ble {
    var deviceId: u32
    /** `readingData`, fixed at 22 bytes. */
    const readingData: array<byte>
    /** The Data of the single ManufacturerDataElement in the advertisement options. */
    const advertisedData: array<byte>
    const companyId: u16

    /** The advertised manufacturer data is a slice of the reading buffer itself. */
    ghost predicate Valid()
      reads this
    {
      readingData.Length == Payload.PayloadLen && advertisedData == readingData
      && companyId == CompanyId
    }

    /** NewBLE after a successful adapter.Enable: a zeroed buffer shared with the advertisement. */
    constructor (deviceId: u32)
      ensures Valid() && fresh(readingData)
      ensures this.deviceId == deviceId
      ensures readingData[..] == seq(Payload.PayloadLen, _ => 0)
    {
      this.deviceId := deviceId;
      var buf := new byte[Payload.PayloadLen](_ => 0);
      readingData := buf;
      advertisedData := buf;
      companyId := CompanyId;
    }

    /** EncodeReadingPayload: rewrites the whole buffer in place with the canonical layout. */
    method EncodeReadingPayload(reading: Reading, id: u32)
      requires Valid()
      modifies readingData
      ensures Valid() && deviceId == old(deviceId)
      ensures readingData[..] == Payload.Encode(Payload.SensorReading(
        deviceId, id, reading.temperatureBits, reading.pressureBits, reading.humidityBits))
      ensures advertisedData[..] == readingData[..]
    {
      readingData[0] := Payload.Magic0;
      readingData[1] := Payload.Magic1;
      PutUint32(readingData, 2, deviceId);
      PutUint32(readingData, 6, id);
      PutUint32(readingData, 10, reading.temperatureBits);
      PutUint32(readingData, 14, reading.pressureBits);
      PutUint32(readingData, 18, reading.humidityBits);
      Payload.EncodedBySegments(readingData[..], Payload.SensorReading(
        deviceId, id, reading.temperatureBits, reading.pressureBits, reading.humidityBits));
    }

    /** Send: takes the current counter as the id and bumps the counter (wrapping at 2^32)
        before anything can fail; the outcomes of Configure and Start are parameters. */
    method Send(reading: Reading, counter: Counter, configureErr: Option<string>, startErr: Option<string>)
      returns (id: u32, err: Option<string>)
      requires Valid()
      modifies readingData, counter
      ensures Valid() && deviceId == old(deviceId)
      ensures counter.value == Inc32(old(counter.value))
      ensures readingData[..] == Payload.Encode(Payload.SensorReading(
        deviceId, old(counter.value), reading.temperatureBits, reading.pressureBits, reading.humidityBits))
      ensures err == (if configureErr.Some? then configureErr else startErr)
      ensures id == (if err.None? then old(counter.value) else 0)
    {
      var next := counter.value;
      counter.value := Inc32(counter.value);
      EncodeReadingPayload(reading, next);
      if configureErr.Some? {
        return 0, configureErr;
      }
      if startErr.Some? {
        return 0, startErr;
      }
      return next, None;
    }
  }
}
