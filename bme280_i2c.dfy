/** The I2C adapter that lets the Bosch BME280 driver talk to the sensor from a Raspberry Pi
    Pico (csensor/bme280_pico_i2c.c). The I2C peripheral is a bus object that logs each blocking
    transfer; the count it reports and the bytes the sensor sends back are parameters. */
module Bme280I2c {
  import opened LittleEndian

  /** The adapter's return codes, as the Bosch API names them. */
  datatype Status = Success | NullPtr | CommFail | InvalidLen

  /** The largest data length a write accepts: the frame buffer holds 21 bytes. */
  const MaxWriteLen := 20

  /** A blocking transfer on the bus; `nostop` keeps the bus for a repeated start. */
  datatype Transfer =
    | WriteTransfer(addr: byte, data: seq<byte>, nostop: bool)
    | ReadTransfer(addr: byte, len: nat, nostop: bool)

  /** An I2C instance. */
  class Bus {
    var frequency: int
    var transfers: seq<Transfer>

    constructor()
      ensures frequency == 0 && transfers == []
    {
      frequency := 0;
      transfers := [];
    }

    /** i2c_init */
    method Init(freq: int)
      modifies this
      ensures frequency == freq && transfers == old(transfers)
    {
      frequency := freq;
    }

    /** i2c_write_blocking: `answer` is the count (or error) the hardware reports. */
    method WriteBlocking(addr: byte, data: seq<byte>, nostop: bool, answer: int) returns (ret: int)
      modifies this
      ensures transfers == old(transfers) + [WriteTransfer(addr, data, nostop)]
      ensures frequency == old(frequency) && ret == answer
    {
      transfers := transfers + [WriteTransfer(addr, data, nostop)];
      ret := answer;
    }

    /** i2c_read_blocking into dst[..len]: `incoming` is what the device sends. */
    method ReadBlocking(addr: byte, dst: array<byte>, len: nat, nostop: bool, incoming: seq<byte>, answer: int) returns (ret: int)
      requires len <= dst.Length && |incoming| == len
      modifies this, dst
      ensures transfers == old(transfers) + [ReadTransfer(addr, len, nostop)]
      ensures frequency == old(frequency) && ret == answer
      ensures dst[..len] == incoming && dst[len..] == old(dst[len..])
    {
      transfers := transfers + [ReadTransfer(addr, len, nostop)];
      var i := 0;
      while i < len
        invariant 0 <= i <= len
        invariant dst[..i] == incoming[..i] && dst[len..] == old(dst[len..])
        invariant transfers == old(transfers) + [ReadTransfer(addr, len, nostop)] && frequency == old(frequency)
      {
        dst[i] := incoming[i];
        i := i + 1;
      }
      ret := answer;
    }
  }

  /** struct bme280_pico_i2c_context */
  class Context {
    var i2c: Bus
    var addr: byte

    constructor(i2c: Bus, addr: byte)
      ensures this.i2c == i2c && this.addr == addr
    {
      this.i2c := i2c;
      this.addr := addr;
    }
  }

  /** The frame a register write puts on the bus: the register address, then the data. */
  function WriteFrame(regAddr: byte, data: seq<byte>): (frame: seq<byte>)
    ensures |frame| == |data| + 1 && frame[0] == regAddr && frame[1..] == data
  {
    [regAddr] + data
  }

  /** bme280_pico_i2c_write. The caller's buffer holds at least `len` bytes whenever it is read. */
  method Write(regAddr: byte, regData: array?<byte>, len: u32, ctx: Context?, answer: int) returns (status: Status)
    requires regData != null && len <= MaxWriteLen ==> len <= regData.Length
    modifies if ctx != null then {ctx.i2c} else {}
    ensures ctx == null || regData == null ==> status == NullPtr
    ensures ctx != null && regData != null && len > MaxWriteLen ==> status == InvalidLen
    ensures ctx != null && ctx.i2c.transfers != old(ctx.i2c.transfers) ==>
      && regData != null && len <= MaxWriteLen
      && ctx.i2c.transfers == old(ctx.i2c.transfers) + [WriteTransfer(ctx.addr, WriteFrame(regAddr, regData[..len]), false)]
      && (status == Success <==> answer == len + 1)
      && (status != Success ==> status == CommFail)
    ensures ctx != null && regData != null && len <= MaxWriteLen ==> ctx.i2c.transfers != old(ctx.i2c.transfers)
    ensures ctx != null ==> ctx.i2c.frequency == old(ctx.i2c.frequency)
  {
    if ctx == null || regData == null {
      return NullPtr;
    }
    var buf := new byte[21];
    if len > MaxWriteLen {
      return InvalidLen;
    }
    buf[0] := regAddr;
    var i := 0;
    while i < len
      invariant 0 <= i <= len
      invariant buf[0] == regAddr && buf[1..i + 1] == regData[..i]
      invariant ctx.i2c.transfers == old(ctx.i2c.transfers) && ctx.i2c.frequency == old(ctx.i2c.frequency)
    {
      buf[i + 1] := regData[i];
      i := i + 1;
    }
    assert buf[..len + 1] == WriteFrame(regAddr, regData[..len]);
    var ret := ctx.i2c.WriteBlocking(ctx.addr, buf[..len + 1], false, answer);
    if ret != len + 1 {
      return CommFail;
    }
    return Success;
  }

  /** bme280_pico_i2c_read: send the register address keeping the bus, then read `len` bytes.
      `sentAnswer` and `readAnswer` are the counts the two transfers report and `incoming` the
      bytes the sensor returns. */
  method Read(regAddr: byte, regData: array?<byte>, len: u32, ctx: Context?, sentAnswer: int,
              incoming: seq<byte>, readAnswer: int) returns (status: Status)
    requires regData != null ==> len <= regData.Length
    requires |incoming| == len
    modifies if ctx != null then {ctx.i2c} else {}, regData
    ensures ctx == null || regData == null ==> status == NullPtr && (ctx != null ==> ctx.i2c.transfers == old(ctx.i2c.transfers))
    ensures ctx != null && regData != null && sentAnswer != 1 ==>
      && status == CommFail
      && ctx.i2c.transfers == old(ctx.i2c.transfers) + [WriteTransfer(ctx.addr, [regAddr], true)]
    ensures ctx != null && regData != null && sentAnswer == 1 ==>
      && ctx.i2c.transfers == old(ctx.i2c.transfers) + [WriteTransfer(ctx.addr, [regAddr], true), ReadTransfer(ctx.addr, len, false)]
      && regData[..len] == incoming
      && (status == Success <==> readAnswer == len)
      && (status != Success ==> status == CommFail)
    ensures regData != null && (ctx == null || sentAnswer != 1) ==> regData[..] == old(regData[..])
    ensures regData != null ==> regData[len..] == old(regData[len..])
    ensures ctx != null ==> ctx.i2c.frequency == old(ctx.i2c.frequency)
  {
    if ctx == null || regData == null {
      return NullPtr;
    }
    var bus := ctx.i2c;
    var addr := ctx.addr;
    var ret := bus.WriteBlocking(addr, [regAddr], true, sentAnswer);
    if ret != 1 {
      return CommFail;
    }
    ret := bus.ReadBlocking(addr, regData, len, false, incoming, readAnswer);
    if ret != len {
      return CommFail;
    }
    return Success;
  }

  /** bme280_pico_i2c_init: the context records the instance and address, and the instance is
      brought up at the requested frequency. Pin multiplexing and pull-ups are not modelled. */
  method Init(ctx: Context, i2cInstance: Bus, i2cAddr: byte, sdaPin: nat, sclPin: nat, i2cFreq: nat)
    modifies ctx, i2cInstance
    ensures ctx.i2c == i2cInstance && ctx.addr == i2cAddr
    ensures i2cInstance.frequency == i2cFreq && i2cInstance.transfers == old(i2cInstance.transfers)
  {
    ctx.i2c := i2cInstance;
    ctx.addr := i2cAddr;
    ctx.i2c.Init(i2cFreq);
  }
}
