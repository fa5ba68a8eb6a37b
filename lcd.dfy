/** The I2C character LCD (slave address 0x3C): an initialisation
    transaction of four commands, and writing a string one character per
    transaction. Both only drive the I2C master, so what they do is the
    sequence of bus events they append. */
module Lcd {
  import opened Bits
  import opened Mcu
  import opened CStrings
  import I2cDriver

  /** LCD_SLAVE_ADDR and the instruction bytes of the display controller. */
  const SlaveAddr: Byte := 0x3C
  const FunctionSet: Byte := 0x38
  const CursorDisplay: Byte := 0x0F
  const CursorIncrement: Byte := 0x06
  const ClearDisplay: Byte := 0x01
  const SetCgram: Byte := 0x40

  /** The frame I2C puts around the bytes of one LCD transaction. */
  function Transaction(bytes: seq<Byte>): seq<BusEvent>
  {
    [StartCondition, AddressSent(I2cDriver.AddressWord(SlaveAddr))]
      + I2cDriver.DataEvents(bytes) + [StopCondition]
  }

  /** The bus traffic of lcd_init: start, the address, function set,
      display on with blinking cursor, entry mode, clear, stop. */
  function InitTraffic(): seq<BusEvent>
  {
    Transaction([FunctionSet, CursorDisplay, CursorIncrement, ClearDisplay])
  }

  /** lcd_init sends exactly the address 0x3C (0x78 on the wire) and the four
      commands between a start and a stop. */
  lemma InitTrafficIsFixed()
    ensures InitTraffic() == [StartCondition, AddressSent(0x78),
      DataSent(0x38), DataSent(0x0F), DataSent(0x06), DataSent(0x01), StopCondition]
  {
    I2cDriver.DataEventsMeaning([FunctionSet, CursorDisplay, CursorIncrement, ClearDisplay]);
  }

  /** lcd_init. */
  method Init(i2c: I2c)
    modifies i2c`cr1, i2c`sr1, i2c`dr, i2c`bus
    ensures i2c.bus == old(i2c.bus) + InitTraffic()
  {
    I2cDriver.Start(i2c);
    I2cDriver.SendAddress(i2c, SlaveAddr);
    I2cDriver.Write(i2c, FunctionSet);
    I2cDriver.Write(i2c, CursorDisplay);
    I2cDriver.Write(i2c, CursorIncrement);
    I2cDriver.Write(i2c, ClearDisplay);
    I2cDriver.Stop(i2c);
    InitTrafficIsFixed();
  }

  /** The transaction lcd_write makes for one character: start, the
      address, SET_CGRAM, the character, stop. */
  function CharTransaction(c: Byte): seq<BusEvent>
  {
    Transaction([SetCgram, c])
  }

  /** The traffic of lcd_write for the characters `s`: one transaction per
      character, in order. */
  function WriteTraffic(s: seq<Byte>): seq<BusEvent>
  {
    if s == [] then [] else WriteTraffic(s[..|s| - 1]) + CharTransaction(s[|s| - 1])
  }

  /** Every character transaction is five events long and has the shape
      start, address, 0x40, character, stop. */
  lemma CharTransactionShape(c: Byte)
    ensures CharTransaction(c) == [StartCondition, AddressSent(0x78), DataSent(SetCgram), DataSent(c), StopCondition]
  {
    I2cDriver.DataEventsMeaning([SetCgram, c]);
  }

  /** Writing n characters takes exactly 5n bus events. */
  lemma {:induction false} WriteTrafficLength(s: seq<Byte>)
    ensures |WriteTraffic(s)| == 5 * |s|
  {
    if s != [] {
      WriteTrafficLength(s[..|s| - 1]);
      CharTransactionShape(s[|s| - 1]);
    }
  }

  /** Transaction k of the traffic carries character k: the five events from
      5k on are CharTransaction(s[k]). */
  lemma {:induction false} WriteTrafficHasCharAt(s: seq<Byte>, k: nat)
    requires k < |s|
    ensures |WriteTraffic(s)| == 5 * |s|
    ensures WriteTraffic(s)[5 * k .. 5 * k + 5] == CharTransaction(s[k])
  {
    WriteTrafficLength(s);
    var init := s[..|s| - 1];
    WriteTrafficLength(init);
    CharTransactionShape(s[|s| - 1]);
    if k < |s| - 1 {
      WriteTrafficHasCharAt(init, k);
      assert WriteTraffic(s)[5 * k .. 5 * k + 5] == WriteTraffic(init)[5 * k .. 5 * k + 5];
    } else {
      assert WriteTraffic(s)[5 * k .. 5 * k + 5] == CharTransaction(s[k]);
    }
  }

  /** An empty string makes no bus traffic. */
  lemma EmptyStringIsSilent(s: seq<Byte>)
    requires 0 in s && s[0] == 0
    ensures WriteTraffic(s[..Strlen(s)]) == []
  {
  }

  /** lcd_write: one transaction per character before the NUL. The C code
      waits 1 ms after the address and after each data byte; that delay is
      not part of this model. */
  method Write(i2c: I2c, data: seq<Byte>)
    requires 0 in data
    modifies i2c`cr1, i2c`sr1, i2c`dr, i2c`bus
    ensures i2c.bus == old(i2c.bus) + WriteTraffic(data[..Strlen(data)])
  {
    var length := Strlen(data);
    var i := 0;
    while length != 0
      invariant i + length == Strlen(data)
      invariant i2c.bus == old(i2c.bus) + WriteTraffic(data[..i])
    {
      CharTransactionShape(data[i]);
      I2cDriver.Start(i2c);
      I2cDriver.SendAddress(i2c, SlaveAddr);
      I2cDriver.Write(i2c, SetCgram);
      I2cDriver.Write(i2c, data[i]);
      I2cDriver.Stop(i2c);
      assert data[..i + 1][..i] == data[..i];
      i := i + 1;
      length := length - 1;
    }
  }
}
