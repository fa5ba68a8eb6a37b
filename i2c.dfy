/** The I2C master driver: pin set-up for SCL and SDA, peripheral
    initialisation in standard mode, and the start / address / write / stop
    steps of a master transmission. What the driver puts on the bus is the
    trace `bus` of the interface object. */
module I2cDriver {
  import opened Bits
  import opened Opt
  import opened Mcu
  import opened GpioDefs
  import Gpio

  /** CRR_VAL: the CCR value for standard mode at a 16 MHz PCLK1. */
  const CcrValue: bv32 := 80

  /** MAX_TRISE: the TRISE value for a 1000 ns rise time at 16 MHz. */
  const MaxTrise: bv32 := 17

  /** The range of the peripheral clock frequency, in MHz. */
  const MaxPeriphFreq: int := 50
  const MinPeriphFreq: int := 2

  /** The SDA pins of the header; the comment against each gives its AF. */
  datatype SdaPin = Sda1Pb7 | Sda1Pb9 | Sda3Pc9 | Sda3Pb4 | Sda2Pb3

  /** The value of an SDA pin constant: its pin number. */
  function SdaPinNum(p: SdaPin): PinNum
  {
    match p
    case Sda1Pb7 => 7
    case Sda1Pb9 => 9
    case Sda3Pc9 => 9
    case Sda3Pb4 => 4
    case Sda2Pb3 => 3
  }

  /** The SCL pins of the header, all AF4. */
  datatype SclPin = Scl1Pb6 | Scl1Pb8 | Scl2Pb10 | Scl3Pa8

  function SclPinNum(p: SclPin): PinNum
  {
    match p
    case Scl1Pb6 => 6
    case Scl1Pb8 => 8
    case Scl2Pb10 => 10
    case Scl3Pa8 => 8
  }

  /** No SCL pin shares its number with an SDA pin, so on a shared port the
      two pins never share a field. PB4 is the only SDA pin numbered 4. */
  lemma PinNumbers(scl: SclPin, sda: SdaPin)
    ensures SclPinNum(scl) != SdaPinNum(sda)
    ensures SdaPinNum(sda) == 4 <==> sda == Sda3Pb4
  {
  }

  /** I2C_SCL_CONFIG, I2C_SDA_CONFIG and I2C_CONFIG. */
  datatype SclConfig = SclConfig(pin: SclPin, port: GpioPort)
  datatype SdaConfig = SdaConfig(pin: SdaPin, port: GpioPort)
  datatype I2cConfig = I2cConfig(scl: SclConfig, sda: SdaConfig, i2c: I2c, freqMhz: int)

  /** The alternate function of the SDA pin: AF9 for pin value 4 on GPIOB,
      AF4 for every other pin. */
  function SdaAltFunc(sda: SdaConfig): AltFunc
  {
    if SdaPinNum(sda.pin) == 4 && sda.port.id == PortB then Af9 else Af4
  }

  /** The SDA pins of I2C1 and I2C2 and PC9 of I2C3 take AF4; PB4 of I2C3
      takes AF9 on GPIOB. */
  lemma SdaAltFuncMatchesDatasheet(sda: SdaConfig)
    ensures sda.pin != Sda3Pb4 ==> SdaAltFunc(sda) == Af4
    ensures sda.pin == Sda3Pb4 && sda.port.id == PortB ==> SdaAltFunc(sda) == Af9
    ensures SdaAltFunc(sda) == Af9 ==> sda.pin == Sda3Pb4 && sda.port.id == PortB
  {
  }

  /** The pin records i2c_gpio_init hands to gpio_init: alternate mode,
      pull-up and open-drain for both, AF4 for SCL and SdaAltFunc for SDA. */
  function SclPinConfig(cfg: I2cConfig): PinConfig
  {
    PinConfig(SclPinNum(cfg.scl.pin), Alternate, Af4, PullUp, OpenDrain)
  }

  function SdaPinConfig(cfg: I2cConfig): PinConfig
  {
    PinConfig(SdaPinNum(cfg.sda.pin), Alternate, SdaAltFunc(cfg.sda), PullUp, OpenDrain)
  }

  /** What i2c_gpio_init does: gpio_init for SCL, then for SDA. When both pins
      are on one port, the port sees both configurations in that order. */
  twostate predicate PinsEffect(rcc: Rcc, cfg: I2cConfig)
    reads rcc`ahb1enr
    reads cfg.scl.port`moder, cfg.scl.port`pupdr, cfg.scl.port`otyper, cfg.scl.port`afrl, cfg.scl.port`afrh
    reads cfg.sda.port`moder, cfg.sda.port`pupdr, cfg.sda.port`otyper, cfg.sda.port`afrl, cfg.sda.port`afrh
  {
    && rcc.ahb1enr == Gpio.InitClock(cfg.sda.port.id, Gpio.InitClock(cfg.scl.port.id, old(rcc.ahb1enr)))
    && (cfg.scl.port == cfg.sda.port ==>
      Gpio.Regs(cfg.sda.port)
        == Gpio.InitRegs(cfg.sda.port.id,
             Gpio.InitRegs(cfg.scl.port.id, old(Gpio.Regs(cfg.scl.port)), SclPinConfig(cfg)),
             SdaPinConfig(cfg)))
    && (cfg.scl.port != cfg.sda.port ==>
      && Gpio.Regs(cfg.scl.port) == Gpio.InitRegs(cfg.scl.port.id, old(Gpio.Regs(cfg.scl.port)), SclPinConfig(cfg))
      && Gpio.Regs(cfg.sda.port) == Gpio.InitRegs(cfg.sda.port.id, old(Gpio.Regs(cfg.sda.port)), SdaPinConfig(cfg)))
  }

  /** i2c_gpio_init. */
  method GpioInit(rcc: Rcc, cfg: I2cConfig)
    modifies rcc`ahb1enr
    modifies cfg.scl.port`moder, cfg.scl.port`pupdr, cfg.scl.port`otyper, cfg.scl.port`afrl, cfg.scl.port`afrh
    modifies cfg.sda.port`moder, cfg.sda.port`pupdr, cfg.sda.port`otyper, cfg.sda.port`afrl, cfg.sda.port`afrh
    ensures PinsEffect(rcc, cfg)
  {
    Gpio.Init(rcc, cfg.scl.port, SclPinConfig(cfg));
    Gpio.Init(rcc, cfg.sda.port, SdaPinConfig(cfg));
  }

  /** The APB1ENR bit of an I2C interface; an unknown one has none. */
  function I2cClockBit(id: I2cId): (b: Option<BitPos>)
    ensures b.None? <==> id == OtherI2c
  {
    match id
    case I2c1 => Some(I2c1En)
    case I2c2 => Some(I2c2En)
    case I2c3 => Some(I2c3En)
    case OtherI2c => None
  }

  lemma I2cClockBitsDistinct(a: I2cId, b: I2cId)
    requires I2cClockBit(a).Some? && I2cClockBit(b) == I2cClockBit(a)
    ensures a == b
  {
  }

  /** The frequency after the two clamping ifs of i2c_init. */
  function ClampFreq(f: int): (r: int)
    ensures MinPeriphFreq <= r <= MaxPeriphFreq
    ensures MinPeriphFreq <= f <= MaxPeriphFreq ==> r == f
    ensures f > MaxPeriphFreq ==> r == MaxPeriphFreq
    ensures f < MinPeriphFreq ==> r == MinPeriphFreq
  {
    if f > MaxPeriphFreq then MaxPeriphFreq
    else if f < MinPeriphFreq then MinPeriphFreq
    else f
  }

  /** Clamping twice is clamping once, and clamping keeps the order of
      frequencies. */
  lemma ClampFreqIdempotentMonotone(f: int, g: int)
    ensures ClampFreq(ClampFreq(f)) == ClampFreq(f)
    ensures f <= g ==> ClampFreq(f) <= ClampFreq(g)
  {
  }

  /** The value ORed into CR2: the clamped frequency at the FREQ position. */
  function FreqBits(f: int): bv32
  {
    SmallBv(ClampFreq(f)) << I2cFreqPos
  }

  /** The FREQ field of CR2 (bits 5:0). */
  function FreqField(cr2: bv32): bv32
  {
    (cr2 >> I2cFreqPos) & 0x3F
  }

  /** On a CR2 whose FREQ field is clear, the field then holds the clamped
      frequency; no bit outside the field is touched. */
  lemma FreqBitsLandInField(cr2: bv32, f: int)
    requires FreqField(cr2) == 0
    ensures FreqField(cr2 | FreqBits(f)) as int == ClampFreq(f)
    ensures SameOutside(cr2, cr2 | FreqBits(f), 0x3F)
  {
    FreqBitsValue(f);
    FreqFieldOfOr(cr2, FreqBits(f));
    FreqFieldFrame(cr2, FreqBits(f));
  }

  lemma FreqBitsValue(f: int)
    ensures FreqBits(f) < 64
    ensures FreqBits(f) as int == ClampFreq(f)
  {
  }

  lemma FreqFieldOfOr(cr2: bv32, v: bv32)
    requires FreqField(cr2) == 0 && v < 64
    ensures FreqField(cr2 | v) == v
  {
  }

  lemma FreqFieldFrame(cr2: bv32, v: bv32)
    requires v < 64
    ensures SameOutside(cr2, cr2 | v, 0x3F)
  {
  }

  /** CR1 after i2c_init: SWRST set and cleared again, then PE set. */
  function Cr1AfterInit(cr1: bv32): bv32
  {
    SetBit(ClearBit(SetBit(cr1, I2cSwrst), I2cSwrst), I2cPe)
  }

  /** After i2c_init the interface is enabled and out of reset, and every
      other CR1 bit is as before. */
  lemma Cr1AfterInitMeaning(cr1: bv32)
    ensures IsSet(Cr1AfterInit(cr1), I2cPe)
    ensures !IsSet(Cr1AfterInit(cr1), I2cSwrst)
    ensures Cr1AfterInit(cr1) == SetBit(ClearBit(cr1, I2cSwrst), I2cPe)
    ensures SameOutside(cr1, Cr1AfterInit(cr1), Bit(I2cSwrst) | Bit(I2cPe))
  {
    ClearAfterSet(cr1, I2cSwrst);
    ResetThenEnableKeepsSwrstClear(cr1);
    ResetThenEnableFrame(cr1);
  }

  lemma ResetThenEnableKeepsSwrstClear(cr1: bv32)
    ensures !IsSet(SetBit(ClearBit(cr1, I2cSwrst), I2cPe), I2cSwrst)
  {
  }

  lemma ResetThenEnableFrame(cr1: bv32)
    ensures SameOutside(cr1, SetBit(ClearBit(cr1, I2cSwrst), I2cPe), Bit(I2cSwrst) | Bit(I2cPe))
  {
  }

  /** APB1ENR after the clock step of i2c_init. */
  function ClockAfterInit(id: I2cId, apb1enr: bv32): bv32
  {
    match I2cClockBit(id)
    case Some(b) => SetBit(apb1enr, b)
    case None => apb1enr
  }

  /** The clock step sets exactly the interface's own enable bit, and an
      unknown interface leaves APB1ENR alone. */
  lemma ClockAfterInitMeaning(id: I2cId, apb1enr: bv32)
    ensures id == OtherI2c ==> ClockAfterInit(id, apb1enr) == apb1enr
    ensures id != OtherI2c ==>
      && IsSet(ClockAfterInit(id, apb1enr), I2cClockBit(id).value)
      && SameOutside(apb1enr, ClockAfterInit(id, apb1enr), Bit(I2cClockBit(id).value))
  {
    if id != OtherI2c {
      SetBitFrame(apb1enr, I2cClockBit(id).value);
    }
  }

  /** The clock step of i2c_init: one `if` per known interface. */
  method EnableClock(rcc: Rcc, i2c: I2c)
    modifies rcc`apb1enr
    ensures rcc.apb1enr == ClockAfterInit(i2c.id, old(rcc.apb1enr))
  {
    if i2c.id == I2c1 {
      rcc.apb1enr := SetBit(rcc.apb1enr, I2c1En);
    }
    if i2c.id == I2c2 {
      rcc.apb1enr := SetBit(rcc.apb1enr, I2c2En);
    }
    if i2c.id == I2c3 {
      rcc.apb1enr := SetBit(rcc.apb1enr, I2c3En);
    }
  }

  /** The interface part of i2c_init: software reset set and cleared, FREQ,
      CCR and TRISE, and PE last. An unknown interface gets the same writes. */
  method Setup(i2c: I2c, freqMhz: int)
    modifies i2c`cr1, i2c`cr2, i2c`ccr, i2c`trise
    ensures i2c.cr1 == Cr1AfterInit(old(i2c.cr1))
    ensures i2c.cr2 == old(i2c.cr2) | FreqBits(freqMhz)
    ensures i2c.ccr == old(i2c.ccr) | CcrValue
    ensures i2c.trise == MaxTrise
  {
    i2c.cr1 := SetBit(i2c.cr1, I2cSwrst);
    i2c.cr1 := ClearBit(i2c.cr1, I2cSwrst);
    i2c.cr2 := i2c.cr2 | FreqBits(freqMhz);
    i2c.ccr := i2c.ccr | CcrValue;
    i2c.trise := MaxTrise;
    i2c.cr1 := SetBit(i2c.cr1, I2cPe);
  }

  /** i2c_init: the pins, the clock, then the interface registers. */
  method Init(rcc: Rcc, cfg: I2cConfig)
    modifies rcc`ahb1enr, rcc`apb1enr
    modifies cfg.scl.port`moder, cfg.scl.port`pupdr, cfg.scl.port`otyper, cfg.scl.port`afrl, cfg.scl.port`afrh
    modifies cfg.sda.port`moder, cfg.sda.port`pupdr, cfg.sda.port`otyper, cfg.sda.port`afrl, cfg.sda.port`afrh
    modifies cfg.i2c`cr1, cfg.i2c`cr2, cfg.i2c`ccr, cfg.i2c`trise
    ensures PinsEffect(rcc, cfg)
    ensures rcc.apb1enr == ClockAfterInit(cfg.i2c.id, old(rcc.apb1enr))
    ensures cfg.i2c.cr1 == Cr1AfterInit(old(cfg.i2c.cr1))
    ensures cfg.i2c.cr2 == old(cfg.i2c.cr2) | FreqBits(cfg.freqMhz)
    ensures cfg.i2c.ccr == old(cfg.i2c.ccr) | CcrValue
    ensures cfg.i2c.trise == MaxTrise
  {
    GpioInit(rcc, cfg);
    EnableClock(rcc, cfg.i2c);
    Setup(cfg.i2c, cfg.freqMhz);
  }

  /** i2c_start: request a start condition, then wait for SB. */
  method Start(i2c: I2c)
    modifies i2c`cr1, i2c`sr1, i2c`bus
    ensures i2c.cr1 == SetBit(old(i2c.cr1), I2cStart)
    ensures IsSet(i2c.sr1, I2cSb)
    ensures i2c.bus == old(i2c.bus) + [StartCondition]
  {
    i2c.cr1 := SetBit(i2c.cr1, I2cStart);
    i2c.bus := i2c.bus + [StartCondition];
    if !IsSet(i2c.sr1, I2cSb) {
      i2c.RaiseSr1(I2cSb);
    }
  }

  /** The DR value i2c_send_address writes: the 7-bit address shifted left
      by one, leaving bit 0 (the direction bit) clear for a write. */
  function AddressWord(saddr: Byte): (w: bv32)
    ensures w < 512 && w & 1 == 0
    ensures w >> 1 == saddr
  {
    saddr << 1
  }

  /** i2c_send_address: write the shifted address to DR, then wait for ADDR.
      The C code then reads SR1 and SR2 to clear ADDR; that read has no
      effect in this model. */
  method SendAddress(i2c: I2c, saddr: Byte)
    modifies i2c`dr, i2c`sr1, i2c`bus
    ensures i2c.dr == AddressWord(saddr)
    ensures IsSet(i2c.sr1, I2cAddr)
    ensures i2c.bus == old(i2c.bus) + [AddressSent(AddressWord(saddr))]
  {
    i2c.dr := AddressWord(saddr);
    i2c.bus := i2c.bus + [AddressSent(i2c.dr)];
    if !IsSet(i2c.sr1, I2cAddr) {
      i2c.RaiseSr1(I2cAddr);
    }
  }

  /** i2c_write: wait for TXE, write the byte to DR, wait for BTF. */
  method Write(i2c: I2c, data: Byte)
    modifies i2c`dr, i2c`sr1, i2c`bus
    ensures i2c.dr == data
    ensures IsSet(i2c.sr1, I2cBtf)
    ensures i2c.bus == old(i2c.bus) + [DataSent(data)]
  {
    if !IsSet(i2c.sr1, I2cTxe) {
      i2c.RaiseSr1(I2cTxe);
    }
    i2c.dr := data;
    i2c.bus := i2c.bus + [DataSent(data)];
    if !IsSet(i2c.sr1, I2cBtf) {
      i2c.RaiseSr1(I2cBtf);
    }
  }

  /** i2c_stop: request a stop condition. */
  method Stop(i2c: I2c)
    modifies i2c`cr1, i2c`bus
    ensures i2c.cr1 == SetBit(old(i2c.cr1), I2cStop)
    ensures i2c.bus == old(i2c.bus) + [StopCondition]
  {
    i2c.cr1 := SetBit(i2c.cr1, I2cStop);
    i2c.bus := i2c.bus + [StopCondition];
  }

  /** The bus events of writing the bytes of `s` to DR, in order. */
  function DataEvents(s: seq<Byte>): seq<BusEvent>
  {
    if s == [] then [] else DataEvents(s[..|s| - 1]) + [DataSent(s[|s| - 1])]
  }

  /** One data event per byte, the k-th carrying byte k. */
  lemma {:induction false} DataEventsMeaning(s: seq<Byte>)
    ensures |DataEvents(s)| == |s|
    ensures forall k :: 0 <= k < |s| ==> DataEvents(s)[k] == DataSent(s[k])
  {
    if s != [] {
      DataEventsMeaning(s[..|s| - 1]);
    }
  }

  /** Events of a concatenation are the concatenated events. */
  lemma {:induction false} DataEventsAppend(s: seq<Byte>, t: seq<Byte>)
    ensures DataEvents(s + t) == DataEvents(s) + DataEvents(t)
  {
    if t != [] {
      assert (s + t)[..|s + t| - 1] == s + t[..|t| - 1];
      DataEventsAppend(s, t[..|t| - 1]);
    } else {
      assert s + t == s;
    }
  }

  /** i2c_burst_write: wait for TXE, then for each of the `size` bytes wait
      for TXE and write it to DR, then wait for BTF. The C code reads `size`
      bytes from the buffer, so the buffer must hold that many. */
  method BurstWrite(i2c: I2c, data: seq<Byte>, size: nat)
    requires size <= |data|
    modifies i2c`dr, i2c`sr1, i2c`bus
    ensures i2c.bus == old(i2c.bus) + DataEvents(data[..size])
    ensures size > 0 ==> i2c.dr == data[size - 1]
    ensures size == 0 ==> i2c.dr == old(i2c.dr)
    ensures IsSet(i2c.sr1, I2cBtf)
  {
    if !IsSet(i2c.sr1, I2cTxe) {
      i2c.RaiseSr1(I2cTxe);
    }
    var remaining := size;
    var i := 0;
    while remaining != 0
      invariant i + remaining == size
      invariant i2c.bus == old(i2c.bus) + DataEvents(data[..i])
      invariant i > 0 ==> i2c.dr == data[i - 1]
      invariant i == 0 ==> i2c.dr == old(i2c.dr)
    {
      if !IsSet(i2c.sr1, I2cTxe) {
        i2c.RaiseSr1(I2cTxe);
      }
      i2c.dr := data[i];
      i2c.bus := i2c.bus + [DataSent(data[i])];
      assert data[..i + 1][..i] == data[..i];
      i := i + 1;
      remaining := remaining - 1;
    }
    if !IsSet(i2c.sr1, I2cBtf) {
      i2c.RaiseSr1(I2cBtf);
    }
  }

  /** A burst write of `size` bytes puts exactly those bytes on the bus, in
      order, and nothing for size 0. */
  lemma BurstWriteTraffic(data: seq<Byte>, size: nat)
    requires size <= |data|
    ensures |DataEvents(data[..size])| == size
    ensures forall k :: 0 <= k < size ==> DataEvents(data[..size])[k] == DataSent(data[k])
    ensures size == 0 ==> DataEvents(data[..size]) == []
  {
    DataEventsMeaning(data[..size]);
  }
}
