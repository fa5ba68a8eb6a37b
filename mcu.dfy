/** The STM32F401 peripherals the drivers touch, as objects holding 32-bit
    registers. Bit positions are those of the RM0368 reference manual (the
    CMSIS device header defines the same masks).

    A C driver receives a peripheral as a pointer (`GPIOA`, `TIM2`, ...) and
    compares it against the known base addresses; here each object carries an
    identity `id`, with an extra case for an address the driver does not know.

    Busy-waits on status flags are not loops in this model: each becomes a call
    of a hardware-event method below, made where the C code spins, whose
    contract is what holds when the spin exits. */
module Mcu {
  import opened Bits

  datatype PortId = PortA | PortB | PortC | PortD | PortE | PortH | UnknownPort

  datatype TimerId = Tim2 | Tim3 | Tim4 | Tim5 | OtherTimer

  datatype I2cId = I2c1 | I2c2 | I2c3 | OtherI2c

  datatype UsartId = Usart1 | Usart2 | Usart6 | OtherUsart

  // RCC_AHB1ENR (RM0368 section 6.3.9)
  const GpioAEn: BitPos := 0
  const GpioBEn: BitPos := 1
  const GpioCEn: BitPos := 2
  const GpioDEn: BitPos := 3
  const GpioEEn: BitPos := 4
  const GpioHEn: BitPos := 7

  // RCC_APB1ENR (section 6.3.11)
  const Tim2En: BitPos := 0
  const Tim3En: BitPos := 1
  const Tim4En: BitPos := 2
  const Tim5En: BitPos := 3
  const Usart2En: BitPos := 17
  const I2c1En: BitPos := 21
  const I2c2En: BitPos := 22
  const I2c3En: BitPos := 23

  // RCC_APB2ENR (section 6.3.12)
  const Usart1En: BitPos := 4
  const Usart6En: BitPos := 5
  const Adc1En: BitPos := 8

  // TIMx_CR1 and TIMx_SR (sections 13.4.1 and 13.4.5)
  const TimCen: BitPos := 0
  const TimDir: BitPos := 4
  const TimUif: BitPos := 0

  // ADC_SR, ADC_CR2 and ADC_SQR1 (sections 11.12.1, 11.12.3 and 11.12.9)
  const AdcEoc: BitPos := 1
  const AdcAdon: BitPos := 0
  const AdcCont: BitPos := 1
  const AdcSwstart: BitPos := 30
  const AdcSqr1LPos: bv32 := 20

  // I2C_CR1, I2C_CR2 and I2C_SR1 (sections 18.6.1, 18.6.2 and 18.6.6)
  const I2cPe: BitPos := 0
  const I2cStart: BitPos := 8
  const I2cStop: BitPos := 9
  const I2cSwrst: BitPos := 15
  const I2cFreqPos: bv32 := 0
  const I2cSb: BitPos := 0
  const I2cAddr: BitPos := 1
  const I2cBtf: BitPos := 2
  const I2cTxe: BitPos := 7

  // USART_SR and USART_CR1 (sections 19.6.1 and 19.6.4)
  const UsartRxne: BitPos := 5
  const UsartTxe: BitPos := 7
  const UsartRe: BitPos := 2
  const UsartTe: BitPos := 3
  const UsartUe: BitPos := 13

  /** The reset and clock control enable registers. */
  class Rcc {
    var ahb1enr: bv32
    var apb1enr: bv32
    var apb2enr: bv32

    constructor ()
      ensures ahb1enr == 0 && apb1enr == 0 && apb2enr == 0
    {
      ahb1enr, apb1enr, apb2enr := 0, 0, 0;
    }
  }

  /** A GPIO port (RM0368 section 8.4). */
  class GpioPort {
    const id: PortId
    var moder: bv32
    var otyper: bv32
    var pupdr: bv32
    var idr: bv32
    var odr: bv32
    var bsrr: bv32
    var afrl: bv32
    var afrh: bv32

    constructor (id: PortId)
      ensures this.id == id
      ensures moder == 0 && otyper == 0 && pupdr == 0 && idr == 0
      ensures odr == 0 && bsrr == 0 && afrl == 0 && afrh == 0
    {
      this.id := id;
      moder, otyper, pupdr, idr := 0, 0, 0, 0;
      odr, bsrr, afrl, afrh := 0, 0, 0, 0;
    }

    /** The level on input pin p changes to `high`. */
    method DriveInput(p: BitPos, high: bool)
      requires p < 16
      modifies this`idr
      ensures idr == if high then SetBit(old(idr), p) else ClearBit(old(idr), p)
    {
      idr := if high then SetBit(idr, p) else ClearBit(idr, p);
    }
  }

  /** A general-purpose timer TIM2..TIM5 (RM0368 section 13.4). */
  class Timer {
    const id: TimerId
    var psc: Word
    var arr: Word
    var cnt: Word
    var cr1: bv32
    var sr: bv32

    constructor (id: TimerId)
      ensures this.id == id
      ensures psc == 0 && arr == 0 && cnt == 0 && cr1 == 0 && sr == 0
    {
      this.id := id;
      psc, arr, cnt, cr1, sr := 0, 0, 0, 0, 0;
    }

    /** An update event (overflow or underflow) raises UIF. */
    method UpdateEvent()
      modifies this`sr
      ensures sr == SetBit(old(sr), TimUif)
    {
      sr := SetBit(sr, TimUif);
    }

    /** The counter reaches the value n. */
    method CountTo(n: Word)
      modifies this`cnt
      ensures cnt == n
    {
      cnt := n;
    }
  }

  /** The analog-to-digital converter ADC1 (RM0368 section 11.12). */
  class Adc {
    var sr: bv32
    var cr2: bv32
    var sqr1: bv32
    var sqr2: bv32
    var sqr3: bv32
    var dr: bv32

    constructor ()
      ensures sr == 0 && cr2 == 0 && sqr1 == 0 && sqr2 == 0 && sqr3 == 0 && dr == 0
    {
      sr, cr2, sqr1, sqr2, sqr3, dr := 0, 0, 0, 0, 0, 0;
    }

    /** A conversion ends: its result `sample` is in DR and EOC is raised. */
    method EndOfConversion(sample: bv32)
      modifies this`sr, this`dr
      ensures sr == SetBit(old(sr), AdcEoc)
      ensures dr == sample
    {
      sr := SetBit(sr, AdcEoc);
      dr := sample;
    }
  }

  /** What an I2C master driver puts on the bus, in order. */
  datatype BusEvent =
    | StartCondition
    | AddressSent(dr: bv32)
    | DataSent(b: Byte)
    | StopCondition

  /** An I2C interface (RM0368 section 18.6). `bus` records the start and
      stop requests and the values written to DR. */
  class I2c {
    const id: I2cId
    var cr1: bv32
    var cr2: bv32
    var ccr: bv32
    var trise: bv32
    var dr: bv32
    var sr1: bv32
    var sr2: bv32
    var bus: seq<BusEvent>

    constructor (id: I2cId)
      ensures this.id == id && bus == []
      ensures cr1 == 0 && cr2 == 0 && ccr == 0 && trise == 0 && dr == 0 && sr1 == 0 && sr2 == 0
    {
      this.id := id;
      cr1, cr2, ccr, trise, dr, sr1, sr2 := 0, 0, 0, 0, 0, 0, 0;
      bus := [];
    }

    /** The hardware raises status flag `flag` of SR1 (SB, ADDR, BTF or TXE). */
    method RaiseSr1(flag: BitPos)
      modifies this`sr1
      ensures sr1 == SetBit(old(sr1), flag)
    {
      sr1 := SetBit(sr1, flag);
    }
  }

  /** A USART (RM0368 section 19.6). `sent` records the bytes written to DR,
      in order. */
  class Usart {
    const id: UsartId
    var sr: bv32
    var dr: bv32
    var brr: bv32
    var cr1: bv32
    var sent: seq<Byte>

    constructor (id: UsartId)
      ensures this.id == id && sent == []
      ensures sr == 0 && dr == 0 && brr == 0 && cr1 == 0
    {
      this.id := id;
      sr, dr, brr, cr1 := 0, 0, 0, 0;
      sent := [];
    }

    /** The transmit data register empties: TXE is raised. */
    method TransmitterEmpty()
      modifies this`sr
      ensures sr == SetBit(old(sr), UsartTxe)
    {
      sr := SetBit(sr, UsartTxe);
    }

    /** A byte arrives: it is in DR and RXNE is raised. */
    method Receive(b: Byte)
      modifies this`sr, this`dr
      ensures sr == SetBit(old(sr), UsartRxne)
      ensures dr == b
    {
      sr := SetBit(sr, UsartRxne);
      dr := b;
    }
  }
}
