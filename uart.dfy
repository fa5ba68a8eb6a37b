/** The USART driver: TX and RX pin set-up, the bus clock of each USART, the
    CR1 enable bits, and byte-by-byte transmission and reception. Every byte
    written to DR is recorded, in order, in the `sent` trace of the USART. */
module UartDriver {
  import opened Bits
  import opened Opt
  import opened Mcu
  import opened GpioDefs
  import opened CStrings
  import Gpio

  /** UART_TX_PIN: the TX pins of the header (each constant is its pin
      number) and USARTX_TX_NONE (-1) for "no transmitter". */
  datatype TxPin = Usart2TxPa2 | Usart1TxPa9 | Usart6TxPa11 | Usart1TxPb6 | Usart6TxPc6 | Usart2TxPd5 | TxNone

  /** The pin number a TX constant stands for; NONE names no pin. */
  function TxPinNum(p: TxPin): (n: Option<PinNum>)
    ensures n.None? <==> p == TxNone
  {
    match p
    case Usart2TxPa2 => Some(2)
    case Usart1TxPa9 => Some(9)
    case Usart6TxPa11 => Some(11)
    case Usart1TxPb6 => Some(6)
    case Usart6TxPc6 => Some(6)
    case Usart2TxPd5 => Some(5)
    case TxNone => None
  }

  /** UART_RX_PIN, with USARTX_RX_NONE (-1) for "no receiver". */
  datatype RxPin = Usart2RxPa3 | Usart1RxPa10 | Usart6RxPa12 | Usart1RxPb7 | Usart6RxPc7 | Usart2RxPd6 | RxNone

  function RxPinNum(p: RxPin): (n: Option<PinNum>)
    ensures n.None? <==> p == RxNone
  {
    match p
    case Usart2RxPa3 => Some(3)
    case Usart1RxPa10 => Some(10)
    case Usart6RxPa12 => Some(12)
    case Usart1RxPb7 => Some(7)
    case Usart6RxPc7 => Some(7)
    case Usart2RxPd6 => Some(6)
    case RxNone => None
  }

  /** Each USART's own TX pin and RX pin are different pins, so on one port
      the two configurations touch different fields. */
  lemma TxRxPinsDiffer(tx: TxPin, rx: RxPin)
    requires tx != TxNone && rx != RxNone
    requires (tx == Usart2TxPa2 <==> rx == Usart2RxPa3) && (tx == Usart1TxPa9 <==> rx == Usart1RxPa10)
    requires (tx == Usart6TxPa11 <==> rx == Usart6RxPa12) && (tx == Usart1TxPb6 <==> rx == Usart1RxPb7)
    requires (tx == Usart6TxPc6 <==> rx == Usart6RxPc7) && (tx == Usart2TxPd5 <==> rx == Usart2RxPd6)
    ensures TxPinNum(tx).value != RxPinNum(rx).value
  {
  }

  /** UART_CONFIG: the TX and RX pins, the USART and the port of both pins. */
  datatype UartConfig = UartConfig(tx: TxPin, rx: RxPin, usart: Usart, port: GpioPort)

  /** The two fields of the pin record that uart_init never assigns (pull
      and output type). gpio_init reads them anyway, so they are inputs of
      the model, free to take any value of their type. */
  datatype Unassigned = Unassigned(pull: Pull, otype: OutputType)

  /** The pin record uart_init hands to gpio_init for a pin number `num`:
      alternate mode and the USART's alternate function. */
  function UartPin(cfg: UartConfig, num: PinNum, rest: Unassigned): PinConfig
  {
    PinConfig(num, Alternate, if cfg.usart.id == Usart6 then Af8 else Af7, rest.pull, rest.otype)
  }

  /** The record for the TX pin, or None when TX is NONE and no pin is set up. */
  function TxPinConfig(cfg: UartConfig, rest: Unassigned): Option<PinConfig>
  {
    match TxPinNum(cfg.tx)
    case Some(n) => Some(UartPin(cfg, n, rest))
    case None => None
  }

  function RxPinConfig(cfg: UartConfig, rest: Unassigned): Option<PinConfig>
  {
    match RxPinNum(cfg.rx)
    case Some(n) => Some(UartPin(cfg, n, rest))
    case None => None
  }

  /** A pin is configured exactly when it is not NONE; it is then an
      alternate-function pin on its own number, AF8 for USART6 and AF7 for
      every other USART. */
  lemma PinConfigMeaning(cfg: UartConfig, txRest: Unassigned, rxRest: Unassigned)
    ensures TxPinConfig(cfg, txRest).Some? <==> cfg.tx != TxNone
    ensures RxPinConfig(cfg, rxRest).Some? <==> cfg.rx != RxNone
    ensures cfg.tx != TxNone ==>
      var p := TxPinConfig(cfg, txRest).value;
      && p.num == TxPinNum(cfg.tx).value && p.mode == Alternate
      && (p.altFunc == Af8 <==> cfg.usart.id == Usart6)
      && (p.altFunc != Af8 ==> p.altFunc == Af7)
    ensures cfg.rx != RxNone ==>
      var p := RxPinConfig(cfg, rxRest).value;
      && p.num == RxPinNum(cfg.rx).value && p.mode == Alternate
      && (p.altFunc == Af8 <==> cfg.usart.id == Usart6)
      && (p.altFunc != Af8 ==> p.altFunc == Af7)
  {
  }

  /** The pin registers after gpio_init with `pin`, or unchanged with none. */
  function MaybeInitRegs(id: PortId, r: Gpio.PinRegs, pin: Option<PinConfig>): Gpio.PinRegs
  {
    match pin
    case Some(p) => Gpio.InitRegs(id, r, p)
    case None => r
  }

  function MaybeInitClock(id: PortId, ahb1enr: bv32, pin: Option<PinConfig>): bv32
  {
    match pin
    case Some(_) => Gpio.InitClock(id, ahb1enr)
    case None => ahb1enr
  }

  /** When neither pin is configured, the pin step changes nothing. */
  lemma NoPinsNoChange(cfg: UartConfig, txRest: Unassigned, rxRest: Unassigned, r: Gpio.PinRegs, ahb1enr: bv32)
    requires cfg.tx == TxNone && cfg.rx == RxNone
    ensures MaybeInitRegs(cfg.port.id, MaybeInitRegs(cfg.port.id, r, TxPinConfig(cfg, txRest)), RxPinConfig(cfg, rxRest)) == r
    ensures MaybeInitClock(cfg.port.id, MaybeInitClock(cfg.port.id, ahb1enr, TxPinConfig(cfg, txRest)), RxPinConfig(cfg, rxRest)) == ahb1enr
  {
  }

  /** The GPIO part of uart_init: the TX pin, then the RX pin, each only
      when it is not NONE. */
  method GpioInit(rcc: Rcc, cfg: UartConfig, txRest: Unassigned, rxRest: Unassigned)
    modifies rcc`ahb1enr, cfg.port`moder, cfg.port`pupdr, cfg.port`otyper, cfg.port`afrl, cfg.port`afrh
    ensures rcc.ahb1enr
         == MaybeInitClock(cfg.port.id, MaybeInitClock(cfg.port.id, old(rcc.ahb1enr), TxPinConfig(cfg, txRest)), RxPinConfig(cfg, rxRest))
    ensures Gpio.Regs(cfg.port)
         == MaybeInitRegs(cfg.port.id, MaybeInitRegs(cfg.port.id, old(Gpio.Regs(cfg.port)), TxPinConfig(cfg, txRest)), RxPinConfig(cfg, rxRest))
  {
    var af: AltFunc := if cfg.usart.id == Usart6 then Af8 else Af7;
    if cfg.tx != TxNone {
      var txPin := PinConfig(TxPinNum(cfg.tx).value, Alternate, af, txRest.pull, txRest.otype);
      Gpio.Init(rcc, cfg.port, txPin);
    }
    if cfg.rx != RxNone {
      var rxPin := PinConfig(RxPinNum(cfg.rx).value, Alternate, af, rxRest.pull, rxRest.otype);
      Gpio.Init(rcc, cfg.port, rxPin);
    }
  }

  /** The two peripheral buses whose enable registers hold USART clocks. */
  datatype Apb = Apb1 | Apb2

  /** The bus and enable bit of a USART's clock; an unknown USART has none. */
  datatype ClockBit = ClockBit(bus: Apb, bit: BitPos)

  function UsartClock(id: UsartId): (c: Option<ClockBit>)
    ensures c.None? <==> id == OtherUsart
  {
    match id
    case Usart2 => Some(ClockBit(Apb1, Usart2En))
    case Usart1 => Some(ClockBit(Apb2, Usart1En))
    case Usart6 => Some(ClockBit(Apb2, Usart6En))
    case OtherUsart => None
  }

  /** USART2 is on APB1 at bit 17, USART1 on APB2 at bit 4 and USART6 on
      APB2 at bit 5: no two USARTs share a clock bit. */
  lemma UsartClockBitsDistinct(a: UsartId, b: UsartId)
    requires UsartClock(a).Some? && UsartClock(a) == UsartClock(b)
    ensures a == b
  {
  }

  /** An enable register of `bus` after uart_enable_clk. */
  function EnrAfterClock(id: UsartId, bus: Apb, enr: bv32): bv32
  {
    match UsartClock(id)
    case Some(c) => if c.bus == bus then SetBit(enr, c.bit) else enr
    case None => enr
  }

  /** The clock step sets exactly the USART's own bit on its own bus; the
      other bus register, and both for an unknown USART, are untouched. */
  lemma EnrAfterClockMeaning(id: UsartId, bus: Apb, enr: bv32)
    ensures id == OtherUsart ==> EnrAfterClock(id, bus, enr) == enr
    ensures id != OtherUsart && UsartClock(id).value.bus != bus ==> EnrAfterClock(id, bus, enr) == enr
    ensures id != OtherUsart && UsartClock(id).value.bus == bus ==>
      && IsSet(EnrAfterClock(id, bus, enr), UsartClock(id).value.bit)
      && SameOutside(enr, EnrAfterClock(id, bus, enr), Bit(UsartClock(id).value.bit))
  {
    if id != OtherUsart {
      SetBitFrame(enr, UsartClock(id).value.bit);
    }
  }

  /** uart_enable_clk: one `if` per known USART. */
  method EnableClock(rcc: Rcc, usart: Usart)
    modifies rcc`apb1enr, rcc`apb2enr
    ensures rcc.apb1enr == EnrAfterClock(usart.id, Apb1, old(rcc.apb1enr))
    ensures rcc.apb2enr == EnrAfterClock(usart.id, Apb2, old(rcc.apb2enr))
  {
    if usart.id == Usart2 {
      rcc.apb1enr := SetBit(rcc.apb1enr, Usart2En);
    }
    if usart.id == Usart1 {
      rcc.apb2enr := SetBit(rcc.apb2enr, Usart1En);
    }
    if usart.id == Usart6 {
      rcc.apb2enr := SetBit(rcc.apb2enr, Usart6En);
    }
  }

  /** The BRR step of uart_init. The divider word (fraction in bits 3:0,
      mantissa from bit 4) comes out of a floating-point computation that is
      not part of this model, so it is an input; it is ORed into BRR. */
  method Baudrate(usart: Usart, divider: bv32)
    modifies usart`brr
    ensures usart.brr == old(usart.brr) | divider
  {
    usart.brr := usart.brr | divider;
  }

  /** CR1 after uart_cr1_enable: RE for a receiver, TE for a transmitter,
      then UE. */
  function Cr1AfterEnable(cr1: bv32, tx: TxPin, rx: RxPin): bv32
  {
    var withRx := if rx != RxNone then SetBit(cr1, UsartRe) else cr1;
    var withTx := if tx != TxNone then SetBit(withRx, UsartTe) else withRx;
    SetBit(withTx, UsartUe)
  }

  /** The bits uart_cr1_enable ORs into CR1: RE (0x4), TE (0x8), UE (0x2000). */
  function EnableMask(tx: TxPin, rx: RxPin): bv32
  {
    (if rx != RxNone then 0x4 else 0) | (if tx != TxNone then 0x8 else 0) | 0x2000
  }

  /** The USART ends up enabled; RE is set iff there is a receiver (or it
      was set before), TE iff there is a transmitter (or it was set before);
      no other CR1 bit changes. */
  lemma Cr1AfterEnableMeaning(cr1: bv32, tx: TxPin, rx: RxPin)
    ensures IsSet(Cr1AfterEnable(cr1, tx, rx), UsartUe)
    ensures IsSet(Cr1AfterEnable(cr1, tx, rx), UsartRe) <==> rx != RxNone || IsSet(cr1, UsartRe)
    ensures IsSet(Cr1AfterEnable(cr1, tx, rx), UsartTe) <==> tx != TxNone || IsSet(cr1, UsartTe)
    ensures SameOutside(cr1, Cr1AfterEnable(cr1, tx, rx), Bit(UsartRe) | Bit(UsartTe) | Bit(UsartUe))
  {
    var m := EnableMask(tx, rx);
    EnableIsOr(cr1, tx, rx);
    var r := cr1 | m;
    assert Cr1AfterEnable(cr1, tx, rx) == r;
    OrSetsUe(cr1, m);
    OrEnableBits(cr1, m);
    OrFrame(cr1, m);
  }

  /** uart_cr1_enable ORs exactly EnableMask into CR1. */
  lemma EnableIsOr(cr1: bv32, tx: TxPin, rx: RxPin)
    ensures Cr1AfterEnable(cr1, tx, rx) == cr1 | EnableMask(tx, rx)
    ensures EnableMask(tx, rx) & !0x200C == 0 && IsSet(EnableMask(tx, rx), UsartUe)
    ensures IsSet(EnableMask(tx, rx), UsartRe) <==> rx != RxNone
    ensures IsSet(EnableMask(tx, rx), UsartTe) <==> tx != TxNone
  {
    if rx != RxNone && tx != TxNone {
      assert EnableMask(tx, rx) == 0x200C;
      SetsAreOr(cr1, true, true);
    } else if rx != RxNone {
      assert EnableMask(tx, rx) == 0x2004;
      SetsAreOr(cr1, true, false);
    } else if tx != TxNone {
      assert EnableMask(tx, rx) == 0x2008;
      SetsAreOr(cr1, false, true);
    } else {
      assert EnableMask(tx, rx) == 0x2000;
      SetsAreOr(cr1, false, false);
    }
  }

  /** The SetBit sequence of uart_cr1_enable as one OR, for each choice. */
  lemma SetsAreOr(cr1: bv32, re: bool, te: bool)
    ensures re && te ==> SetBit(SetBit(SetBit(cr1, UsartRe), UsartTe), UsartUe) == cr1 | 0x200C
    ensures re && !te ==> SetBit(SetBit(cr1, UsartRe), UsartUe) == cr1 | 0x2004
    ensures !re && te ==> SetBit(SetBit(cr1, UsartTe), UsartUe) == cr1 | 0x2008
    ensures !re && !te ==> SetBit(cr1, UsartUe) == cr1 | 0x2000
  {
  }

  lemma OrSetsUe(r: bv32, m: bv32)
    requires IsSet(m, UsartUe)
    ensures IsSet(r | m, UsartUe)
  {
  }

  lemma OrEnableBits(r: bv32, m: bv32)
    ensures IsSet(r | m, UsartRe) <==> IsSet(m, UsartRe) || IsSet(r, UsartRe)
    ensures IsSet(r | m, UsartTe) <==> IsSet(m, UsartTe) || IsSet(r, UsartTe)
  {
  }

  lemma OrFrame(r: bv32, m: bv32)
    requires m & !0x200C == 0
    ensures SameOutside(r, r | m, Bit(UsartRe) | Bit(UsartTe) | Bit(UsartUe))
  {
  }

  /** uart_cr1_enable. */
  method Cr1Enable(cfg: UartConfig)
    modifies cfg.usart`cr1
    ensures cfg.usart.cr1 == Cr1AfterEnable(old(cfg.usart.cr1), cfg.tx, cfg.rx)
  {
    if cfg.rx != RxNone {
      cfg.usart.cr1 := SetBit(cfg.usart.cr1, UsartRe);
    }
    if cfg.tx != TxNone {
      cfg.usart.cr1 := SetBit(cfg.usart.cr1, UsartTe);
    }
    cfg.usart.cr1 := SetBit(cfg.usart.cr1, UsartUe);
  }

  /** uart_init: the pins, the clock, the baud rate, then CR1. */
  method Init(rcc: Rcc, cfg: UartConfig, divider: bv32, txRest: Unassigned, rxRest: Unassigned)
    modifies rcc`ahb1enr, rcc`apb1enr, rcc`apb2enr
    modifies cfg.port`moder, cfg.port`pupdr, cfg.port`otyper, cfg.port`afrl, cfg.port`afrh
    modifies cfg.usart`brr, cfg.usart`cr1
    ensures rcc.ahb1enr
         == MaybeInitClock(cfg.port.id, MaybeInitClock(cfg.port.id, old(rcc.ahb1enr), TxPinConfig(cfg, txRest)), RxPinConfig(cfg, rxRest))
    ensures Gpio.Regs(cfg.port)
         == MaybeInitRegs(cfg.port.id, MaybeInitRegs(cfg.port.id, old(Gpio.Regs(cfg.port)), TxPinConfig(cfg, txRest)), RxPinConfig(cfg, rxRest))
    ensures rcc.apb1enr == EnrAfterClock(cfg.usart.id, Apb1, old(rcc.apb1enr))
    ensures rcc.apb2enr == EnrAfterClock(cfg.usart.id, Apb2, old(rcc.apb2enr))
    ensures cfg.usart.brr == old(cfg.usart.brr) | divider
    ensures cfg.usart.cr1 == Cr1AfterEnable(old(cfg.usart.cr1), cfg.tx, cfg.rx)
  {
    GpioInit(rcc, cfg, txRest, rxRest);
    EnableClock(rcc, cfg.usart);
    Baudrate(cfg.usart, divider);
    Cr1Enable(cfg);
  }

  /** The byte `ch & 0xFF` of a C int, taken as its 32-bit two's-complement
      pattern: the low eight bits, which is the value modulo 256. */
  function LowByte(ch: bv32): (b: Byte)
    ensures b == ch % 256
  {
    ch & 0xFF
  }

  /** Masking a byte gives the byte back, and masking twice is masking once. */
  lemma LowByteOfByte(b: Byte, ch: bv32)
    ensures LowByte(b) == b
    ensures LowByte(LowByte(ch)) == LowByte(ch)
  {
  }

  /** uart_write: wait for TXE, then write `ch & 0xFF` to DR. */
  method Write(usart: Usart, ch: bv32)
    modifies usart`sr, usart`dr, usart`sent
    ensures usart.dr == LowByte(ch)
    ensures usart.sent == old(usart.sent) + [LowByte(ch)]
  {
    if !IsSet(usart.sr, UsartTxe) {
      usart.TransmitterEmpty();
    }
    usart.dr := LowByte(ch);
    usart.sent := usart.sent + [LowByte(ch)];
  }

  /** uart_write_string: one uart_write per byte before the NUL, in order. */
  method WriteString(usart: Usart, str: seq<Byte>)
    requires 0 in str
    modifies usart`sr, usart`dr, usart`sent
    ensures usart.sent == old(usart.sent) + str[..Strlen(str)]
  {
    var i := 0;
    while str[i] != 0
      invariant i <= Strlen(str)
      invariant usart.sent == old(usart.sent) + str[..i]
      decreases Strlen(str) - i
    {
      LowByteOfByte(str[i], 0);
      Write(usart, str[i]);
      assert str[..i + 1] == str[..i] + [str[i]];
      i := i + 1;
    }
  }

  /** What uart_write_string sends is the text before the NUL: one byte per
      character and never a NUL. */
  lemma WriteStringSendsText(str: seq<Byte>)
    requires 0 in str
    ensures |str[..Strlen(str)]| == Strlen(str)
    ensures forall k :: 0 <= k < Strlen(str) ==> str[..Strlen(str)][k] == str[k] != 0
  {
  }

  /** uart_read: wait for RXNE, then return DR as a char. When no byte is
      waiting the wait ends with the arrival of `incoming`. */
  method Read(usart: Usart, incoming: Byte) returns (c: Byte)
    modifies usart`sr, usart`dr
    ensures IsSet(usart.sr, UsartRxne)
    ensures c == LowByte(usart.dr)
    ensures IsSet(old(usart.sr), UsartRxne) ==> usart.dr == old(usart.dr)
    ensures !IsSet(old(usart.sr), UsartRxne) ==> c == incoming
  {
    if !IsSet(usart.sr, UsartRxne) {
      usart.Receive(incoming);
    }
    c := LowByte(usart.dr);
  }
}
