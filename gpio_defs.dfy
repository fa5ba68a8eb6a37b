/** The GPIO definitions shared by the drivers: pin numbers, pin modes, pull
    resistors, output types, alternate functions, the BSRR and output
    constants and the per-pin configuration record. */
module GpioDefs {
  import opened Bits
  import opened Opt
  import opened Mcu

  /** GPIOx_PIN_0 .. GPIOx_PIN_15. */
  type PinNum = p: bv32 | p < 16

  /** An alternate function AF0 .. AF15. */
  type AltFunc = a: bv32 | a < 16

  const Af1: AltFunc := 1
  const Af2: AltFunc := 2
  const Af4: AltFunc := 4
  const Af7: AltFunc := 7
  const Af8: AltFunc := 8
  const Af9: AltFunc := 9

  /** The level written for "high" and the two BSRR selectors. */
  const SetOutput: bv32 := 1
  const BsrrReset: bv32 := 0
  const BsrrSet: bv32 := 1

  datatype PinMode = Input | Output | Alternate | Analog

  /** The MODER encoding of a pin mode (RM0368 section 8.4.1). */
  function ModeCode(m: PinMode): (c: bv32)
    ensures c < 4
  {
    match m
    case Input => 0
    case Output => 1
    case Alternate => 2
    case Analog => 3
  }

  /** The pin mode a MODER field value stands for. */
  function ModeOfCode(c: bv32): Option<PinMode>
  {
    if c == 0 then Some(Input)
    else if c == 1 then Some(Output)
    else if c == 2 then Some(Alternate)
    else if c == 3 then Some(Analog)
    else None
  }

  lemma ModeCodeRoundTrip(m: PinMode, c: bv32)
    ensures ModeOfCode(ModeCode(m)) == Some(m)
    ensures ModeOfCode(c).Some? <==> c < 4
    ensures ModeOfCode(c).Some? ==> ModeCode(ModeOfCode(c).value) == c
  {
  }

  datatype Pull = NoPull | PullUp | PullDown

  /** The PUPDR encoding of a pull setting (section 8.4.4); 3 is reserved. */
  function PullCode(p: Pull): (c: bv32)
    ensures c < 3
  {
    match p
    case NoPull => 0
    case PullUp => 1
    case PullDown => 2
  }

  function PullOfCode(c: bv32): Option<Pull>
  {
    if c == 0 then Some(NoPull)
    else if c == 1 then Some(PullUp)
    else if c == 2 then Some(PullDown)
    else None
  }

  lemma PullCodeRoundTrip(p: Pull, c: bv32)
    ensures PullOfCode(PullCode(p)) == Some(p)
    ensures PullOfCode(c).Some? <==> c < 3
    ensures PullOfCode(c).Some? ==> PullCode(PullOfCode(c).value) == c
  {
  }

  /** Push-pull, open-drain, or "leave OTYPER alone". */
  datatype OutputType = PushPull | OpenDrain | OtypeNone

  /** The enumeration value of an output type; only 0 and 1 are OTYPER bits. */
  function OtypeCode(t: OutputType): (c: bv32)
    ensures c < 3
    ensures c < 2 <==> t != OtypeNone
  {
    match t
    case PushPull => 0
    case OpenDrain => 1
    case OtypeNone => 2
  }

  /** GPIOx_PIN_CONFIG. */
  datatype PinConfig = PinConfig(
    num: PinNum,
    mode: PinMode,
    altFunc: AltFunc,
    pull: Pull,
    otype: OutputType)

  /** The AHB1ENR clock-enable bit of a port; None for an address the drivers
      do not recognise. */
  function PortClockBit(id: PortId): (b: Option<BitPos>)
    ensures b.None? <==> id == UnknownPort
  {
    match id
    case PortA => Some(GpioAEn)
    case PortB => Some(GpioBEn)
    case PortC => Some(GpioCEn)
    case PortD => Some(GpioDEn)
    case PortE => Some(GpioEEn)
    case PortH => Some(GpioHEn)
    case UnknownPort => None
  }

  /** Each known port has a bit of its own. */
  lemma PortClockBitsDistinct(a: PortId, b: PortId)
    requires PortClockBit(a).Some? && PortClockBit(b).Some?
    ensures PortClockBit(a) == PortClockBit(b) ==> a == b
  {
  }

  /** The word gpio_output_bit_setreset writes to BSRR for `val`: bit p for
      BSRR_SET, bit p + 16 for BSRR_RESET, and no write for any other value. */
  function BsrrWord(p: PinNum, val: Byte): (w: Option<bv32>)
    ensures w.Some? <==> (val == BsrrSet || val == BsrrReset)
  {
    if val == BsrrSet then Some(Bit(p))
    else if val == BsrrReset then Some(Bit(p + 16))
    else None
  }

  /** What a write of w to BSRR does to ODR (RM0368 section 8.4.7): bits
      16..31 reset the matching ODR bit, bits 0..15 set it, and a set wins
      over a reset of the same bit. */
  function ApplyBsrr(odr: bv32, w: bv32): bv32
  {
    (odr & !(w >> 16)) | (w & 0xFFFF)
  }

  /** A BSRR selector drives the pin exactly as gpio_write_output with the
      same level would: SET as writing 1, RESET as writing 0. */
  lemma BsrrActsAsWrite(odr: bv32, p: PinNum, val: Byte)
    requires val == BsrrSet || val == BsrrReset
    ensures ApplyBsrr(odr, BsrrWord(p, val).value)
         == if val == SetOutput then SetBit(odr, p) else ClearBit(odr, p)
  {
    if val == BsrrSet {
      BsrrSetBit(odr, p);
    } else {
      BsrrResetBit(odr, p);
    }
  }

  lemma BsrrSetBit(odr: bv32, p: PinNum)
    ensures ApplyBsrr(odr, Bit(p)) == SetBit(odr, p)
  {
  }

  lemma BsrrResetBit(odr: bv32, p: PinNum)
    ensures ApplyBsrr(odr, Bit(p + 16)) == ClearBit(odr, p)
  {
  }
}
