/** The TIM2..TIM5 encodings: capture polarity, channel, output-compare mode,
    the pin numbers that carry a timer channel, counter mode, capture/compare
    mode and the interrupt-enable bit positions, plus the timer configuration
    records. Each enumeration is a datatype with its C value as a function
    and, where the C value is stored in a register field, the decoding back. */
module TimerDefs {
  import opened Opt
  import opened Mcu
  import opened GpioDefs

  /** TIM2_5_CC_POLARITY (CCxP/CCxNP, RM0368 section 13.4.9). */
  datatype CcPolarity = RisingEdge | FallingEdge | BothEdges

  function PolarityCode(p: CcPolarity): int
  {
    match p
    case RisingEdge => 0
    case FallingEdge => 1
    case BothEdges => 3
  }

  function PolarityOfCode(c: int): Option<CcPolarity>
  {
    if c == 0 then Some(RisingEdge)
    else if c == 1 then Some(FallingEdge)
    else if c == 3 then Some(BothEdges)
    else None
  }

  /** Polarity values are 0, 1 and 3: 2 (CCxNP alone) is never produced, and
      every value decodes back to its polarity. */
  lemma PolarityCodes(p: CcPolarity, c: int)
    ensures PolarityOfCode(PolarityCode(p)) == Some(p)
    ensures PolarityOfCode(c).Some? <==> c in {0, 1, 3}
    ensures PolarityCode(p) != 2 && 0 <= PolarityCode(p) <= 3
  {
  }

  /** TIM2_5_CH. */
  datatype Channel = Ch1 | Ch2 | Ch3 | Ch4

  /** The enumeration value of channel CHn, which is n - 1. */
  function ChannelIndex(ch: Channel): int
  {
    match ch
    case Ch1 => 0
    case Ch2 => 1
    case Ch3 => 2
    case Ch4 => 3
  }

  /** TIM2_5_INTERRUPT_EN: the DIER bit positions (section 13.4.4). */
  datatype Interrupt = UpdateInterrupt | Cc1Interrupt | Cc2Interrupt
                     | Cc3Interrupt | Cc4Interrupt | TriggerInterrupt

  function InterruptBit(i: Interrupt): int
  {
    match i
    case UpdateInterrupt => 0
    case Cc1Interrupt => 1
    case Cc2Interrupt => 2
    case Cc3Interrupt => 3
    case Cc4Interrupt => 4
    case TriggerInterrupt => 6
  }

  /** The capture/compare interrupt of a channel. */
  function CcInterrupt(ch: Channel): Interrupt
  {
    match ch
    case Ch1 => Cc1Interrupt
    case Ch2 => Cc2Interrupt
    case Ch3 => Cc3Interrupt
    case Ch4 => Cc4Interrupt
  }

  /** The two enumerations are one apart: channel index n - 1 has its
      interrupt at bit n, with bit 0 the update interrupt. */
  lemma CcInterruptBitIsIndexPlusOne(ch: Channel)
    ensures InterruptBit(CcInterrupt(ch)) == ChannelIndex(ch) + 1
    ensures 1 <= InterruptBit(CcInterrupt(ch)) <= 4
  {
  }

  /** Distinct interrupts have distinct bits, all in 0..6, and bit 5 (COMIE,
      absent on TIM2..TIM5) is not used. */
  lemma InterruptBitsDistinct(a: Interrupt, b: Interrupt)
    ensures InterruptBit(a) == InterruptBit(b) ==> a == b
    ensures 0 <= InterruptBit(a) <= 6 && InterruptBit(a) != 5
  {
  }

  /** TIM2_5_OUTPUT_MODE: the OCxM field values (section 13.4.7), and NONE. */
  datatype OutputMode = Frozen | Active | Inactive | Toggle | ForceInactive
                      | ForceActive | PwmMode1 | PwmMode2 | OutputNone

  function OutputModeCode(m: OutputMode): int
  {
    match m
    case Frozen => 0
    case Active => 1
    case Inactive => 2
    case Toggle => 3
    case ForceInactive => 4
    case ForceActive => 5
    case PwmMode1 => 6
    case PwmMode2 => 7
    case OutputNone => -1
  }

  /** The output mode an OCxM value stands for. */
  function OutputModeOfCode(c: int): Option<OutputMode>
  {
    if c == 0 then Some(Frozen)
    else if c == 1 then Some(Active)
    else if c == 2 then Some(Inactive)
    else if c == 3 then Some(Toggle)
    else if c == 4 then Some(ForceInactive)
    else if c == 5 then Some(ForceActive)
    else if c == 6 then Some(PwmMode1)
    else if c == 7 then Some(PwmMode2)
    else None
  }

  /** FROZEN..PWM_MODE2 are 0..7 in order, so each fits the 3-bit OCxM field
      and decodes back; NONE is -1, outside the field. */
  lemma OutputModeCodes(m: OutputMode, c: int)
    ensures m != OutputNone ==> OutputModeOfCode(OutputModeCode(m)) == Some(m)
    ensures OutputModeCode(m) == -1 <==> m == OutputNone
    ensures -1 <= OutputModeCode(m) <= 7
    ensures OutputModeOfCode(c).Some? <==> 0 <= c <= 7
  {
  }

  /** TIM2_5_PIN: a timer channel named by the pin that carries it. */
  datatype TimPin =
    | Tim2Ch1Pa0 | Tim2Ch2Pa1 | Tim2Ch3Pa2 | Tim2Ch4Pa3
    | Tim2Ch1Pa5 | Tim2Ch1Pa15 | Tim2Ch2Pb3
    | Tim3Ch1Pa6 | Tim3Ch2Pa7 | Tim3Ch3Pb0 | Tim3Ch4Pb1
    | Tim3Ch1Pb4 | Tim3Ch2Pb5
    | Tim3Ch1Pc6 | Tim3Ch2Pc7 | Tim3Ch3Pc8 | Tim3Ch4Pc9
    | Tim4Ch1Pb6 | Tim4Ch2Pb7 | Tim4Ch3Pb8 | Tim4Ch4Pb9
    | Tim5Ch1Pa0 | Tim5Ch2Pa1 | Tim5Ch3Pa2 | Tim5Ch4Pa3

  /** How the C enumeration numbers a TimPin: the value of the nearest
      constant at or before it that has an initialiser (the first constant
      counts as initialised to 0), and how many constants after that one it
      comes. */
  function TimPinRun(p: TimPin): (run: (int, nat))
  {
    match p
    case Tim2Ch1Pa0 => (0, 0)
    case Tim2Ch2Pa1 => (0, 1)
    case Tim2Ch3Pa2 => (0, 2)
    case Tim2Ch4Pa3 => (0, 3)
    case Tim2Ch1Pa5 => (5, 0)
    case Tim2Ch1Pa15 => (15, 0)
    case Tim2Ch2Pb3 => (3, 0)
    case Tim3Ch1Pa6 => (6, 0)
    case Tim3Ch2Pa7 => (6, 1)
    case Tim3Ch3Pb0 => (0, 0)
    case Tim3Ch4Pb1 => (0, 1)
    case Tim3Ch1Pb4 => (4, 0)
    case Tim3Ch2Pb5 => (4, 1)
    case Tim3Ch1Pc6 => (4, 2)
    case Tim3Ch2Pc7 => (4, 3)
    case Tim3Ch3Pc8 => (4, 4)
    case Tim3Ch4Pc9 => (4, 5)
    case Tim4Ch1Pb6 => (6, 0)
    case Tim4Ch2Pb7 => (6, 1)
    case Tim4Ch3Pb8 => (6, 2)
    case Tim4Ch4Pb9 => (6, 3)
    case Tim5Ch1Pa0 => (0, 0)
    case Tim5Ch2Pa1 => (0, 1)
    case Tim5Ch3Pa2 => (0, 2)
    case Tim5Ch4Pa3 => (0, 3)
  }

  /** The value the C enumeration gives a TimPin: each constant without an
      initialiser is one more than the constant before it. */
  function TimPinValue(p: TimPin): int
  {
    TimPinRun(p).0 + TimPinRun(p).1
  }

  /** The port and pin number written in a TimPin's name (the "PB5" of
      TIM3_CH2_PB5), and the timer and channel it names. */
  function TimPinPort(p: TimPin): PortId
  {
    match p
    case Tim2Ch1Pa0 => PortA
    case Tim2Ch2Pa1 => PortA
    case Tim2Ch3Pa2 => PortA
    case Tim2Ch4Pa3 => PortA
    case Tim2Ch1Pa5 => PortA
    case Tim2Ch1Pa15 => PortA
    case Tim2Ch2Pb3 => PortB
    case Tim3Ch1Pa6 => PortA
    case Tim3Ch2Pa7 => PortA
    case Tim3Ch3Pb0 => PortB
    case Tim3Ch4Pb1 => PortB
    case Tim3Ch1Pb4 => PortB
    case Tim3Ch2Pb5 => PortB
    case Tim3Ch1Pc6 => PortC
    case Tim3Ch2Pc7 => PortC
    case Tim3Ch3Pc8 => PortC
    case Tim3Ch4Pc9 => PortC
    case Tim4Ch1Pb6 => PortB
    case Tim4Ch2Pb7 => PortB
    case Tim4Ch3Pb8 => PortB
    case Tim4Ch4Pb9 => PortB
    case Tim5Ch1Pa0 => PortA
    case Tim5Ch2Pa1 => PortA
    case Tim5Ch3Pa2 => PortA
    case Tim5Ch4Pa3 => PortA
  }

  function TimPinNamedNumber(p: TimPin): int
  {
    match p
    case Tim2Ch1Pa0 => 0
    case Tim2Ch2Pa1 => 1
    case Tim2Ch3Pa2 => 2
    case Tim2Ch4Pa3 => 3
    case Tim2Ch1Pa5 => 5
    case Tim2Ch1Pa15 => 15
    case Tim2Ch2Pb3 => 3
    case Tim3Ch1Pa6 => 6
    case Tim3Ch2Pa7 => 7
    case Tim3Ch3Pb0 => 0
    case Tim3Ch4Pb1 => 1
    case Tim3Ch1Pb4 => 4
    case Tim3Ch2Pb5 => 5
    case Tim3Ch1Pc6 => 6
    case Tim3Ch2Pc7 => 7
    case Tim3Ch3Pc8 => 8
    case Tim3Ch4Pc9 => 9
    case Tim4Ch1Pb6 => 6
    case Tim4Ch2Pb7 => 7
    case Tim4Ch3Pb8 => 8
    case Tim4Ch4Pb9 => 9
    case Tim5Ch1Pa0 => 0
    case Tim5Ch2Pa1 => 1
    case Tim5Ch3Pa2 => 2
    case Tim5Ch4Pa3 => 3
  }

  function TimPinTimer(p: TimPin): TimerId
  {
    match p
    case Tim2Ch1Pa0 | Tim2Ch2Pa1 | Tim2Ch3Pa2 | Tim2Ch4Pa3
       | Tim2Ch1Pa5 | Tim2Ch1Pa15 | Tim2Ch2Pb3 => Tim2
    case Tim3Ch1Pa6 | Tim3Ch2Pa7 | Tim3Ch3Pb0 | Tim3Ch4Pb1
       | Tim3Ch1Pb4 | Tim3Ch2Pb5
       | Tim3Ch1Pc6 | Tim3Ch2Pc7 | Tim3Ch3Pc8 | Tim3Ch4Pc9 => Tim3
    case Tim4Ch1Pb6 | Tim4Ch2Pb7 | Tim4Ch3Pb8 | Tim4Ch4Pb9 => Tim4
    case Tim5Ch1Pa0 | Tim5Ch2Pa1 | Tim5Ch3Pa2 | Tim5Ch4Pa3 => Tim5
  }

  /** Every TimPin value, explicit or auto-incremented, is a GPIO pin number
      in 0..15 and is the pin number its name gives; values repeat across
      ports (TIM3_CH1_PA6 and TIM3_CH1_PC6 are both 6), so a value alone does
      not identify the channel. */
  lemma TimPinValueIsNamedPin(p: TimPin)
    ensures 0 <= TimPinValue(p) < 16
    ensures TimPinValue(p) == TimPinNamedNumber(p)
  {
  }

  lemma TimPinValuesRepeat()
    ensures TimPinValue(Tim3Ch1Pa6) == TimPinValue(Tim3Ch1Pc6) == 6
    ensures TimPinPort(Tim3Ch1Pa6) != TimPinPort(Tim3Ch1Pc6)
  {
  }

  /** TIM2_5_COUNTER_MODE. */
  datatype CounterMode = Up | Down

  function CounterModeCode(m: CounterMode): int
  {
    match m
    case Up => 0
    case Down => 1
  }

  /** The counter mode a stored value stands for; a C enumeration field can
      hold any int, and the driver rejects values other than UP and DOWN. */
  function CounterModeOfCode(c: int): Option<CounterMode>
  {
    if c == 0 then Some(Up) else if c == 1 then Some(Down) else None
  }

  lemma CounterModeCodes(m: CounterMode, c: int)
    ensures CounterModeOfCode(CounterModeCode(m)) == Some(m)
    ensures CounterModeOfCode(c).Some? <==> c == 0 || c == 1
    ensures CounterModeOfCode(c).Some? ==> CounterModeCode(CounterModeOfCode(c).value) == c
  {
  }

  /** TIM2_5_CAPTURE_COMPARE_MODE: INPUT = 0, OUTPUT = 1. */
  datatype CcMode = CcInput | CcOutput

  function CcModeCode(m: CcMode): int
  {
    match m
    case CcInput => 0
    case CcOutput => 1
  }

  lemma CcModeCodes(a: CcMode, b: CcMode)
    ensures CcModeCode(a) == CcModeCode(b) ==> a == b
    ensures CcModeCode(a) in {0, 1}
  {
  }

  /** TIM2_5_CONFIG: the timer, the counter mode as the stored int, and the
      prescaler and period as signed ints, so negative values can be given. */
  datatype TimerConfig = TimerConfig(
    tmr: Timer,
    counterMode: int,
    prescaler: int,
    period: int)

  /** TIM2_5_CAPTURE_COMPARE_CONFIG. */
  datatype CaptureCompareConfig = CaptureCompareConfig(
    pinNum: TimPin,
    port: GpioPort,
    ccMode: CcMode,
    channel: Channel,
    outputMode: OutputMode,
    polarity: CcPolarity)

  /** The record tim2_5_init_capture reads: a timer, a pin number and the
      pin's port. */
  datatype CaptureConfig = CaptureConfig(
    tmr: Timer,
    pinNum: PinNum,
    port: GpioPort)
}
