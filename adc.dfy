/** The ADC1 driver: the analog pin of a channel, the regular-sequence
    registers SQR1..SQR3, the sequence length, and starting and reading a
    conversion (RM0368 section 11.12). */
module AdcDriver {
  import opened Bits
  import opened Opt
  import opened Mcu
  import opened GpioDefs
  import Gpio

  /** ADC_SQ1 .. ADC_SQ16, as the values 0..15. */
  type SeqIndex = s: bv32 | s < 16

  /** ADC_CH0 .. ADC_CH18. */
  type ChannelNum = c: bv32 | c < 19

  /** ADC_CONFIG; the sequence length is a signed int. */
  datatype AdcConfig = AdcConfig(sequence: SeqIndex, channel: ChannelNum, seqLength: int)

  /** Number of configurable bits in each SQRx register (MAX_SQR_BITS). */
  const MaxSqrBits: bv32 := 30

  /** The largest value of the L field (MAX_SEQ_LENGTH). */
  const MaxSeqLength: int := 15

  /** The port that adc_init configures for a channel. */
  function ChannelPort(ch: ChannelNum): PortId
  {
    if ch <= 7 then PortA else if ch < 10 then PortB else PortC
  }

  /** The pin number that adc_init configures: the channel, less 8 on GPIOB
      and less 10 on GPIOC. */
  function ChannelPinNum(ch: ChannelNum): (p: PinNum)
  {
    var c: bv32 := ch;
    if c <= 7 then c else if c < 10 then c - 8 else c - 10
  }

  /** Channels 0..15 land on the pins of the STM32F401 datasheet: PA0..PA7,
      PB0..PB1, PC0..PC5. */
  lemma ChannelPinsOfDatasheet(ch: ChannelNum)
    requires ch <= 15
    ensures ch <= 7 ==> ChannelPort(ch) == PortA && ChannelPinNum(ch) == ch
    ensures 8 <= ch <= 9 ==> ChannelPort(ch) == PortB && ChannelPinNum(ch) <= 1
    ensures 10 <= ch ==> ChannelPort(ch) == PortC && ChannelPinNum(ch) <= 5
  {
  }

  /** The internal channels 16..18 (temperature sensor and VREFINT) have no
      pin, yet fall through to the GPIOC case: adc_init then configures PC6,
      PC7 or PC8 as analog. */
  lemma InternalChannelsTakePortC(ch: ChannelNum)
    requires ch >= 16
    ensures ChannelPort(ch) == PortC && 6 <= ChannelPinNum(ch) <= 8
  {
  }

  /** No two channels share a pin. */
  lemma ChannelPinsDistinct(a: ChannelNum, b: ChannelNum)
    requires ChannelPort(a) == ChannelPort(b) && ChannelPinNum(a) == ChannelPinNum(b)
    ensures a == b
  {
  }

  /** The pin record adc_init hands to gpio_init: analog, no pull,
      push-pull. Its alternate-function field is left uninitialised by the C
      code; gpio_init reads it only in ALTERNATE mode, so 0 stands for it. */
  function AdcPin(ch: ChannelNum): PinConfig
  {
    PinConfig(ChannelPinNum(ch), Analog, 0, NoPull, PushPull)
  }

  /** The three regular-sequence registers. */
  datatype SqrReg = Sqr1 | Sqr2 | Sqr3

  /** The offset of a 5-bit field inside the 30 configurable bits. */
  type SlotOffset = o: bv32 | o <= 25

  /** A register and the bit offset of a 5-bit field in it. */
  datatype Slot = Slot(reg: SqrReg, offset: SlotOffset)

  /** Where sequence number s goes. The offset 5s counts 30 bits per
      register, SQR3 first. */
  function SequenceSlot(s: SeqIndex): Slot
  {
    var q: bv32 := s;
    var bit := q * 5;
    if bit < MaxSqrBits then Slot(Sqr3, bit)
    else if bit < MaxSqrBits * 2 then Slot(Sqr2, bit - MaxSqrBits)
    else Slot(Sqr1, bit - MaxSqrBits * 2)
  }

  /** In SQR1 a slot's field ends below the L field at bit 20. */
  lemma SlotInRange(s: SeqIndex)
    ensures SequenceSlot(s).reg == Sqr1 ==> SequenceSlot(s).offset <= 15
  {
  }

  /** SQ1..SQ6 go to SQR3, SQ7..SQ12 to SQR2 and SQ13..SQ16 to SQR1, at 5 bits
      per slot. */
  lemma SlotMatchesManual(s: SeqIndex)
    ensures s < 6 ==> SequenceSlot(s).reg == Sqr3 && SequenceSlot(s).offset == 5 * s
    ensures 6 <= s < 12 ==> SequenceSlot(s).reg == Sqr2 && SequenceSlot(s).offset == 5 * (s - 6)
    ensures 12 <= s ==> SequenceSlot(s).reg == Sqr1 && SequenceSlot(s).offset == 5 * (s - 12)
  {
  }

  /** Different sequence numbers never share a field. */
  lemma SlotsDistinct(a: SeqIndex, b: SeqIndex)
    requires SequenceSlot(a) == SequenceSlot(b)
    ensures a == b
  {
  }

  /** The value written to the L field: the sequence length clamped to
      0..15. */
  function ClampLength(len: int): (l: bv32)
    ensures l <= 15
    ensures 0 <= len <= MaxSeqLength ==> l as int == len
    ensures len > MaxSeqLength ==> l == 15
    ensures len < 0 ==> l == 0
  {
    if len > MaxSeqLength then 15 else if len < 0 then 0 else SmallBv(len)
  }

  /** The channel placed at a slot offset. */
  function ChannelBits(ch: ChannelNum, offset: SlotOffset): bv32
  {
    var c: bv32 := ch;
    c << offset
  }

  /** The bits sequence_config ORs into SQR1 for the length. */
  function LengthBits(len: int): bv32
  {
    ClampLength(len) << AdcSqr1LPos
  }

  /** Register r after the slot write of sequence_config: the channel ORed
      in at the slot's offset when r is the slot's register, otherwise as it
      was. */
  function SqrAfterSlot(sqr: bv32, cfg: AdcConfig, r: SqrReg): bv32
  {
    var slot := SequenceSlot(cfg.sequence);
    if slot.reg == r then sqr | ChannelBits(cfg.channel, slot.offset) else sqr
  }

  /** What sequence_config does: OR the channel into its slot, then OR the
      clamped length into the L field of SQR1. */
  twostate predicate SequenceEffect(adc: Adc, cfg: AdcConfig)
    reads adc`sqr1, adc`sqr2, adc`sqr3
  {
    && adc.sqr3 == SqrAfterSlot(old(adc.sqr3), cfg, Sqr3)
    && adc.sqr2 == SqrAfterSlot(old(adc.sqr2), cfg, Sqr2)
    && adc.sqr1 == SqrAfterSlot(old(adc.sqr1), cfg, Sqr1) | LengthBits(cfg.seqLength)
  }

  /** A register other than the slot's is left as it was. */
  lemma OnlySlotRegChanges(sqr: bv32, cfg: AdcConfig, r: SqrReg)
    ensures SequenceSlot(cfg.sequence).reg != r ==> SqrAfterSlot(sqr, cfg, r) == sqr
  {
  }

  /** sequence_config. */
  method SequenceConfig(adc: Adc, cfg: AdcConfig)
    modifies adc`sqr1, adc`sqr2, adc`sqr3
    ensures SequenceEffect(adc, cfg)
  {
    var slot := SequenceSlot(cfg.sequence);
    OnlySlotRegChanges(adc.sqr1, cfg, Sqr1);
    OnlySlotRegChanges(adc.sqr2, cfg, Sqr2);
    OnlySlotRegChanges(adc.sqr3, cfg, Sqr3);
    if slot.reg == Sqr3 {
      adc.sqr3 := SqrAfterSlot(adc.sqr3, cfg, Sqr3);
    } else if slot.reg == Sqr2 {
      adc.sqr2 := SqrAfterSlot(adc.sqr2, cfg, Sqr2);
    } else {
      adc.sqr1 := SqrAfterSlot(adc.sqr1, cfg, Sqr1);
    }
    adc.sqr1 := adc.sqr1 | LengthBits(cfg.seqLength);
  }

  /** The 5-bit field at bit `offset`. */
  function Field5(r: bv32, offset: SlotOffset): bv32
  {
    (r >> offset) & 0x1F
  }

  /** The L field of SQR1. */
  function LengthField(sqr1: bv32): bv32
  {
    (sqr1 >> AdcSqr1LPos) & 0xF
  }

  lemma SlotFieldHoldsChannel(sqr: bv32, cfg: AdcConfig)
    ensures var slot := SequenceSlot(cfg.sequence);
      Field5(SqrAfterSlot(sqr, cfg, slot.reg), slot.offset) == Field5(sqr, slot.offset) | cfg.channel
  {
  }

  lemma SlotWriteKeepsBits(sqr: bv32, cfg: AdcConfig, r: SqrReg)
    ensures SqrAfterSlot(sqr, cfg, r) & sqr == sqr
  {
  }

  lemma SlotWriteSparesLength(sqr1: bv32, cfg: AdcConfig)
    ensures LengthField(SqrAfterSlot(sqr1, cfg, Sqr1)) == LengthField(sqr1)
  {
    SlotInRange(cfg.sequence);
  }

  lemma LengthFieldHoldsLength(sqr1: bv32, len: int)
    ensures LengthField(sqr1 | LengthBits(len)) == LengthField(sqr1) | ClampLength(len)
  {
  }

  /** What sequence_config leaves in the registers: the slot's 5-bit field
      holds the channel ORed over what was there, the write into SQR1's slot
      leaves the L field alone, the L field then holds the clamped length
      ORed over what was there, no register other than the slot's gets a
      channel, and since it only ORs, no bit that was set is cleared. */
  lemma SequenceConfigMeaning(sqr: bv32, sqr1: bv32, cfg: AdcConfig, r: SqrReg)
    ensures var slot := SequenceSlot(cfg.sequence);
      Field5(SqrAfterSlot(sqr, cfg, slot.reg), slot.offset) == Field5(sqr, slot.offset) | cfg.channel
    ensures r != SequenceSlot(cfg.sequence).reg ==> SqrAfterSlot(sqr, cfg, r) == sqr
    ensures LengthField(SqrAfterSlot(sqr1, cfg, Sqr1) | LengthBits(cfg.seqLength))
         == LengthField(sqr1) | ClampLength(cfg.seqLength)
    ensures SqrAfterSlot(sqr, cfg, r) & sqr == sqr
    ensures (SqrAfterSlot(sqr1, cfg, Sqr1) | LengthBits(cfg.seqLength)) & sqr1 == sqr1
  {
    SlotFieldHoldsChannel(sqr, cfg);
    SlotWriteSparesLength(sqr1, cfg);
    LengthFieldHoldsLength(SqrAfterSlot(sqr1, cfg, Sqr1), cfg.seqLength);
    SlotWriteKeepsBits(sqr, cfg, r);
    SqrOneKeepsBits(sqr1, cfg);
  }

  lemma SqrOneKeepsBits(sqr1: bv32, cfg: AdcConfig)
    ensures (SqrAfterSlot(sqr1, cfg, Sqr1) | LengthBits(cfg.seqLength)) & sqr1 == sqr1
  {
    SlotWriteKeepsBits(sqr1, cfg, Sqr1);
  }

  /** The GPIO port object for an id among the three the driver uses. */
  function PortFor(ga: GpioPort, gb: GpioPort, gc: GpioPort, id: PortId): GpioPort
  {
    if id == PortA then ga else if id == PortB then gb else gc
  }

  /** The first step of adc_init: configure the channel's pin (PA0..PA7 for
      channels 0..7, PB0..PB1 for 8..9, GPIOC pin channel - 10 otherwise) as an
      analog pin with no pull and push-pull output type. */
  method SetupPin(rcc: Rcc, ga: GpioPort, gb: GpioPort, gc: GpioPort, ch: ChannelNum)
    requires ga.id == PortA && gb.id == PortB && gc.id == PortC
    modifies rcc`ahb1enr
    modifies ga`moder, ga`pupdr, ga`otyper, ga`afrl, ga`afrh
    modifies gb`moder, gb`pupdr, gb`otyper, gb`afrl, gb`afrh
    modifies gc`moder, gc`pupdr, gc`otyper, gc`afrl, gc`afrh
    ensures rcc.ahb1enr == Gpio.InitClock(ChannelPort(ch), old(rcc.ahb1enr))
    ensures Gpio.Regs(PortFor(ga, gb, gc, ChannelPort(ch)))
         == Gpio.InitRegs(ChannelPort(ch), old(Gpio.Regs(PortFor(ga, gb, gc, ChannelPort(ch)))), AdcPin(ch))
    ensures ChannelPort(ch) != PortA ==> unchanged(ga)
    ensures ChannelPort(ch) != PortB ==> unchanged(gb)
    ensures ChannelPort(ch) != PortC ==> unchanged(gc)
  {
    Gpio.Init(rcc, PortFor(ga, gb, gc, ChannelPort(ch)), AdcPin(ch));
  }

  /** adc_init: set up the channel's pin, enable the ADC1 clock, configure the
      sequence, and set ADON. */
  method Init(rcc: Rcc, adc: Adc, ga: GpioPort, gb: GpioPort, gc: GpioPort, cfg: AdcConfig)
    requires ga.id == PortA && gb.id == PortB && gc.id == PortC
    modifies rcc`ahb1enr, rcc`apb2enr, adc`sqr1, adc`sqr2, adc`sqr3, adc`cr2
    modifies ga`moder, ga`pupdr, ga`otyper, ga`afrl, ga`afrh
    modifies gb`moder, gb`pupdr, gb`otyper, gb`afrl, gb`afrh
    modifies gc`moder, gc`pupdr, gc`otyper, gc`afrl, gc`afrh
    ensures rcc.ahb1enr == Gpio.InitClock(ChannelPort(cfg.channel), old(rcc.ahb1enr))
    ensures Gpio.Regs(PortFor(ga, gb, gc, ChannelPort(cfg.channel)))
         == Gpio.InitRegs(ChannelPort(cfg.channel), old(Gpio.Regs(PortFor(ga, gb, gc, ChannelPort(cfg.channel)))), AdcPin(cfg.channel))
    ensures ChannelPort(cfg.channel) != PortA ==> unchanged(ga)
    ensures ChannelPort(cfg.channel) != PortB ==> unchanged(gb)
    ensures ChannelPort(cfg.channel) != PortC ==> unchanged(gc)
    ensures rcc.apb2enr == SetBit(old(rcc.apb2enr), Adc1En)
    ensures SequenceEffect(adc, cfg)
    ensures adc.cr2 == SetBit(old(adc.cr2), AdcAdon)
  {
    SetupPin(rcc, ga, gb, gc, cfg.channel);
    rcc.apb2enr := SetBit(rcc.apb2enr, Adc1En);
    SequenceConfig(adc, cfg);
    adc.cr2 := SetBit(adc.cr2, AdcAdon);
  }

  /** adc_start_single: set SWSTART. */
  method StartSingle(adc: Adc)
    modifies adc`cr2
    ensures adc.cr2 == SetBit(old(adc.cr2), AdcSwstart)
  {
    adc.cr2 := SetBit(adc.cr2, AdcSwstart);
  }

  /** adc_start_continuous: set CONT, then SWSTART. */
  method StartContinuous(adc: Adc)
    modifies adc`cr2
    ensures adc.cr2 == SetBit(SetBit(old(adc.cr2), AdcCont), AdcSwstart)
  {
    adc.cr2 := SetBit(adc.cr2, AdcCont);
    adc.cr2 := SetBit(adc.cr2, AdcSwstart);
  }

  /** A single start sets only SWSTART; a continuous start sets CONT and
      SWSTART and nothing else. */
  lemma StartBits(cr2: bv32)
    ensures SameOutside(cr2, SetBit(cr2, AdcSwstart), Bit(AdcSwstart))
    ensures IsSet(SetBit(SetBit(cr2, AdcCont), AdcSwstart), AdcCont)
    ensures SameOutside(cr2, SetBit(SetBit(cr2, AdcCont), AdcSwstart), Bit(AdcCont) | Bit(AdcSwstart))
  {
    SetBitFrame(cr2, AdcSwstart);
    ContinuousStartHoldsCont(cr2);
    ContinuousStartFrame(cr2);
  }

  lemma ContinuousStartHoldsCont(cr2: bv32)
    ensures IsSet(SetBit(SetBit(cr2, AdcCont), AdcSwstart), AdcCont)
  {
  }

  lemma ContinuousStartFrame(cr2: bv32)
    ensures SameOutside(cr2, SetBit(SetBit(cr2, AdcCont), AdcSwstart), Bit(AdcCont) | Bit(AdcSwstart))
  {
  }

  /** adc_read: wait for EOC, then return DR. When EOC is not yet set, the
      wait is the end of a conversion whose result is `sample`. */
  method Read(adc: Adc, sample: bv32) returns (v: bv32)
    modifies adc`sr, adc`dr
    ensures IsSet(adc.sr, AdcEoc)
    ensures v == adc.dr
    ensures v == if IsSet(old(adc.sr), AdcEoc) then old(adc.dr) else sample
  {
    if !IsSet(adc.sr, AdcEoc) {
      adc.EndOfConversion(sample);
    }
    v := adc.dr;
  }
}
