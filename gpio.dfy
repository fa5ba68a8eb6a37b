/** The full GPIO driver: clock enable, mode, pull resistor, output type and
    alternate function of one pin, and reading, writing, toggling and
    set/reset of a pin's level. Every update is a read-modify-write of one
    port register, written with the Bits function for the C idiom it uses
    (`&= ~(0x3 << 2p)` then `|= v << 2p` is Place2, `|= 1U << p` is SetBit, and
    so on); the lemmas state what each update does to the configured pin and
    that it leaves every other pin alone. */
module Gpio {
  import opened Bits
  import opened Opt
  import opened Mcu
  import opened GpioDefs

  /** OTYPER after gpio_set_otyper: push-pull clears the pin's bit,
      open-drain sets it, OTYPER_NONE leaves the register as it was. */
  function OtyperAfter(otyper: bv32, pin: PinConfig): bv32
  {
    match pin.otype
    case PushPull => ClearBit(otyper, pin.num)
    case OpenDrain => SetBit(otyper, pin.num)
    case OtypeNone => otyper
  }

  /** AFRL after gpio_alt_func: pins 0..7 OR their function into nibble p. */
  function AfrlAfter(afrl: bv32, pin: PinConfig): bv32
  {
    if pin.num <= 7 then OrNibble(afrl, pin.num, pin.altFunc) else afrl
  }

  /** AFRH after gpio_alt_func: pins 8..15 OR their function into nibble p - 8. */
  function AfrhAfter(afrh: bv32, pin: PinConfig): bv32
  {
    if pin.num > 7 then OrNibble(afrh, pin.num - 8, pin.altFunc) else afrh
  }

  /** A push-pull or open-drain setting is what OTYPER bit p then reads. */
  lemma OtyperAfterSetsBit(otyper: bv32, pin: PinConfig)
    requires pin.otype != OtypeNone
    ensures IsSet(OtyperAfter(otyper, pin), pin.num) <==> pin.otype == OpenDrain
  {
  }

  lemma PushPullFrame(otyper: bv32, pin: PinConfig)
    requires pin.otype == PushPull
    ensures SameOutside(otyper, OtyperAfter(otyper, pin), Bit(pin.num))
  {
    ClearBitFrame(otyper, pin.num);
  }

  lemma OpenDrainFrame(otyper: bv32, pin: PinConfig)
    requires pin.otype == OpenDrain
    ensures SameOutside(otyper, OtyperAfter(otyper, pin), Bit(pin.num))
  {
    SetBitFrame(otyper, pin.num);
  }

  lemma OtypeNoneFrame(otyper: bv32, pin: PinConfig)
    requires pin.otype == OtypeNone
    ensures SameOutside(otyper, OtyperAfter(otyper, pin), Bit(pin.num))
  {
  }

  /** gpio_set_otyper changes no OTYPER bit but the pin's own. */
  lemma OtyperAfterFrame(otyper: bv32, pin: PinConfig)
    ensures SameOutside(otyper, OtyperAfter(otyper, pin), Bit(pin.num))
  {
    match pin.otype
    case PushPull => PushPullFrame(otyper, pin);
    case OpenDrain => OpenDrainFrame(otyper, pin);
    case OtypeNone => OtypeNoneFrame(otyper, pin);
  }

  // One fact per helper: the bit-vector facts are cheap apart, not together.

  lemma AfrlAfterNibble(afrl: bv32, pin: PinConfig)
    requires pin.num <= 7
    ensures Field4(AfrlAfter(afrl, pin), pin.num) == Field4(afrl, pin.num) | pin.altFunc
  {
  }

  lemma AfrlAfterFrame(afrl: bv32, pin: PinConfig)
    requires pin.num <= 7
    ensures SameOutside(afrl, AfrlAfter(afrl, pin), Mask4(pin.num))
  {
    OrNibbleFrame(afrl, pin.num, pin.altFunc);
  }

  lemma AfrlAfterKeeps(afrl: bv32, pin: PinConfig)
    ensures AfrlAfter(afrl, pin) & afrl == afrl
  {
    if pin.num <= 7 {
      OrNibbleMonotone(afrl, pin.num, pin.altFunc);
    }
  }

  lemma AfrhAfterNibble(afrh: bv32, pin: PinConfig)
    requires pin.num > 7
    ensures Field4(AfrhAfter(afrh, pin), pin.num - 8) == Field4(afrh, pin.num - 8) | pin.altFunc
  {
  }

  lemma AfrhAfterFrame(afrh: bv32, pin: PinConfig)
    requires pin.num > 7
    ensures SameOutside(afrh, AfrhAfter(afrh, pin), Mask4(pin.num - 8))
  {
    OrNibbleFrame(afrh, pin.num - 8, pin.altFunc);
  }

  lemma AfrhAfterKeeps(afrh: bv32, pin: PinConfig)
    ensures AfrhAfter(afrh, pin) & afrh == afrh
  {
    if pin.num > 7 {
      OrNibbleMonotone(afrh, pin.num - 8, pin.altFunc);
    }
  }

  /** For pins 0..7 gpio_alt_func ORs the function into nibble p of AFRL,
      changes no other AFRL bit, clears nothing and leaves AFRH alone. */
  lemma AltFuncLowPin(afrl: bv32, afrh: bv32, pin: PinConfig)
    requires pin.num <= 7
    ensures Field4(AfrlAfter(afrl, pin), pin.num) == Field4(afrl, pin.num) | pin.altFunc
    ensures SameOutside(afrl, AfrlAfter(afrl, pin), Mask4(pin.num))
    ensures AfrlAfter(afrl, pin) & afrl == afrl
    ensures AfrhAfter(afrh, pin) == afrh
  {
    AfrlAfterNibble(afrl, pin);
    AfrlAfterFrame(afrl, pin);
    AfrlAfterKeeps(afrl, pin);
  }

  /** For pins 8..15 gpio_alt_func ORs the function into nibble p - 8 of AFRH,
      changes no other AFRH bit, clears nothing and leaves AFRL alone. */
  lemma AltFuncHighPin(afrl: bv32, afrh: bv32, pin: PinConfig)
    requires pin.num > 7
    ensures Field4(AfrhAfter(afrh, pin), pin.num - 8) == Field4(afrh, pin.num - 8) | pin.altFunc
    ensures SameOutside(afrh, AfrhAfter(afrh, pin), Mask4(pin.num - 8))
    ensures AfrhAfter(afrh, pin) & afrh == afrh
    ensures AfrlAfter(afrl, pin) == afrl
  {
    AfrhAfterNibble(afrh, pin);
    AfrhAfterFrame(afrh, pin);
    AfrhAfterKeeps(afrh, pin);
  }

  /** gpio_set_moder: clear the pin's 2-bit MODER field, then OR the mode in. */
  method SetModer(g: GpioPort, pin: PinConfig)
    modifies g`moder
    ensures g.moder == Place2(old(g.moder), pin.num, ModeCode(pin.mode))
  {
    g.moder := Place2(g.moder, pin.num, ModeCode(pin.mode));
  }

  /** gpio_set_pupdr: clear the pin's 2-bit PUPDR field, then OR the pull code
      in unless it is PUPDR_NONE; by Place2Zero, skipping the OR for code 0
      gives the same register as placing 0. */
  method SetPupdr(g: GpioPort, pin: PinConfig)
    modifies g`pupdr
    ensures g.pupdr == Place2(old(g.pupdr), pin.num, PullCode(pin.pull))
  {
    if pin.pull != NoPull {
      g.pupdr := Place2(g.pupdr, pin.num, PullCode(pin.pull));
    } else {
      Place2Zero(g.pupdr, pin.num);
      g.pupdr := g.pupdr & !Mask2(pin.num);
    }
  }

  /** gpio_set_otyper. */
  method SetOtyper(g: GpioPort, pin: PinConfig)
    modifies g`otyper
    ensures g.otyper == OtyperAfter(old(g.otyper), pin)
  {
    if pin.otype == PushPull {
      g.otyper := ClearBit(g.otyper, pin.num);
    }
    if pin.otype == OpenDrain {
      g.otyper := SetBit(g.otyper, pin.num);
    }
  }

  /** gpio_toggle_output: invert ODR bit p. */
  method ToggleOutput(g: GpioPort, pin: PinConfig)
    modifies g`odr
    ensures g.odr == FlipBit(old(g.odr), pin.num)
  {
    g.odr := FlipBit(g.odr, pin.num);
  }

  /** gpio_write_output: 1 sets ODR bit p, any other value clears it. */
  method WriteOutput(g: GpioPort, pin: PinConfig, val: Byte)
    modifies g`odr
    ensures g.odr == if val == SetOutput then SetBit(old(g.odr), pin.num)
                     else ClearBit(old(g.odr), pin.num)
  {
    if val == SetOutput {
      g.odr := SetBit(g.odr, pin.num);
    } else {
      g.odr := ClearBit(g.odr, pin.num);
    }
  }

  /** gpio_input_read: the level of input pin p, as 0 or 1. */
  method InputRead(g: GpioPort, pin: PinConfig) returns (v: Byte)
    ensures v <= 1
    ensures v == 1 <==> IsSet(g.idr, pin.num)
  {
    BitValueRange(g.idr, pin.num);
    BitValueIsSet(g.idr, pin.num);
    v := BitValue(g.idr, pin.num);
  }

  /** gpio_output_bit_setreset: write the BSRR word for val, or nothing. */
  method OutputBitSetReset(g: GpioPort, pin: PinConfig, val: Byte)
    modifies g`bsrr
    ensures g.bsrr == match BsrrWord(pin.num, val)
                      case Some(w) => w
                      case None => old(g.bsrr)
  {
    if val == BsrrSet {
      g.bsrr := Bit(pin.num);
    }
    if val == BsrrReset {
      g.bsrr := Bit(pin.num + 16);
    }
  }

  /** gpio_alt_func. */
  method AltFunc(g: GpioPort, pin: PinConfig)
    modifies g`afrl, g`afrh
    ensures g.afrl == AfrlAfter(old(g.afrl), pin)
    ensures g.afrh == AfrhAfter(old(g.afrh), pin)
  {
    if pin.num <= 7 {
      g.afrl := OrNibble(g.afrl, pin.num, pin.altFunc);
    }
    if pin.num > 7 {
      g.afrh := OrNibble(g.afrh, pin.num - 8, pin.altFunc);
    }
  }

  /** The five registers gpio_init configures, as values. */
  datatype PinRegs = PinRegs(moder: bv32, pupdr: bv32, otyper: bv32, afrl: bv32, afrh: bv32)

  function Regs(g: GpioPort): PinRegs
    reads g`moder, g`pupdr, g`otyper, g`afrl, g`afrh
  {
    PinRegs(g.moder, g.pupdr, g.otyper, g.afrl, g.afrh)
  }

  /** The registers after gpio_init configures `pin` on a port it knows: the
      pin's mode, pull and output type are set, and its alternate function
      when the mode is ALTERNATE. */
  function Configure(r: PinRegs, pin: PinConfig): PinRegs
  {
    PinRegs(
      Place2(r.moder, pin.num, ModeCode(pin.mode)),
      Place2(r.pupdr, pin.num, PullCode(pin.pull)),
      OtyperAfter(r.otyper, pin),
      if pin.mode == Alternate then AfrlAfter(r.afrl, pin) else r.afrl,
      if pin.mode == Alternate then AfrhAfter(r.afrh, pin) else r.afrh)
  }

  /** The registers after gpio_init on a port with identity `id`:
      configured when the driver knows the port, as they were otherwise. */
  function InitRegs(id: PortId, r: PinRegs, pin: PinConfig): PinRegs
  {
    if id == UnknownPort then r else Configure(r, pin)
  }

  /** AHB1ENR after gpio_init on a port with identity `id`: the port's clock
      bit ORed in when the driver knows the port, as it was otherwise. */
  function InitClock(id: PortId, ahb1enr: bv32): bv32
  {
    if id == UnknownPort then ahb1enr else SetBit(ahb1enr, PortClockBit(id).value)
  }

  /** What gpio_init does: on a port the driver knows, the port's clock bit
      is ORed into AHB1ENR and the pin's mode, pull and output type are set,
      and its alternate function when the mode is ALTERNATE; on any other port
      nothing changes. Its ensures restates the effect with InitClock and
      InitRegs, for callers that chain several gpio_init calls. */
  twostate predicate InitEffect(rcc: Rcc, g: GpioPort, pin: PinConfig)
    reads rcc`ahb1enr, g`moder, g`pupdr, g`otyper, g`afrl, g`afrh
    ensures InitEffect(rcc, g, pin) ==>
      && rcc.ahb1enr == InitClock(g.id, old(rcc.ahb1enr))
      && Regs(g) == InitRegs(g.id, old(Regs(g)), pin)
  {
    && (g.id == UnknownPort ==>
      && rcc.ahb1enr == old(rcc.ahb1enr)
      && g.moder == old(g.moder) && g.pupdr == old(g.pupdr) && g.otyper == old(g.otyper)
      && g.afrl == old(g.afrl) && g.afrh == old(g.afrh))
    && (g.id != UnknownPort ==>
      && rcc.ahb1enr == SetBit(old(rcc.ahb1enr), PortClockBit(g.id).value)
      && g.moder == Place2(old(g.moder), pin.num, ModeCode(pin.mode))
      && g.pupdr == Place2(old(g.pupdr), pin.num, PullCode(pin.pull))
      && g.otyper == OtyperAfter(old(g.otyper), pin)
      && g.afrl == (if pin.mode == Alternate then AfrlAfter(old(g.afrl), pin) else old(g.afrl))
      && g.afrh == (if pin.mode == Alternate then AfrhAfter(old(g.afrh), pin) else old(g.afrh)))
  }

  /** gpio_init. */
  method Init(rcc: Rcc, g: GpioPort, pin: PinConfig)
    modifies rcc`ahb1enr, g`moder, g`pupdr, g`otyper, g`afrl, g`afrh
    ensures InitEffect(rcc, g, pin)
  {
    var clock := PortClockBit(g.id);
    if clock.None? {
      return;
    }
    rcc.ahb1enr := SetBit(rcc.ahb1enr, clock.value);
    SetModer(g, pin);
    SetPupdr(g, pin);
    SetOtyper(g, pin);
    if pin.mode == Alternate {
      AltFunc(g, pin);
    }
  }

  /** After gpio_init the pin's MODER field decodes to its mode. */
  lemma InitSetsMode(moder: bv32, pin: PinConfig)
    ensures ModeOfCode(Field2(Place2(moder, pin.num, ModeCode(pin.mode)), pin.num)) == Some(pin.mode)
  {
    ModeCodeRoundTrip(pin.mode, 0);
  }

  /** After gpio_init the pin's PUPDR field decodes to its pull setting. */
  lemma InitSetsPull(pupdr: bv32, pin: PinConfig)
    ensures PullOfCode(Field2(Place2(pupdr, pin.num, PullCode(pin.pull)), pin.num)) == Some(pin.pull)
  {
    PullCodeRoundTrip(pin.pull, 0);
  }

  /** gpio_init on pin p leaves the mode of every other pin q as it was. */
  lemma InitKeepsOtherModes(moder: bv32, pin: PinConfig, q: PinNum)
    requires q != pin.num
    ensures Field2(Place2(moder, pin.num, ModeCode(pin.mode)), q) == Field2(moder, q)
  {
    Place2Frame(moder, pin.num, ModeCode(pin.mode));
    OtherField2(moder, Place2(moder, pin.num, ModeCode(pin.mode)), pin.num, q);
  }

  /** gpio_init on pin p leaves the pull setting of every other pin q as it was. */
  lemma InitKeepsOtherPulls(pupdr: bv32, pin: PinConfig, q: PinNum)
    requires q != pin.num
    ensures Field2(Place2(pupdr, pin.num, PullCode(pin.pull)), q) == Field2(pupdr, q)
  {
    Place2Frame(pupdr, pin.num, PullCode(pin.pull));
    OtherField2(pupdr, Place2(pupdr, pin.num, PullCode(pin.pull)), pin.num, q);
  }

  /** gpio_init on pin p leaves the output type of every other pin q as it was. */
  lemma InitKeepsOtherOtypes(otyper: bv32, pin: PinConfig, q: PinNum)
    requires q != pin.num
    ensures BitValue(OtyperAfter(otyper, pin), q) == BitValue(otyper, q)
  {
    OtyperAfterFrame(otyper, pin);
    OtherBit(otyper, OtyperAfter(otyper, pin), pin.num, q);
  }

  /** Toggling a pin twice restores ODR. */
  lemma ToggleTwiceRestores(odr: bv32, pin: PinConfig)
    ensures FlipBit(FlipBit(odr, pin.num), pin.num) == odr
  {
    FlipBitInvolution(odr, pin.num);
  }
}
