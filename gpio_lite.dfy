/** The reduced GPIO driver: its pin record holds only a pin number and a
    mode, its init enables the port clock and sets MODER and nothing else,
    and it offers toggle, write, read and set/reset of a pin's level. It uses
    the same encodings as the full driver. */
module GpioLite {
  import opened Bits
  import opened Opt
  import opened Mcu
  import opened GpioDefs

  /** GPIOx_PIN_CONFIG of the reduced driver. */
  datatype LitePin = LitePin(num: PinNum, mode: PinMode)

  /** gpio_set_moder: clear the pin's 2-bit field, then OR the mode in. */
  method SetModer(g: GpioPort, pin: LitePin)
    modifies g`moder
    ensures g.moder == Place2(old(g.moder), pin.num, ModeCode(pin.mode))
  {
    g.moder := Place2(g.moder, pin.num, ModeCode(pin.mode));
  }

  /** gpio_init: OR the port's AHB1ENR bit, then set the pin mode; a port the
      driver does not know returns before either write. */
  method Init(rcc: Rcc, g: GpioPort, pin: LitePin)
    modifies rcc`ahb1enr, g`moder
    ensures g.id == UnknownPort ==> unchanged(rcc) && unchanged(g)
    ensures g.id != UnknownPort ==>
      && rcc.ahb1enr == SetBit(old(rcc.ahb1enr), PortClockBit(g.id).value)
      && g.moder == Place2(old(g.moder), pin.num, ModeCode(pin.mode))
  {
    var clock := PortClockBit(g.id);
    if clock.None? {
      return;
    }
    rcc.ahb1enr := SetBit(rcc.ahb1enr, clock.value);
    SetModer(g, pin);
  }

  /** gpio_toggle_output. */
  method ToggleOutput(g: GpioPort, pin: LitePin)
    modifies g`odr
    ensures g.odr == FlipBit(old(g.odr), pin.num)
  {
    g.odr := FlipBit(g.odr, pin.num);
  }

  /** gpio_write_output: 1 sets ODR bit p, any other value clears it. */
  method WriteOutput(g: GpioPort, pin: LitePin, val: Byte)
    modifies g`odr
    ensures g.odr == if val == SetOutput then SetBit(old(g.odr), pin.num)
                     else ClearBit(old(g.odr), pin.num)
  {
    if val == SetOutput {
      g.odr := SetBit(g.odr, pin.num);
    } else {
      g.odr := ClearBit(g.odr, pin.num);
    }
  }

  /** gpio_input_read: the level of pin p, as 0 or 1. */
  method InputRead(g: GpioPort, pin: LitePin) returns (v: Byte)
    ensures v <= 1
    ensures v == 1 <==> IsSet(g.idr, pin.num)
  {
    BitValueRange(g.idr, pin.num);
    BitValueIsSet(g.idr, pin.num);
    v := BitValue(g.idr, pin.num);
  }

  /** gpio_output_bit_setreset: write the BSRR word for val, or nothing. */
  method OutputBitSetReset(g: GpioPort, pin: LitePin, val: Byte)
    modifies g`bsrr
    ensures g.bsrr == match BsrrWord(pin.num, val)
                      case Some(w) => w
                      case None => old(g.bsrr)
  {
    if val == BsrrSet {
      g.bsrr := Bit(pin.num);
    }
    if val == BsrrReset {
      g.bsrr := Bit(pin.num + 16);
    }
  }

  /** The MODER update replaces exactly pin p's field: it then decodes to the
      pin's mode and every other pin keeps its mode. */
  lemma SetModerReplacesField(moder: bv32, pin: LitePin)
    ensures ModeOfCode(Field2(Place2(moder, pin.num, ModeCode(pin.mode)), pin.num)) == Some(pin.mode)
    ensures forall q: Field2Index :: q != pin.num ==>
      Field2(Place2(moder, pin.num, ModeCode(pin.mode)), q) == Field2(moder, q)
  {
    ModeCodeRoundTrip(pin.mode, 0);
    Place2Frame(moder, pin.num, ModeCode(pin.mode));
    OtherFields2(moder, Place2(moder, pin.num, ModeCode(pin.mode)), pin.num);
  }

  /** After a write, ODR bit p is set exactly when val is 1, and every other
      ODR bit keeps its value. */
  lemma WriteSetsLevel(odr: bv32, pin: LitePin, val: Byte)
    ensures var r := if val == SetOutput then SetBit(odr, pin.num) else ClearBit(odr, pin.num);
      (IsSet(r, pin.num) <==> val == SetOutput) && SameOutside(odr, r, Bit(pin.num))
  {
    if val == SetOutput {
      SetBitFrame(odr, pin.num);
    } else {
      ClearBitFrame(odr, pin.num);
    }
  }

  /** Toggling changes only bit p, and toggling twice restores ODR. */
  lemma ToggleIsInvolution(odr: bv32, pin: LitePin)
    ensures SameOutside(odr, FlipBit(odr, pin.num), Bit(pin.num))
    ensures FlipBit(FlipBit(odr, pin.num), pin.num) == odr
  {
    FlipBitFrame(odr, pin.num);
    FlipBitInvolution(odr, pin.num);
  }
}
