/** The TIM2..TIM5 base driver: timer initialisation, the update-flag delay,
    and the GPIO set-up of an input-capture pin. */
module TimerDriver {
  import opened Bits
  import opened Opt
  import opened Mcu
  import opened GpioDefs
  import opened TimerDefs
  import Gpio

  /** The APB1ENR clock-enable bit of a timer; None for a timer the driver
      does not handle. */
  function TimerClockBit(id: TimerId): (b: Option<BitPos>)
    ensures b.None? <==> id == OtherTimer
  {
    match id
    case Tim2 => Some(Tim2En)
    case Tim3 => Some(Tim3En)
    case Tim4 => Some(Tim4En)
    case Tim5 => Some(Tim5En)
    case OtherTimer => None
  }

  /** Each timer has an enable bit of its own. */
  lemma TimerClockBitsDistinct(a: TimerId, b: TimerId)
    requires TimerClockBit(a).Some? && TimerClockBit(b).Some?
    ensures TimerClockBit(a) == TimerClockBit(b) ==> a == b
  {
  }

  /** CR1 after tim2_5_init: UP clears DIR and DOWN sets it, then CEN is set;
      any other counter-mode value returns before CR1 is written. */
  function Cr1AfterInit(cr1: bv32, counterMode: int): bv32
  {
    if counterMode == CounterModeCode(Up) then SetBit(ClearBit(cr1, TimDir), TimCen)
    else if counterMode == CounterModeCode(Down) then SetBit(SetBit(cr1, TimDir), TimCen)
    else cr1
  }

  lemma UpFlags(cr1: bv32)
    ensures !IsSet(Cr1AfterInit(cr1, 0), TimDir) && IsSet(Cr1AfterInit(cr1, 0), TimCen)
  {
  }

  lemma DownFlags(cr1: bv32)
    ensures IsSet(Cr1AfterInit(cr1, 1), TimDir) && IsSet(Cr1AfterInit(cr1, 1), TimCen)
  {
  }

  lemma UpFrame(cr1: bv32)
    ensures SameOutside(cr1, Cr1AfterInit(cr1, 0), Bit(TimDir) | Bit(TimCen))
  {
  }

  lemma DownFrame(cr1: bv32)
    ensures SameOutside(cr1, Cr1AfterInit(cr1, 1), Bit(TimDir) | Bit(TimCen))
  {
  }

  /** For UP and DOWN the counter is enabled, DIR is set exactly for DOWN, and
      no CR1 bit but DIR and CEN changes; for any other value CR1 is left as
      it was, so a disabled counter stays disabled. */
  lemma Cr1AfterInitMeaning(cr1: bv32, counterMode: int)
    ensures CounterModeOfCode(counterMode).Some? ==>
      && IsSet(Cr1AfterInit(cr1, counterMode), TimCen)
      && (IsSet(Cr1AfterInit(cr1, counterMode), TimDir) <==> CounterModeOfCode(counterMode) == Some(Down))
      && SameOutside(cr1, Cr1AfterInit(cr1, counterMode), Bit(TimDir) | Bit(TimCen))
    ensures CounterModeOfCode(counterMode).None? ==> Cr1AfterInit(cr1, counterMode) == cr1
  {
    if counterMode == 0 {
      UpFlags(cr1);
      UpFrame(cr1);
    } else if counterMode == 1 {
      DownFlags(cr1);
      DownFrame(cr1);
    }
  }

  /** PSC and ARR receive the configured value minus one, unchecked: for a
      value in 1..2^31 - 1 that is the value minus one, 0 wraps to
      0xFFFFFFFF, and a negative value wraps to 2^32 + value - 1. */
  lemma Wrap32Decrement(x: int)
    requires -0x8000_0000 < x < 0x8000_0000
    ensures x >= 1 ==> Wrap32(x - 1) == x - 1
    ensures x == 0 ==> Wrap32(x - 1) == 0xFFFF_FFFF
    ensures x < 0 ==> Wrap32(x - 1) == 0x1_0000_0000 + x - 1
  {
  }

  /** tim2_5_init. A timer other than TIM2..TIM5 returns before any write.
      Otherwise its clock bit is ORed into APB1ENR, PSC and ARR get the
      prescaler and period minus one, CNT is cleared, and CR1 is as
      Cr1AfterInit says. */
  method Init(rcc: Rcc, cfg: TimerConfig)
    modifies rcc`apb1enr, cfg.tmr`psc, cfg.tmr`arr, cfg.tmr`cnt, cfg.tmr`cr1
    ensures cfg.tmr.id == OtherTimer ==> unchanged(rcc) && unchanged(cfg.tmr)
    ensures cfg.tmr.id != OtherTimer ==>
      && rcc.apb1enr == SetBit(old(rcc.apb1enr), TimerClockBit(cfg.tmr.id).value)
      && cfg.tmr.psc == Wrap32(cfg.prescaler - 1)
      && cfg.tmr.arr == Wrap32(cfg.period - 1)
      && cfg.tmr.cnt == 0
      && cfg.tmr.cr1 == Cr1AfterInit(old(cfg.tmr.cr1), cfg.counterMode)
  {
    var clock := TimerClockBit(cfg.tmr.id);
    if clock.None? {
      return;
    }
    rcc.apb1enr := SetBit(rcc.apb1enr, clock.value);
    var t := cfg.tmr;
    t.psc := Wrap32(cfg.prescaler - 1);
    t.arr := Wrap32(cfg.period - 1);
    t.cnt := 0;
    if cfg.counterMode == CounterModeCode(Up) {
      t.cr1 := ClearBit(t.cr1, TimDir);
    } else if cfg.counterMode == CounterModeCode(Down) {
      t.cr1 := SetBit(t.cr1, TimDir);
    } else {
      return;
    }
    t.cr1 := SetBit(t.cr1, TimCen);
  }

  /** tim2_5_delay: wait for the update flag, then clear it. The wait is an
      update event when UIF is not already set; `seen` is the status the
      wait observed, which has UIF set. */
  method Delay(cfg: TimerConfig) returns (ghost seen: bv32)
    modifies cfg.tmr`sr
    ensures IsSet(seen, TimUif)
    ensures cfg.tmr.sr == ClearBit(seen, TimUif)
    ensures cfg.tmr.sr == ClearBit(old(cfg.tmr.sr), TimUif)
  {
    if !IsSet(cfg.tmr.sr, TimUif) {
      cfg.tmr.UpdateEvent();
      ClearAfterSet(old(cfg.tmr.sr), TimUif);
    }
    seen := cfg.tmr.sr;
    cfg.tmr.sr := ClearBit(cfg.tmr.sr, TimUif);
  }

  /** After the delay UIF is clear and every other status flag is as it was. */
  lemma DelayClearsOnlyUif(sr: bv32)
    ensures !IsSet(ClearBit(sr, TimUif), TimUif)
    ensures SameOutside(sr, ClearBit(sr, TimUif), Bit(TimUif))
  {
    ClearBitFrame(sr, TimUif);
  }

  /** The alternate function of a capture pin: AF1 for TIM2, AF2 for TIM3,
      TIM4 and TIM5, none for any other timer. */
  function CaptureAltFunc(id: TimerId): (af: Option<AltFunc>)
    ensures af.None? <==> id == OtherTimer
  {
    match id
    case Tim2 => Some(Af1)
    case Tim3 | Tim4 | Tim5 => Some(Af2)
    case OtherTimer => None
  }

  /** Every pin the timer header names gets an alternate function, and it is
      AF1 exactly for the TIM2 channels. */
  lemma CapturePinsHaveAltFunc(p: TimPin)
    ensures CaptureAltFunc(TimPinTimer(p)).Some?
    ensures CaptureAltFunc(TimPinTimer(p)) == Some(Af1) <==> TimPinTimer(p) == Tim2
  {
  }

  /** The pin record tim2_5_init_capture hands to gpio_init. Its pull and
      output-type fields are left uninitialised by the C code; here they are
      whatever the caller passes. */
  function CapturePin(cfg: CaptureConfig, af: AltFunc, pull: Pull, otype: OutputType): PinConfig
  {
    PinConfig(cfg.pinNum, Alternate, af, pull, otype)
  }

  /** tim2_5_init_capture: configure the pin as an alternate-function pin for
      the timer; for any other timer no GPIO call is made. */
  method InitCapture(rcc: Rcc, cfg: CaptureConfig, pull: Pull, otype: OutputType)
    modifies rcc`ahb1enr, cfg.port`moder, cfg.port`pupdr, cfg.port`otyper, cfg.port`afrl, cfg.port`afrh
    ensures cfg.tmr.id == OtherTimer ==> unchanged(rcc) && unchanged(cfg.port)
    ensures cfg.tmr.id != OtherTimer ==>
      Gpio.InitEffect(rcc, cfg.port, CapturePin(cfg, CaptureAltFunc(cfg.tmr.id).value, pull, otype))
  {
    var af := CaptureAltFunc(cfg.tmr.id);
    if af.None? {
      return;
    }
    Gpio.Init(rcc, cfg.port, CapturePin(cfg, af.value, pull, otype));
  }
}
