/** The HC-SR04 ultrasonic range finder application: one measurement of its
    main loop. PA0 drives the sensor's trigger input and PA1 reads its echo
    output; TIM2 counts 10 us ticks, and the length of the echo pulse in
    ticks gives the distance, which goes out over USART2 as text.

    The loop calls three timer functions that have no body in the driver
    (tim2_5_init_enable, tim2_5_count_read, tim2_5_generate_event): the two
    counter readings are inputs of a measurement, and the closing update
    event is the counter reset its comment describes. */
module RangeFinder {
  import opened Bits
  import opened Opt
  import opened Mcu
  import opened GpioDefs
  import opened TimerDefs
  import opened CStrings
  import Gpio
  import TimerDriver
  import UartDriver

  /** The timer set-up: TIM2, counting up, prescaler 160 (16 MHz / 160 =
      100 kHz, a 10 us tick) and the largest 16-bit period. */
  const Prescaler: int := 160
  const Period: int := 0xFFFF

  function RangeTimer(tmr: Timer): TimerConfig
  {
    TimerConfig(tmr, CounterModeCode(Up), Prescaler, Period)
  }

  /** What tim2_5_init programs for this configuration: PSC 159, ARR
      0xFFFE, and an enabled up-counter. */
  lemma RangeTimerRegisters(tmr: Timer, cr1: bv32)
    ensures Wrap32(RangeTimer(tmr).prescaler - 1) == 159
    ensures Wrap32(RangeTimer(tmr).period - 1) == 0xFFFE
    ensures IsSet(TimerDriver.Cr1AfterInit(cr1, RangeTimer(tmr).counterMode), TimCen)
    ensures !IsSet(TimerDriver.Cr1AfterInit(cr1, RangeTimer(tmr).counterMode), TimDir)
  {
    TimerDriver.UpFlags(cr1);
  }

  /** The serial link: USART2 with TX on PA2 and RX on PA3. */
  function RangeUart(usart: Usart, port: GpioPort): UartDriver.UartConfig
  {
    UartDriver.UartConfig(UartDriver.Usart2TxPa2, UartDriver.Usart2RxPa3, usart, port)
  }

  /** The trigger pin PA0 (output) and the echo pin PA1 (input), both without
      pull resistor and push-pull. */
  const TriggerPin: PinConfig := PinConfig(0, Output, 0, NoPull, PushPull)
  const EchoPin: PinConfig := PinConfig(1, Input, 0, NoPull, PushPull)

  /** The two gpio_init calls of the set-up: PA0 then PA1, on GPIOA. */
  method SetupPins(rcc: Rcc, port: GpioPort)
    modifies rcc`ahb1enr, port`moder, port`pupdr, port`otyper, port`afrl, port`afrh
    ensures rcc.ahb1enr == Gpio.InitClock(port.id, Gpio.InitClock(port.id, old(rcc.ahb1enr)))
    ensures Gpio.Regs(port) == Gpio.InitRegs(port.id, Gpio.InitRegs(port.id, old(Gpio.Regs(port)), TriggerPin), EchoPin)
  {
    Gpio.Init(rcc, port, TriggerPin);
    Gpio.Init(rcc, port, EchoPin);
  }

  /** After the set-up PA0 is an output and PA1 an input, whatever the
      MODER value was before. */
  lemma PinModesAfterSetup(r: Gpio.PinRegs)
    ensures var r' := Gpio.Configure(Gpio.Configure(r, TriggerPin), EchoPin);
            && ModeOfCode(Field2(r'.moder, 0)) == Some(Output)
            && ModeOfCode(Field2(r'.moder, 1)) == Some(Input)
  {
    var m1 := Gpio.Configure(r, TriggerPin).moder;
    Gpio.InitSetsMode(r.moder, TriggerPin);
    Gpio.InitSetsMode(m1, EchoPin);
    Gpio.InitKeepsOtherModes(m1, EchoPin, 0);
  }

  /** The ticks between two counter readings: the unsigned 32-bit
      difference `end - start`, which wraps when end < start. */
  function Elapsed(start: Word, end: Word): (e: Word)
    ensures (start + e - end) % 0x1_0000_0000 == 0
    ensures start <= end ==> e == end - start
    ensures end < start ==> e == end - start + 0x1_0000_0000
  {
    Wrap32(end - start)
  }

  /** The distance in cm: elapsed ticks times 10 (microseconds), computed in
      32-bit unsigned arithmetic, divided by 58 with truncation. This is the
      HC-SR04 rule cm = us / 58. */
  function DistanceCm(start: Word, end: Word): (d: Word)
    ensures d <= 0xFFFF_FFFF / 58
    ensures Elapsed(start, end) < 0x1999_999A ==> d == Elapsed(start, end) * 10 / 58
  {
    Wrap32(Elapsed(start, end) * 10) / 58
  }

  /** A 300-tick echo (3 ms) is 51 cm. */
  lemma DistanceExample()
    ensures DistanceCm(1000, 1300) == 51
  {
  }

  /** Without counter overflow between the readings, the distance is the
      plain formula and never exceeds what a full 0xFFFE-tick period gives;
      a longer echo never gives a shorter distance. */
  lemma DistanceWithinOnePeriod(start: Word, end: Word, end': Word)
    requires start <= end <= end' <= 0xFFFE
    ensures DistanceCm(start, end) == (end - start) * 10 / 58
    ensures DistanceCm(start, end) <= 0xFFFE * 10 / 58
    ensures DistanceCm(start, end) <= DistanceCm(start, end')
  {
  }

  /** The trigger pulse: PA0 high through BSRR, wait until the counter reads
      1 (one tick, 10 us), PA0 low through BSRR. The words written to BSRR
      are returned in order. */
  method Trigger(port: GpioPort, tmr: Timer) returns (high: bv32, low: bv32)
    modifies port`bsrr, tmr`cnt
    ensures high == Bit(0) && low == Bit(16)
    ensures port.bsrr == low
    ensures tmr.cnt == 1
  {
    Gpio.OutputBitSetReset(port, TriggerPin, BsrrSet);
    high := port.bsrr;
    if tmr.cnt != 1 {
      tmr.CountTo(1);
    }
    Gpio.OutputBitSetReset(port, TriggerPin, BsrrReset);
    low := port.bsrr;
  }

  /** The two BSRR words drive PA0 high and then low again, leaving every
      other output bit as it was. */
  lemma TriggerIsPulse(odr: bv32)
    ensures IsSet(ApplyBsrr(odr, Bit(0)), 0)
    ensures ApplyBsrr(ApplyBsrr(odr, Bit(0)), Bit(16)) == ClearBit(odr, 0)
  {
    BsrrSetBit(odr, 0);
    BsrrResetBit(SetBit(odr, 0), 0);
    ClearAfterSet(odr, 0);
  }

  /** The echo measurement: wait for PA1 to read 1 and take the start
      reading, wait for PA1 to read 0 and compute the distance from the end
      reading. A wait whose level is not there yet ends when the sensor
      drives PA1 to it. `seenHigh` and `seenLow` are the levels read when
      the two waits end. */
  method Echo(port: GpioPort, start: Word, end: Word) returns (seenHigh: Byte, seenLow: Byte, timestamp: Word)
    modifies port`idr
    ensures seenHigh == 1 && seenLow == 0
    ensures !IsSet(port.idr, 1)
    ensures timestamp == DistanceCm(start, end)
  {
    seenHigh := Gpio.InputRead(port, EchoPin);
    if seenHigh == 0 {
      port.DriveInput(1, true);
      seenHigh := Gpio.InputRead(port, EchoPin);
    }
    timestamp := start;
    seenLow := Gpio.InputRead(port, EchoPin);
    if seenLow != 0 {
      port.DriveInput(1, false);
      seenLow := Gpio.InputRead(port, EchoPin);
    }
    timestamp := Wrap32(Wrap32(end - timestamp) * 10) / 58;
  }

  /** One iteration of the main loop: trigger, echo, the distance sent as
      the text `text` (the output of sprintf, which is not part of this
      model), then the update event that resets the counter. */
  method Iteration(port: GpioPort, tmr: Timer, usart: Usart, start: Word, end: Word, text: seq<Byte>)
    returns (distance: Word)
    requires 0 in text
    modifies port`bsrr, port`idr, tmr`cnt, usart`sr, usart`dr, usart`sent
    ensures distance == DistanceCm(start, end)
    ensures port.bsrr == Bit(16) && !IsSet(port.idr, 1)
    ensures usart.sent == old(usart.sent) + text[..Strlen(text)]
    ensures tmr.cnt == 0
  {
    var high, low := Trigger(port, tmr);
    var seenHigh, seenLow;
    seenHigh, seenLow, distance := Echo(port, start, end);
    UartDriver.WriteString(usart, text);
    tmr.CountTo(0);
  }
}
