# STM32F401 register-level drivers, modelled in Dafny

This is a model of a set of bare-metal C drivers for the STM32F401RE microcontroller. The drivers cover:

- GPIO, in two variants: a full driver and a reduced one;
- the general-purpose timers TIM2..TIM5;
- ADC1;
- the I2C master;
- an I2C character LCD (slave address 0x3C);
- the USART;
- the HC-SR04 ultrasonic range-finder application, which ties them together.

Every driver function does the same kind of work. It reads and writes 32-bit memory-mapped registers, usually with the C idioms `r |= 1U << n`, `r &= ~(3U << 2n)` and `r |= v << 2n`, and it busy-waits on status flags.

## How the hardware is represented

**Peripherals.** Each peripheral is a class whose `bv32` fields are its registers (module `Mcu`). It also carries a constant `id` that stands for its base address; an `Other…`/`Unknown…` id is an address the drivers do not recognise. Each driver function is a method with a field-level `modifies` clause. Its `ensures` clause gives the new register values as functions of the old ones. The register arithmetic lives in `Bits`, and the properties the drivers promise are lemmas about those functions:

- the pin's field is set;
- every other pin is untouched;
- encodings round-trip;
- clocks are per-peripheral bits.

**Busy-waits.** A busy-wait `while(!(REG & FLAG));` becomes a call to a hardware-event method of the peripheral class, for example `Timer.UpdateEvent`, `Usart.TransmitterEmpty` or `Adc.EndOfConversion(sample)`. The call happens exactly where the C loop would spin, and only when the flag is not yet set. After it the flag is set, as it is when the C loop exits.

**Traffic.** Traffic that leaves the chip is recorded as a trace:

- I2C start, address, data and stop conditions are appended to `I2c.bus`;
- bytes written to a USART's DR are appended to `Usart.sent`.

The LCD and burst-write properties are statements about these traces.

**Numbers.** C `int` values stored into 32-bit registers go through `Bits.Wrap32`, which is reduction modulo 2^32. This affects `PRESCALER - 1`, `PERIOD - 1` and the range finder's unsigned arithmetic. The timer registers PSC, ARR and CNT are therefore `Word` values (0 ≤ x < 2^32).

**Where the code departs from the drivers' documented design, the model follows the code.**
- A prescaler of 0 is not the same as divide-by-1: `PSC = PRESCALER - 1` wraps to 0xFFFFFFFF, and negative values are not rejected (`TimerDriver.Wrap32Decrement`).
- The range finder polls in a loop. No interrupt-driven state machine exists in the code.

**ADC channels 16..18.** `adc_init` maps channels 10..18 to GPIOC pins `channel - 10`. Channels 10..15 therefore land on PC0..PC5, as the datasheet says. The internal channels 16..18 (temperature sensor, VREFINT) have no pin, yet the code configures PC6..PC8 as analog for them (`AdcDriver.InternalChannelsTakePortC`). The model keeps that behaviour.

## Model

| member | source | states |
|---|---|---|
| Bits.SetBit | STM32F401RE_HC_SR04_LIB/Src/gpio.c:157-165 | `r \|= 1U << i` leaves bit i set |
| Bits.ClearBit | STM32F401RE_HC_SR04_LIB/Src/gpio.c:157-165 | `r &= ~(1U << i)` leaves bit i clear |
| Bits.FlipBit | STM32F401RE_HC_SR04_LIB/Src/gpio.c:144-147 | `r ^= 1U << i` inverts bit i |
| Bits.Place2 | STM32F401RE_HC_SR04_LIB/Src/gpio.c:106-114 | clearing a 2-bit field and then ORing v in leaves exactly v in that field |
| Bits.OrNibble | STM32F401RE_HC_SR04_LIB/Src/gpio.c:210-226 | ORing v into nibble k gives that nibble's old value ORed with v |
| Bits.OrNibbleField | STM32F401RE_HC_SR04_LIB/Src/gpio.c:210-226 | the same nibble fact for each nibble position, stated on the raw shift |
| Bits.Wrap32 | STM32F401RE_TIMERS_LIB/Src/timer.c:73-74 | a C value stored in a 32-bit register is its residue mod 2^32, and values already in range are kept |
| Bits.SmallBv | STM32F401RE_HC_SR04_LIB/Src/i2c.c:82 | a small non-negative C value becomes a register value of the same number |
| Bits.ClearAfterSet | STM32F401RE_HC_SR04_LIB/Src/main.c:66-70 | clearing a bit undoes an earlier setting of it |
| Bits.BitValueRange | STM32F401RE_HC_SR04_LIB/Src/gpio.c:175-182 | `(r >> i) & 1` is 0 or 1 |
| Bits.BitValueIsSet | STM32F401RE_HC_SR04_LIB/Src/gpio.c:175-182 | `(r >> i) & 1` is 1 exactly when bit i is set |
| Bits.Place2Zero | STM32F401RE_HC_SR04_LIB/Src/gpio.c:123-136 | placing 0 into a field is clearing it, so skipping the OR for a zero code changes nothing |
| Bits.SetBitFrame | STM32F401RE_HC_SR04_LIB/Src/gpio.c:157-165 | setting bit i changes no other bit |
| Bits.ClearBitFrame | STM32F401RE_HC_SR04_LIB/Src/gpio.c:157-165 | clearing bit i changes no other bit |
| Bits.FlipBitFrame | STM32F401RE_HC_SR04_LIB/Src/gpio.c:144-147 | toggling bit i changes no other bit |
| Bits.FlipBitInvolution | STM32F401RE_HC_SR04_LIB/Src/gpio.c:144-147 | toggling twice restores the register |
| Bits.Place2Frame | STM32F401RE_HC_SR04_LIB/Src/gpio.c:106-114 | a field write changes no bit outside the field |
| Bits.OrNibbleFrame | STM32F401RE_HC_SR04_LIB/Src/gpio.c:210-226 | a nibble OR changes no bit outside the nibble |
| Bits.OrNibbleMonotone | STM32F401RE_HC_SR04_LIB/Src/gpio.c:210-226 | a nibble OR never clears a bit |
| Bits.Place2Unique | STM32F401RE_HC_SR04_LIB/Src/gpio.c:106-114 | any register with v in field k and agreeing elsewhere is the result of the field write |
| CStrings.Strlen | STM32F401RE_HC_SR04_LIB/Src/lcd.c:68 | the length is the index of the first NUL: that byte is 0 and none before it is |
| CStrings.StrlenIsFirstNul | STM32F401RE_UART_LIB/Src/uart.c:199-202 | a position holding a NUL with no NUL before it is the length |
| GpioDefs.ModeCode | STM32F401RE_TIMERS_LIB/Inc/gpio.h:115-121 | a pin mode encodes to a 2-bit MODER value |
| GpioDefs.ModeCodeRoundTrip | STM32F401RE_TIMERS_LIB/Inc/gpio.h:115-121 | mode encoding round-trips, and every 2-bit value decodes to a mode and back |
| GpioDefs.PullCode | STM32F401RE_TIMERS_LIB/Inc/gpio.h:72-77 | a pull setting encodes to 0..2 (3 is reserved) |
| GpioDefs.PullCodeRoundTrip | STM32F401RE_TIMERS_LIB/Inc/gpio.h:72-77 | pull encoding round-trips; exactly 0..2 decode |
| GpioDefs.OtypeCode | STM32F401RE_TIMERS_LIB/Inc/gpio.h:56-61 | the output-type values are 0..2, and only the two real types are OTYPER bit values |
| GpioDefs.PortClockBit | STM32F401RE_HC_SR04_LIB/Src/gpio.c:41-75 | every known port has an AHB1ENR bit; only an unknown address has none |
| GpioDefs.PortClockBitsDistinct | STM32F401RE_HC_SR04_LIB/Src/gpio.c:41-75 | two ports never share a clock bit |
| GpioDefs.BsrrWord | STM32F401RE_HC_SR04_LIB/Src/gpio.c:189-203 | a word is written exactly when the value is SET or RESET |
| GpioDefs.BsrrActsAsWrite | STM32F401RE_HC_SR04_LIB/Src/gpio.c:189-203 | the BSRR write drives ODR exactly as gpio_write_output with the same value |
| GpioDefs.BsrrSetBit | STM32F401RE_TIMERS_LIB/Inc/gpio.h:45-46 | BSRR bit p sets ODR bit p |
| GpioDefs.BsrrResetBit | STM32F401RE_TIMERS_LIB/Inc/gpio.h:45-46 | BSRR bit p + 16 clears ODR bit p |
| Gpio.OtyperAfterSetsBit | STM32F401RE_HC_SR04_LIB/Src/gpio.c:85-98 | for push-pull or open-drain, OTYPER bit p ends up set exactly for open-drain |
| Gpio.PushPullFrame | STM32F401RE_HC_SR04_LIB/Src/gpio.c:89-92 | the push-pull branch changes only bit p |
| Gpio.OpenDrainFrame | STM32F401RE_HC_SR04_LIB/Src/gpio.c:94-97 | the open-drain branch changes only bit p |
| Gpio.OtypeNoneFrame | STM32F401RE_HC_SR04_LIB/Src/gpio.c:85-98 | with no output type, no OTYPER bit but the pin's changes |
| Gpio.OtyperAfterFrame | STM32F401RE_HC_SR04_LIB/Src/gpio.c:85-98 | gpio_set_otyper changes no OTYPER bit but the pin's |
| Gpio.AfrlAfterNibble | STM32F401RE_HC_SR04_LIB/Src/gpio.c:216-219 | for pins 0..7 the AFRL nibble p becomes its old value ORed with the function |
| Gpio.AfrlAfterFrame | STM32F401RE_HC_SR04_LIB/Src/gpio.c:216-219 | for pins 0..7 no AFRL bit outside nibble p changes |
| Gpio.AfrlAfterKeeps | STM32F401RE_HC_SR04_LIB/Src/gpio.c:210-226 | AFRL bits are never cleared |
| Gpio.AfrhAfterNibble | STM32F401RE_HC_SR04_LIB/Src/gpio.c:221-225 | for pins 8..15 the AFRH nibble p - 8 becomes its old value ORed with the function |
| Gpio.AfrhAfterFrame | STM32F401RE_HC_SR04_LIB/Src/gpio.c:221-225 | for pins 8..15 no AFRH bit outside nibble p - 8 changes |
| Gpio.AfrhAfterKeeps | STM32F401RE_HC_SR04_LIB/Src/gpio.c:210-226 | AFRH bits are never cleared |
| Gpio.AltFuncLowPin | STM32F401RE_HC_SR04_LIB/Src/gpio.c:210-226 | pins 0..7 take their function in AFRL nibble p only, and AFRH is untouched |
| Gpio.AltFuncHighPin | STM32F401RE_HC_SR04_LIB/Src/gpio.c:210-226 | pins 8..15 take their function in AFRH nibble p - 8 only, and AFRL is untouched |
| Gpio.SetModer | STM32F401RE_HC_SR04_LIB/Src/gpio.c:106-114 | MODER gets the mode code in pin p's field |
| Gpio.SetPupdr | STM32F401RE_HC_SR04_LIB/Src/gpio.c:123-136 | PUPDR gets the pull code in pin p's field |
| Gpio.SetOtyper | STM32F401RE_HC_SR04_LIB/Src/gpio.c:85-98 | OTYPER is updated as OtyperAfter says |
| Gpio.ToggleOutput | STM32F401RE_HC_SR04_LIB/Src/gpio.c:144-147 | ODR bit p is inverted |
| Gpio.WriteOutput | STM32F401RE_HC_SR04_LIB/Src/gpio.c:157-165 | 1 sets ODR bit p and any other value clears it |
| Gpio.InputRead | STM32F401RE_HC_SR04_LIB/Src/gpio.c:175-182 | the result is 0 or 1, and 1 exactly when IDR bit p is set |
| Gpio.OutputBitSetReset | STM32F401RE_HC_SR04_LIB/Src/gpio.c:189-203 | BSRR gets bit p for SET, bit p + 16 for RESET, and otherwise is not written |
| Gpio.AltFunc | STM32F401RE_HC_SR04_LIB/Src/gpio.c:210-226 | AFRL/AFRH are updated for the pin's half |
| Gpio.InitEffect | STM32F401RE_HC_SR04_LIB/Src/gpio.c:41-75 | what gpio_init does, restated as the chained InitClock/InitRegs form |
| Gpio.Init | STM32F401RE_HC_SR04_LIB/Src/gpio.c:41-75 | a known port gets its clock bit and then the pin's mode, pull, type and, for ALTERNATE, its function; an unknown port is unchanged |
| Gpio.InitSetsMode | STM32F401RE_HC_SR04_LIB/Src/gpio.c:41-75 | after gpio_init the pin's MODER field decodes to the configured mode |
| Gpio.InitSetsPull | STM32F401RE_HC_SR04_LIB/Src/gpio.c:41-75 | after gpio_init the pin's PUPDR field decodes to the configured pull |
| Gpio.InitKeepsOtherModes | STM32F401RE_HC_SR04_LIB/Src/gpio.c:106-114 | every other pin's mode is kept |
| Gpio.InitKeepsOtherPulls | STM32F401RE_HC_SR04_LIB/Src/gpio.c:123-136 | every other pin's pull setting is kept |
| Gpio.InitKeepsOtherOtypes | STM32F401RE_HC_SR04_LIB/Src/gpio.c:85-98 | every other pin's output type is kept |
| Gpio.ToggleTwiceRestores | STM32F401RE_HC_SR04_LIB/Src/gpio.c:144-147 | two toggles restore ODR |
| GpioLite.SetModer | STM32F401RE_GPIO_LIB/Src/gpio.c:62-69 | MODER gets the mode code in pin p's field |
| GpioLite.Init | STM32F401RE_GPIO_LIB/Src/gpio.c:32-54 | a known port gets its clock bit and the pin's mode; an unknown port is unchanged |
| GpioLite.ToggleOutput | STM32F401RE_GPIO_LIB/Src/gpio.c:77-80 | ODR bit p is inverted |
| GpioLite.WriteOutput | STM32F401RE_GPIO_LIB/Src/gpio.c:90-98 | 1 sets ODR bit p, anything else clears it |
| GpioLite.InputRead | STM32F401RE_GPIO_LIB/Src/gpio.c:108-115 | the result is 0 or 1, and 1 exactly when IDR bit p is set |
| GpioLite.OutputBitSetReset | STM32F401RE_GPIO_LIB/Src/gpio.c:122-133 | BSRR gets bit p for SET, bit p + 16 for RESET, and nothing otherwise |
| GpioLite.SetModerReplacesField | STM32F401RE_GPIO_LIB/Src/gpio.c:62-69 | the pin's field decodes to the mode and all other fields are kept |
| GpioLite.WriteSetsLevel | STM32F401RE_GPIO_LIB/Src/gpio.c:90-98 | ODR bit p is set iff the value is 1, and no other bit changes |
| GpioLite.ToggleIsInvolution | STM32F401RE_GPIO_LIB/Src/gpio.c:77-80 | a toggle changes only bit p, and two toggles restore ODR |
| TimerDefs.PolarityCodes | STM32F401RE_HC_SR04_LIB/Inc/timer.h:25-30 | polarity encoding round-trips; the values are 0, 1 and 3, never 2 |
| TimerDefs.CcInterruptBitIsIndexPlusOne | STM32F401RE_HC_SR04_LIB/Inc/timer.h:135-143 | channel n's interrupt bit is its index + 1, in 1..4 |
| TimerDefs.InterruptBitsDistinct | STM32F401RE_HC_SR04_LIB/Inc/timer.h:135-143 | interrupt bits are distinct, in 0..6, and skip 5 |
| TimerDefs.OutputModeCodes | STM32F401RE_HC_SR04_LIB/Inc/timer.h:50-62 | output modes are 0..7 and round-trip; NONE is -1 |
| TimerDefs.TimPinValueIsNamedPin | STM32F401RE_HC_SR04_LIB/Inc/timer.h:70-105 | each pin constant, explicit or auto-incremented, equals the pin number in its name |
| TimerDefs.TimPinValuesRepeat | STM32F401RE_HC_SR04_LIB/Inc/timer.h:70-105 | two constants on different ports share a value, so the port must be given separately |
| TimerDefs.CounterModeCodes | STM32F401RE_HC_SR04_LIB/Inc/timer.h:113-117 | counter modes UP = 0 and DOWN = 1 round-trip; no other value decodes |
| TimerDefs.CcModeCodes | STM32F401RE_HC_SR04_LIB/Inc/timer.h:123-127 | INPUT and OUTPUT are distinct values 0 and 1 |
| TimerDriver.TimerClockBit | STM32F401RE_TIMERS_LIB/Src/timer.c:50-69 | TIM2..TIM5 each have an APB1ENR bit; any other timer has none |
| TimerDriver.TimerClockBitsDistinct | STM32F401RE_TIMERS_LIB/Src/timer.c:50-65 | two timers never share a clock bit |
| TimerDriver.UpFlags | STM32F401RE_TIMERS_LIB/Src/timer.c:80-83 | UP leaves DIR clear and CEN set |
| TimerDriver.DownFlags | STM32F401RE_TIMERS_LIB/Src/timer.c:84-87 | DOWN leaves DIR and CEN set |
| TimerDriver.UpFrame | STM32F401RE_TIMERS_LIB/Src/timer.c:80-94 | for UP no CR1 bit but DIR and CEN changes |
| TimerDriver.DownFrame | STM32F401RE_TIMERS_LIB/Src/timer.c:80-94 | for DOWN no CR1 bit but DIR and CEN changes |
| TimerDriver.Cr1AfterInitMeaning | STM32F401RE_TIMERS_LIB/Src/timer.c:80-94 | for a valid mode the counter is enabled with DIR set iff DOWN; an invalid mode returns with CR1 untouched |
| TimerDriver.Wrap32Decrement | STM32F401RE_TIMERS_LIB/Src/timer.c:73-74 | `value - 1` is stored as is for positive values; 0 wraps to 0xFFFFFFFF and negatives wrap too |
| TimerDriver.Init | STM32F401RE_TIMERS_LIB/Src/timer.c:46-95 | an unknown timer changes nothing; otherwise the clock bit, PSC and ARR minus one, CNT 0, and CR1 per mode |
| TimerDriver.Delay | STM32F401RE_TIMERS_LIB/Src/timer.c:114-118 | the wait ends with UIF set, and UIF is then cleared with no other SR bit changed |
| TimerDriver.DelayClearsOnlyUif | STM32F401RE_TIMERS_LIB/Src/timer.c:117 | after the delay UIF is clear and no other status bit changed |
| TimerDriver.CaptureAltFunc | STM32F401RE_TIMERS_LIB/Src/timer.c:24-35 | TIM2 takes AF1, TIM3..TIM5 take AF2, and any other timer has none |
| TimerDriver.CapturePinsHaveAltFunc | STM32F401RE_TIMERS_LIB/Src/timer.c:24-35 | every pin of the header gets a function, AF1 exactly for TIM2 |
| TimerDriver.InitCapture | STM32F401RE_TIMERS_LIB/Src/timer.c:18-38 | an unknown timer makes no GPIO call; otherwise the pin is set up as gpio_init would with the timer's function |
| AdcDriver.ChannelPinsOfDatasheet | STM32F401RE_ADC1_LIB/Src/adc.c:32-57 | channels 0..7 go to PA0..PA7, 8..9 to PB0..PB1, and 10..15 to PC0..PC5 |
| AdcDriver.InternalChannelsTakePortC | STM32F401RE_ADC1_LIB/Src/adc.c:50-57 | channels 16..18 configure PC6..PC8 |
| AdcDriver.ChannelPinsDistinct | STM32F401RE_ADC1_LIB/Src/adc.c:32-57 | no two channels configure the same pin |
| AdcDriver.SlotInRange | STM32F401RE_ADC1_LIB/Src/adc.c:88-98 | an SQR1 slot ends below the L field |
| AdcDriver.SlotMatchesManual | STM32F401RE_ADC1_LIB/Src/adc.c:88-98 | SQ1..6 go to SQR3, SQ7..12 to SQR2 and SQ13..16 to SQR1, 5 bits apart |
| AdcDriver.SlotsDistinct | STM32F401RE_ADC1_LIB/Src/adc.c:88-98 | different sequence numbers never share a field |
| AdcDriver.ClampLength | STM32F401RE_ADC1_LIB/Src/adc.c:102-110 | the length is clamped to 0..15 and kept when already in range |
| AdcDriver.OnlySlotRegChanges | STM32F401RE_ADC1_LIB/Src/adc.c:89-98 | only the slot's register is written |
| AdcDriver.SequenceConfig | STM32F401RE_ADC1_LIB/Src/adc.c:77-116 | the channel is ORed into its slot's register, and the clamped length into L of SQR1 |
| AdcDriver.SlotFieldHoldsChannel | STM32F401RE_ADC1_LIB/Src/adc.c:89-98 | on a clear slot the field then holds the channel |
| AdcDriver.SlotWriteKeepsBits | STM32F401RE_ADC1_LIB/Src/adc.c:89-98 | the slot write never clears a bit |
| AdcDriver.SlotWriteSparesLength | STM32F401RE_ADC1_LIB/Src/adc.c:97 | a slot write to SQR1 leaves the L field as it was |
| AdcDriver.LengthFieldHoldsLength | STM32F401RE_ADC1_LIB/Src/adc.c:113 | the L field becomes its old value ORed with the clamped length |
| AdcDriver.SequenceConfigMeaning | STM32F401RE_ADC1_LIB/Src/adc.c:77-116 | slot field, other registers, L field, and no bit ever cleared, together |
| AdcDriver.SqrOneKeepsBits | STM32F401RE_ADC1_LIB/Src/adc.c:97-113 | the two SQR1 writes never clear a bit |
| AdcDriver.SetupPin | STM32F401RE_ADC1_LIB/Src/adc.c:32-57 | the channel's port gets gpio_init with an analog pin, and the other ports are untouched |
| AdcDriver.Init | STM32F401RE_ADC1_LIB/Src/adc.c:29-67 | the pin, then the ADC1 clock bit, then sequence_config, then ADON |
| AdcDriver.StartSingle | STM32F401RE_ADC1_LIB/Src/adc.c:126-129 | SWSTART is set |
| AdcDriver.StartContinuous | STM32F401RE_ADC1_LIB/Src/adc.c:139-143 | CONT and then SWSTART are set |
| AdcDriver.StartBits | STM32F401RE_ADC1_LIB/Src/adc.c:126-143 | a single start changes only SWSTART; a continuous one holds CONT and changes only CONT and SWSTART |
| AdcDriver.ContinuousStartHoldsCont | STM32F401RE_ADC1_LIB/Src/adc.c:139-143 | CONT is set after a continuous start |
| AdcDriver.ContinuousStartFrame | STM32F401RE_ADC1_LIB/Src/adc.c:139-143 | a continuous start changes only CONT and SWSTART |
| AdcDriver.Read | STM32F401RE_ADC1_LIB/Src/adc.c:152-156 | the read waits for EOC and returns DR: the old DR if a conversion had ended, else the new sample |
| I2cDriver.PinNumbers | STM32F401RE_HC_SR04_LIB/Inc/i2c.h:28-61 | no SCL pin shares its number with an SDA pin, and only PB4 of I2C3 has value 4 |
| I2cDriver.SdaAltFuncMatchesDatasheet | STM32F401RE_HC_SR04_LIB/Src/i2c.c:220-227 | SDA takes AF4, except I2C3's PB4, which takes AF9, and only that pin does |
| I2cDriver.GpioInit | STM32F401RE_HC_SR04_LIB/Src/i2c.c:197-230 | gpio_init for SCL and then SDA (alternate, pull-up, open-drain), also when both share a port |
| I2cDriver.I2cClockBit | STM32F401RE_HC_SR04_LIB/Src/i2c.c:47-60 | each known interface has an APB1ENR bit |
| I2cDriver.I2cClockBitsDistinct | STM32F401RE_HC_SR04_LIB/Src/i2c.c:47-60 | two interfaces never share a clock bit |
| I2cDriver.ClampFreq | STM32F401RE_HC_SR04_LIB/Src/i2c.c:72-80 | the frequency is clamped to 2..50 MHz and kept when in range |
| I2cDriver.ClampFreqIdempotentMonotone | STM32F401RE_HC_SR04_LIB/Src/i2c.c:72-80 | clamping is idempotent and order-preserving |
| I2cDriver.FreqBitsLandInField | STM32F401RE_HC_SR04_LIB/Src/i2c.c:82 | on a clear FREQ field, the field then holds the clamped frequency and nothing else changes |
| I2cDriver.FreqBitsValue | STM32F401RE_HC_SR04_LIB/Src/i2c.c:82 | the ORed value is the clamped frequency and fits in 6 bits |
| I2cDriver.FreqFieldOfOr | STM32F401RE_HC_SR04_LIB/Src/i2c.c:82 | ORing a 6-bit value into a clear FREQ field stores it |
| I2cDriver.FreqFieldFrame | STM32F401RE_HC_SR04_LIB/Src/i2c.c:82 | ORing a 6-bit value changes nothing outside FREQ |
| I2cDriver.Cr1AfterInitMeaning | STM32F401RE_HC_SR04_LIB/Src/i2c.c:64-101 | after init PE is set, SWRST is clear, and no other CR1 bit changed |
| I2cDriver.ResetThenEnableKeepsSwrstClear | STM32F401RE_HC_SR04_LIB/Src/i2c.c:64-101 | setting PE after the reset keeps SWRST clear |
| I2cDriver.ResetThenEnableFrame | STM32F401RE_HC_SR04_LIB/Src/i2c.c:64-101 | reset and enable change only SWRST and PE |
| I2cDriver.ClockAfterInitMeaning | STM32F401RE_HC_SR04_LIB/Src/i2c.c:47-60 | the interface's own bit is set and no other; an unknown one changes nothing |
| I2cDriver.EnableClock | STM32F401RE_HC_SR04_LIB/Src/i2c.c:47-60 | APB1ENR is as ClockAfterInit says |
| I2cDriver.Setup | STM32F401RE_HC_SR04_LIB/Src/i2c.c:64-101 | CR1 reset and enabled, FREQ ORed into CR2, CCR ORed with 80, TRISE = 17 |
| I2cDriver.Init | STM32F401RE_HC_SR04_LIB/Src/i2c.c:41-102 | the pins, the clock, then the interface registers, with all of their effects |
| I2cDriver.Start | STM32F401RE_HC_SR04_LIB/Src/i2c.c:109-117 | START is set, SB is seen, and a start condition goes on the bus |
| I2cDriver.AddressWord | STM32F401RE_HC_SR04_LIB/Src/i2c.c:148 | the address is shifted left one bit: bit 0 (write) is clear, and shifting back gives the address |
| I2cDriver.SendAddress | STM32F401RE_HC_SR04_LIB/Src/i2c.c:145-155 | DR gets the address word, ADDR is seen, and the address goes on the bus |
| I2cDriver.Write | STM32F401RE_HC_SR04_LIB/Src/i2c.c:124-138 | TXE is awaited, DR gets the byte, BTF is seen, and the byte goes on the bus |
| I2cDriver.Stop | STM32F401RE_HC_SR04_LIB/Src/i2c.c:160-165 | STOP is set and a stop condition goes on the bus |
| I2cDriver.DataEventsMeaning | STM32F401RE_HC_SR04_LIB/Src/i2c.c:179-186 | one data event per byte, the k-th carrying byte k |
| I2cDriver.DataEventsAppend | STM32F401RE_HC_SR04_LIB/Src/i2c.c:179-186 | the events of a concatenation are the concatenated events |
| I2cDriver.BurstWrite | STM32F401RE_HC_SR04_LIB/Src/i2c.c:170-189 | the first `size` bytes go on the bus in order, DR ends with the last one, and BTF is seen |
| I2cDriver.BurstWriteTraffic | STM32F401RE_HC_SR04_LIB/Src/i2c.c:170-189 | exactly `size` data events, event k carrying byte k; none for size 0 |
| Lcd.InitTrafficIsFixed | STM32F401RE_HC_SR04_LIB/Src/lcd.c:30-55 | lcd_init sends start, 0x78, 0x38, 0x0F, 0x06, 0x01, stop |
| Lcd.Init | STM32F401RE_HC_SR04_LIB/Src/lcd.c:30-55 | the bus receives exactly that traffic |
| Lcd.CharTransactionShape | STM32F401RE_HC_SR04_LIB/Src/lcd.c:72-93 | one character is start, address, 0x40, the character, stop |
| Lcd.WriteTrafficLength | STM32F401RE_HC_SR04_LIB/Src/lcd.c:65-94 | n characters take 5n bus events |
| Lcd.WriteTrafficHasCharAt | STM32F401RE_HC_SR04_LIB/Src/lcd.c:65-94 | transaction k of the traffic carries character k |
| Lcd.EmptyStringIsSilent | STM32F401RE_HC_SR04_LIB/Src/lcd.c:68-72 | an empty string makes no traffic |
| Lcd.Write | STM32F401RE_HC_SR04_LIB/Src/lcd.c:65-94 | the bus receives one transaction per character before the NUL, in order |
| UartDriver.TxPinNum | STM32F401RE_HC_SR04_LIB/Inc/uart.h:57-66 | each TX constant is its pin number; only NONE names no pin |
| UartDriver.RxPinNum | STM32F401RE_HC_SR04_LIB/Inc/uart.h:40-49 | each RX constant is its pin number; only NONE names no pin |
| UartDriver.TxRxPinsDiffer | STM32F401RE_HC_SR04_LIB/Inc/uart.h:40-66 | a USART's matching TX and RX pins are different pins |
| UartDriver.PinConfigMeaning | STM32F401RE_UART_LIB/Src/uart.c:41-77 | a pin is set up iff it is not NONE, as an alternate pin with AF8 for USART6 and AF7 otherwise |
| UartDriver.NoPinsNoChange | STM32F401RE_UART_LIB/Src/uart.c:41-77 | with neither pin the GPIO step changes nothing |
| UartDriver.GpioInit | STM32F401RE_UART_LIB/Src/uart.c:41-77 | gpio_init for TX and then RX, each only when not NONE |
| UartDriver.UsartClock | STM32F401RE_UART_LIB/Src/uart.c:94-113 | every known USART has a clock bit; an unknown one has none |
| UartDriver.UsartClockBitsDistinct | STM32F401RE_HC_SR04_LIB/Inc/uart.h:21-23 | USART2 (APB1 bit 17), USART1 (APB2 bit 4) and USART6 (APB2 bit 5) are distinct |
| UartDriver.EnrAfterClockMeaning | STM32F401RE_UART_LIB/Src/uart.c:100-111 | only the USART's own bit on its own bus is set; an unknown USART changes nothing |
| UartDriver.EnableClock | STM32F401RE_UART_LIB/Src/uart.c:94-113 | APB1ENR and APB2ENR are as EnrAfterClock says |
| UartDriver.Baudrate | STM32F401RE_UART_LIB/Src/uart.c:158-159 | the divider word is ORed into BRR |
| UartDriver.Cr1AfterEnableMeaning | STM32F401RE_UART_LIB/Src/uart.c:167-180 | UE is set; RE is set iff there is a receiver or it was set; TE likewise; no other bit changes |
| UartDriver.EnableIsOr | STM32F401RE_UART_LIB/Src/uart.c:167-180 | the three conditional sets are one OR of a mask within 0x200C |
| UartDriver.SetsAreOr | STM32F401RE_UART_LIB/Src/uart.c:167-180 | each SetBit chain equals an OR with its constant |
| UartDriver.OrSetsUe | STM32F401RE_UART_LIB/Src/uart.c:179 | ORing a mask with UE sets UE |
| UartDriver.OrEnableBits | STM32F401RE_UART_LIB/Src/uart.c:169-177 | after the OR, RE/TE are set iff in the mask or already set |
| UartDriver.OrFrame | STM32F401RE_UART_LIB/Src/uart.c:167-180 | an OR within RE/TE/UE changes nothing else |
| UartDriver.Cr1Enable | STM32F401RE_UART_LIB/Src/uart.c:167-180 | CR1 is as Cr1AfterEnable says |
| UartDriver.Init | STM32F401RE_UART_LIB/Src/uart.c:29-87 | the pins, the clock, the BRR, then CR1, with all of their effects |
| UartDriver.LowByte | STM32F401RE_UART_LIB/Src/uart.c:190 | `ch & 0xFF` is ch mod 256 |
| UartDriver.LowByteOfByte | STM32F401RE_UART_LIB/Src/uart.c:190 | masking a byte gives it back, and masking is idempotent |
| UartDriver.Write | STM32F401RE_UART_LIB/Src/uart.c:187-191 | TXE is awaited, DR gets the low byte, and that byte is sent |
| UartDriver.WriteString | STM32F401RE_UART_LIB/Src/uart.c:197-203 | the bytes before the NUL are sent, in order |
| UartDriver.WriteStringSendsText | STM32F401RE_UART_LIB/Src/uart.c:197-203 | what is sent has Strlen bytes, each the string's byte and none a NUL |
| UartDriver.Read | STM32F401RE_UART_LIB/Src/uart.c:210-214 | RXNE is awaited; the result is DR's low byte: the old DR if a byte was waiting, else the arriving byte |
| RangeFinder.RangeTimerRegisters | STM32F401RE_HC_SR04_LIB/Src/main.c:40-43 | PSC gets 159 and ARR 0xFFFE, and the counter runs up |
| RangeFinder.SetupPins | STM32F401RE_HC_SR04_LIB/Src/main.c:50-58 | gpio_init for PA0 and then PA1 |
| RangeFinder.PinModesAfterSetup | STM32F401RE_HC_SR04_LIB/Src/main.c:50-58 | PA0 is an output and PA1 an input afterwards |
| RangeFinder.Elapsed | STM32F401RE_HC_SR04_LIB/Src/main.c:85 | unsigned 32-bit `end - start`: the plain difference, or plus 2^32 on wrap-around |
| RangeFinder.DistanceCm | STM32F401RE_HC_SR04_LIB/Src/main.c:85 | at most 0xFFFFFFFF / 58, and ticks × 10 / 58 while the product does not overflow |
| RangeFinder.DistanceExample | STM32F401RE_HC_SR04_LIB/Src/main.c:81-85 | 300 ticks (3 ms) give 51 cm |
| RangeFinder.DistanceWithinOnePeriod | STM32F401RE_HC_SR04_LIB/Src/main.c:85 | within one timer period the plain formula holds, the bound is 0xFFFE × 10 / 58, and a longer echo never gives less |
| RangeFinder.Trigger | STM32F401RE_HC_SR04_LIB/Src/main.c:66-70 | BSRR gets bit 0 and then bit 16, with CNT reaching 1 between |
| RangeFinder.TriggerIsPulse | STM32F401RE_HC_SR04_LIB/Src/main.c:66-70 | the two writes drive PA0 high and then low, and leave every other pin as it was |
| RangeFinder.Echo | STM32F401RE_HC_SR04_LIB/Src/main.c:74-85 | the waits see PA1 at 1 and then 0, and the result is DistanceCm of the two readings |
| RangeFinder.Iteration | STM32F401RE_HC_SR04_LIB/Src/main.c:63-98 | one measurement: the pulse, the distance, the text before its NUL sent, and the counter reset |

## Left out

- The bus traffic is a trace of events, not a timing model. Bus arbitration, NACKs from the slave and the hardware clearing of flags are not modelled. The SB, ADDR, TXE and BTF flags are cleared by register-access sequences, including the SR1/SR2 read in i2c_send_address.
- Busy-waits for hardware flags end with one hardware event. A wait that never ends, and a flag dropping again during the wait, are not modelled.
- uart_baudrate computes the BRR divider in floating point. The model takes the resulting divider word as an input, and it starts at the ORs into BRR.
- systickDelayMS, the 1 ms delays of lcd_write and lcd_init, and the 60 ms delay of the range finder are timing only; they are left out. The systick driver is not part of this model.
- `tim2_5_init_enable`, `tim2_5_count_read` and `tim2_5_generate_event` have no body in the available source. The two counter readings are inputs of `RangeFinder.Echo`. The update event is modelled as the counter reset its comment describes. The initial `tim2_5_init_enable(TMR2)` call is not modelled; `RangeFinder.RangeTimerRegisters` states what `tim2_5_init` would program for that configuration.
- sprintf, which formats the distance: the text it produces is an input of `RangeFinder.Iteration`.
- The range finder's main loop repeats forever. One iteration is modelled, and so is the set-up of the two pins. The set-up also calls `uart_init(UART2, 115200)`, which `UartDriver.Init` models on its own; it is not chained with `RangeFinder.SetupPins`.
- Uninitialised local fields are not modelled as C indeterminate values. These are the pull and output type of the pin records in uart_init and tim2_5_init_capture. They are parameters instead, and a value outside its enumeration is not modelled.
- Register widths below 32 bits, for example the 16-bit PSC of TIM3/TIM4 and the 9-bit data of DR, are not modelled. Every register is 32 bits wide, and the hardware's truncation of wider writes is not represented.
- The TIMERS_LIB copy of the GPIO driver source is not part of this model. tim2_5_init_capture is modelled calling the full GPIO driver, whose header it includes.
- The I2C_LIB, SYSTICK_LIB and WS2812B example programs are outside the model.
- UartDriver.Read: `char` is taken as unsigned; the byte is returned as 0..255.
- Interrupt enables, output compare and PWM modes of the timers are only encodings (TimerDefs). No driver function in the available source programs them.
