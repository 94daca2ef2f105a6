# Blinky HAL drivers: handle pools, parameter checks and timer arithmetic

This project models, in Dafny, the logic of the blinky hardware abstraction
layer that does more than forward calls to a vendor SDK:

- **KL25 GPIO driver** (`Kl25Gpio`, `kl25_gpio.dfy`). The class `GpioDriver` holds the
  static pool of four pin slots (`myGpio_Struct`), the allocation cursor
  (`myGpio_NextPin`), and a ghost log of every vendor SDK call. `Init` first checks the two
  pointers and then the port, pin, direction and pull ranges. Only after that does it claim
  `cursor++`. When the pool is full it rolls the cursor back. On success it fills the slot,
  configures the pin, and writes the slot's address as the handle. `Get` and `Set` turn a
  handle into one input read or one output write. A NULL handle is the fail-safe case.
- **STM32F10x Timer driver** (`Stm32Timer`, `stm32_timer.dfy`). The class `TimerDriver`
  holds the two HAL handles (`myTimer_handle`, objects of class `TimHandle`, compared by
  address), the two slots (`myTimer_Struct`), the cursor (`myTimer_NextTIM`), the shared
  maximum period (`myTimer_MaxMs`) and a ghost log of HAL calls. `Init` accepts only the
  periodic mode. It claims TIM3 and then TIM4, and computes `MaxMs` in 64 bits before
  truncating it to 32. `Start` stores the callback and writes the reload value. That value
  is computed in 32-bit unsigned arithmetic (`Counter`, `ReloadValue`). `PeriodElapsed` is
  the linear scan that maps an interrupting handle to its slot's callback.
- **wdayToStr** (`WeekdayNames`, `weekday_names.dfy`): the switch from a day number to its
  name, modelled as written, with its missing `break`.

Handles are slot indices: `Some(i)` stands for the address of slot `i` and `None` for NULL.
A NULL out-pointer is a `bool` parameter, and a NULL parameter block is `None`. What a
method returns in its handle result is what the C code writes through the out-pointer.
`None` there means nothing is written. C enumerations are raw `uint32` codes, because the
checks compare raw values and callers may pass values outside the enumeration. Values that
come from outside the driver are parameters: the input register read, the PCLK1 frequency,
and the HAL status codes. The user callback a dispatch calls is its `invoked` result.

Three details of the code shape the model. `Start` does not reject a period at or above
`MaxMs`: that condition is only an assertion (`hal/drivers/stm32f10x/myTimer.c:157`). The
tick count is `0x10000 * period / MaxMs`, computed in 32-bit unsigned arithmetic. On an
exhausted pool `Init` increments the cursor and then decrements it again
(`hal/drivers/kl25/myGpio.c:94-97`), so the cursor ends where it started.

## Model

| member | source | states |
|---|---|---|
| `Kl25Gpio.GpioDriver.constructor` | hal/drivers/kl25/myGpio.c:62-69 | the pool starts with cursor 0, an empty call log and every slot zeroed (NULL base, pin 0) |
| `Kl25Gpio.GpioDriver.Init` | hal/drivers/kl25/myGpio.c:82-155 | OK exactly when both pointers are non-NULL, port < 5, pin <= 31, direction <= Outp, pull <= Dw (checked for outputs too) and the cursor is below 4; on OK it claims the slot at the old cursor, stores that port's GPIO base and the pin there, leaves the other slots alone, increments the cursor, writes that slot as the handle and logs clock enable, pin init and port config in that order; on Fail nothing is written and the cursor, slots and call log are unchanged; the cursor never exceeds 4 |
| `Kl25Gpio.ParsAreValid` | hal/drivers/kl25/myGpio.c:222-237 | the parameters are valid exactly when the port indexes the five-entry GPIO table, the pin is at most 31, and direction and pull are codes of their enumerations (Inpt/Outp; No/Up/Dw) |
| `Kl25Gpio.GpioConfigFor` | hal/drivers/kl25/myGpio.c:110-118 | the GPIO pin is configured as input exactly for the Inpt code (any other code gives output), with output logic 0 |
| `Kl25Gpio.PortConfigFor` | hal/drivers/kl25/myGpio.c:123-144 | pull-down exactly for an input pin asking Dw, pull-up exactly for an input pin asking Up, no pull for every output pin; slow slew, no passive filter, low drive, GPIO mux always |
| `Kl25Gpio.LevelOf` | hal/drivers/kl25/myGpio.c:172-173 | Get reports Hi exactly when the input read is nonzero and Lo exactly when it is zero |
| `Kl25Gpio.OutputFor` | hal/drivers/kl25/myGpio.c:196-197 | Set writes 0 exactly for the Lo code and 1 for every other code |
| `Kl25Gpio.SetThenGetReadsBack` | hal/drivers/kl25/myGpio.c:162-204 | on a pin whose input reads back its output, Get after Set(lvl) reports Lo for Lo and Hi for any other level |
| `Kl25Gpio.GpioDriver.Get` | hal/drivers/kl25/myGpio.c:162-177 | a NULL handle reports Lo and makes no read; otherwise one read of the slot's base and pin is logged and the result is `LevelOf` that read (Hi exactly when it is nonzero) |
| `Kl25Gpio.GpioDriver.Set` | hal/drivers/kl25/myGpio.c:185-204 | a NULL handle fails and writes nothing; otherwise exactly one write to the slot's base and pin carrying 0 for Lo and 1 otherwise is logged and the result is OK |
| `Kl25Gpio.GpioDriver.Reset` | hal/drivers/kl25/myGpio.c:213-216 | the cursor returns to 0; slots and call log are untouched |
| `Kl25Gpio.FillPool` | hal/drivers/kl25/myGpio.c:92-150 | four valid Inits get OK with handles 0, 1, 2, 3 and log twelve vendor calls; the fifth valid Init fails, writes no handle and leaves the call log as it was |
| `Kl25Gpio.Loopback` | hal/drivers/kl25/myGpio.c:162-204 | Init an output pin, Set it, feed the written bit back as the input: Get returns the level set (Hi for any non-Lo code) |
| `Stm32Timer.TimerDriver.constructor` | hal/drivers/stm32f10x/myTimer.c:62-70 | two distinct zeroed HAL handles, slots with NULL handle and NULL callback, cursor 0, MaxMs 0 |
| `Stm32Timer.TimerDriver.Init` | hal/drivers/stm32f10x/myTimer.c:83-143 | OK exactly when both pointers are non-NULL, the mode is Periodic and the cursor is below 2; on OK slot i = old cursor points at handle i with a NULL callback, handle i gets instance TIM3/TIM4, prescaler 1024 and the fixed up-counting fields (period untouched), MaxMs becomes MaxMs(freq), the cursor increments, the other slot and handle are untouched, and the frequency query, clock enable, IRQ priority 15/0 and IRQ enable are logged; on Fail nothing changes and nothing is written |
| `Stm32Timer.TimerDriver.Start` | hal/drivers/stm32f10x/myTimer.c:153-188 | a NULL handle, a zero period or a NULL callback fails with no change; otherwise the slot's callback is stored and the handle's period becomes ReloadValue(period, MaxMs) before any HAL call (so both stay updated if the HAL fails), stop, init and (only after a successful init) start are logged, and the result is OK exactly when both HAL statuses are OK |
| `Stm32Timer.TimerDriver.PeriodElapsed` | hal/drivers/stm32f10x/myTimer.c:206-225 | the handle is found exactly when it is one of the driver's two handles; then the only callback invoked is that slot's (none when it is NULL); an unknown handle invokes nothing |
| `Stm32Timer.TimerDriver.Reset` | hal/drivers/stm32f10x/myTimer.c:197-200 | the cursor returns to TIM3; stored callbacks, MaxMs and the call log are kept |
| `Stm32Timer.TimHandle.constructor` | hal/drivers/stm32f10x/myTimer.c:66 | a static HAL handle starts zeroed: no instance and every init field 0 |
| `Stm32Timer.InstanceOf` | hal/drivers/stm32f10x/myTimer.c:62 | pool index 0 is TIM3 and every other index TIM4; no index maps to a missing instance |
| `Stm32Timer.IrqOf` | hal/drivers/stm32f10x/myTimer.c:63 | the interrupt line of each pool index belongs to that index's timer: TIM3's line for TIM3, TIM4's for TIM4 |
| `Stm32Timer.MaxMs` | hal/drivers/stm32f10x/myTimer.c:113 | the stored maximum equals the 64-bit quotient 67108864000 / freq exactly when that quotient fits 32 bits |
| `Stm32Timer.Counter` | hal/drivers/stm32f10x/myTimer.c:169 | for a period below 0x10000 the product does not wrap and the counter is the exact tick count 0x10000 * period / MaxMs |
| `Stm32Timer.ReloadValue` | hal/drivers/stm32f10x/myTimer.c:170 | the reload is the counter minus one when the counter is at least 1, and wraps to 0xFFFFFFFF when it is 0 |
| `Stm32Timer.MaxMsExact` | hal/drivers/stm32f10x/myTimer.c:113 | for a clock of 16 Hz or more the 32-bit truncation loses nothing: MaxMs is the exact quotient 67108864000 / freq, and it is at least 15 |
| `Stm32Timer.MaxMsTruncatedBelow16Hz` | hal/drivers/stm32f10x/myTimer.c:113 | for a clock below 16 Hz the truncated MaxMs differs from the true quotient |
| `Stm32Timer.MaxMsPositive` | hal/drivers/stm32f10x/myTimer.c:112-113 | MaxMs is nonzero for every nonzero 32-bit clock, so the division in Start is always defined |
| `Stm32Timer.MaxMsAtOneMegahertz` | hal/drivers/stm32f10x/myTimer.c:113 | a 1 MHz clock gives MaxMs 67108 |
| `Stm32Timer.ReloadFits16Bits` | hal/drivers/stm32f10x/myTimer.c:169-170 | for 0 < period < MaxMs with period < 0x10000 the counter equals the exact tick count and is below 0x10000; when it is at least 1 the reload is counter - 1 and fits 16 bits |
| `Stm32Timer.ReloadWrapsIffCounterZero` | hal/drivers/stm32f10x/myTimer.c:170 | the reload is 0xFFFFFFFF exactly when the counter is 0 |
| `Stm32Timer.ReloadOverflowAt65536` | hal/drivers/stm32f10x/myTimer.c:157-170 | at 1 MHz, period 65536 is below MaxMs, yet its counter is 0 and its reload 0xFFFFFFFF |
| `Stm32Timer.ReloadUnderflowAtOneMs` | hal/drivers/stm32f10x/myTimer.c:169-170 | at 1 MHz, period 1 has counter 0 and reload 0xFFFFFFFF |
| `Stm32Timer.IntendedReload` | hal/drivers/stm32f10x/myTimer.c:169-170 | the corrected reload for period < MaxMs: the unwrapped tick count, at least one, minus one; it always fits 16 bits |
| `Stm32Timer.ReloadAgreesWithIntended` | hal/drivers/stm32f10x/myTimer.c:169-170 | wherever neither wrap-around happens (period < 0x10000, tick count >= 1) the code's reload equals the corrected one |
| `Stm32Timer.IntendedReloadAtFailingInputs` | hal/drivers/stm32f10x/myTimer.c:169-170 | at 1 MHz the corrected reload is 63999 for 65536 ms and 0 for 1 ms |
| `Stm32Timer.ClaimBothTimers` | hal/drivers/stm32f10x/myTimer.c:94-137 | periodic Inits return handles 0 (TIM3) and 1 (TIM4) in that order; the third fails and writes no handle |
| `Stm32Timer.StartThenInterrupt` | hal/drivers/stm32f10x/myTimer.c:153-225 | at 1 MHz, Start(200 ms) succeeds with reload 194; the interrupt on that timer's handle invokes its callback, the never-claimed TIM4 handle invokes nothing, and a foreign handle is not found |
| `WeekdayNames.WdayToStr` | tests/examples/wdayToStr/source/wdayToStr.c:38-56 | a non-NULL result is the name the table gives that day, and day 6 yields NULL |
| `WeekdayNames.WdayToStrNamesWeekdays` | tests/examples/wdayToStr/source/wdayToStr.c:43-53 | the result is non-NULL exactly for 0 to 5, which get sunday to friday |
| `WeekdayNames.WdayToStrInjective` | tests/examples/wdayToStr/source/wdayToStr.c:45-50 | distinct days get distinct names |
| `WeekdayNames.WdayToStrSaturdayIsNull` | tests/examples/wdayToStr/source/wdayToStr.c:51-52 | day 6 yields NULL, not the documented "saturday" |
| `WeekdayNames.IntendedWdayToStr` | tests/examples/wdayToStr/source/wdayToStr.c:38-56 | the corrected routine is non-NULL exactly for days 0 to 6, each with its name from the table |
| `WeekdayNames.IntendedWdayToStrMatchesTests` | tests/examples/wdayToStr/tests/base/tests/test_wdayToStr.c:44-82 | the corrected routine names days 0 to 6, is NULL exactly outside them (7 included), and agrees with the code everywhere but day 6 |

## Findings

| source | as written | input that shows it | evidently intended | confidence | as-written member | corrected member |
|---|---|---|---|---|---|---|
| tests/examples/wdayToStr/source/wdayToStr.c:51-52 | case 6 has no `break`, so `default` overwrites "saturday" with NULL | wday = 6 | "saturday", as the doc comment and the test expect | high (the source marks the error as deliberate); not executed | `WeekdayNames.WdayToStrSaturdayIsNull` | `WeekdayNames.IntendedWdayToStrMatchesTests` |
| hal/drivers/stm32f10x/myTimer.c:169 | `0x10000 * period` is computed in 32 bits and wraps for period >= 65536, although such periods can be below MaxMs | freq = 1000000 (MaxMs 67108), period = 65536: counter 0, Period 0xFFFFFFFF | counter 64000, Period 63999 | high; not executed | `Stm32Timer.ReloadOverflowAt65536` | `Stm32Timer.IntendedReloadAtFailingInputs` |
| hal/drivers/stm32f10x/myTimer.c:170 | `counter - 1` wraps to 0xFFFFFFFF when the period is shorter than one tick, far outside the 16-bit reload range | freq = 1000000, period = 1: counter 0, Period 0xFFFFFFFF | the shortest reload, Period 0 | medium (what a sub-tick period should give is not documented); not executed | `Stm32Timer.ReloadUnderflowAtOneMs` | `Stm32Timer.IntendedReload` |

`TimerDriver.Start` keeps the code's arithmetic (`ReloadValue`), so that it models the code
as it stands. `IntendedReload` is the corrected conversion, and `ReloadAgreesWithIntended`
shows where the two coincide.

## Left out

- Vendor SDK and HAL behaviour (clock gating, pin mux, GPIO/PORT/TIM registers, NVIC): each call is only recorded in a ghost log with its arguments; values it returns are parameters.
- The PORT configuration's open-drain field, which the code leaves uninitialised: not modelled.
- The KL25 port enumeration header (`myDriverDefs.h` for KL25) is not part of this model; `myDriverPin_31` is taken to be 31 and the port count comes from the five GPIO base pointers.
- `myASSERT`: the model has the semantics of test builds, where a failed assertion prints a message and execution continues (`tests/helpers/myAssert.h:36`). In production builds a failed assertion loops forever (`helpers/debug/myAssert.h:35`), so there the following modelled branches are never reached: Init's Fail for an out-of-range port, pin or direction (the assertions at `hal/drivers/kl25/myGpio.c:88-90` halt first; only an out-of-range pull still returns Fail); the rollback of an exhausted GPIO pool (`myGpio.c:95`) and of an exhausted timer pool (`myTimer.c:97`); Get's Lo and Set's Fail for a NULL handle (`myGpio.c:168`, `myGpio.c:191`); Set with a level above Hi (`myGpio.c:192`); the timer Init's Fail for a non-periodic mode (`hal/drivers/stm32f10x/myTimer.c:89`); Start with a period at or above MaxMs (halts at `myTimer.c:157` instead of running); Start's Fail after a HAL error (`myTimer.c:176`, `myTimer.c:181`); and the dispatch of an unknown handle (`myTimer.c:224`).
- `Stm32Timer.TimerDriver.Init`: a zero PCLK1 frequency is excluded by a precondition on the path that divides by it; the code only asserts it and then divides by zero.
- Interrupt preemption and reentrancy: dispatch is a sequential method call, and the IRQ handlers, which only forward to the HAL, are not modelled.
- Calling the user callback: `PeriodElapsed` returns the callback it would call instead of running foreign code.
- Dangling or forged handles: Get and Set require a NULL handle or the address of one of the four slots, and Start requires a NULL handle or one that Init returned.
- The stub drivers (STM32 GPIO, KL25 timer), board bring-up, the RTOS stub and the sample applications: they contain no logic.
