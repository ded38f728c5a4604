# ESP32 GPIO pin layer of Grbl_Esp32, in Dafny

This project models `GPIOPinDetail`, the class through which Grbl_Esp32 uses
an ESP32 GPIO. It covers four parts:

- **Capability table.** `GetDefaultCapabilities` maps each GPIO number to the
  electrical capabilities the chip gives it. A number that is not a GPIO maps
  to the empty set, which stands for `PinCapabilities::None`.
- **Construction.** The pin reads its option tokens (`pu`, `pd`, `low`,
  `high`) into an attribute set and derives the read/write mask from it.
- **Configuration.** `setAttr` checks a requested mode and records it. For an
  output it first drives the line to its initial level, then applies the
  composed mode word.
- **Guarded I/O.** `write`, `read`, `attachInterrupt` and `detachInterrupt`
  are gated on the current mode and pass through the mask.

How the code is represented:

- The two flag types are two datatypes in two modules,
  `PinCapabilities.Capability` and `PinAttributes.Attribute`. A flag set is a
  Dafny `set`.
- `validateWith` is "the capabilities the request names are a subset of the
  pin's capabilities". Input, Output, PullUp, PullDown and ISR name a
  capability. ActiveLow and InitialOn are attributes only, so they never make
  validation fail.
- `conflictsWith` is defined in a header that is not part of this model. It is
  therefore a parameter of `SetAttr` (`PinAttributes.ConflictRule`), and every
  contract holds for every rule. Only two lemmas and two client methods assume
  anything about it: either that nothing conflicts with an empty attribute
  set, or that one named pair does not conflict.
- The Arduino primitives (`__pinMode`, `__digitalRead`, `__digitalWrite`,
  `attachInterruptArg`, `detachInterrupt`) are methods of a modelled bank of
  256 lines, `ArduinoGpio.GpioBank`. Per line, the bank keeps the last value
  written and the last mode word applied. It also keeps the set of lines with
  a bound interrupt, and a ghost log of the calls in the order they were made.
  The log is how the model states that setAttr drives an output's level
  before it applies the mode. The level, mode and binding are ordinary fields
  rather than ghost ones, because `read()` returns the level to its caller.
- `Assert` becomes an error value (`PinErrors.PinError`). A failed operation
  changes nothing, as the C++ `Assert` throws before any state is written.
- The C++ constructor may fail, and a Dafny constructor cannot. It is
  therefore the static method `GPIOPinDetail.Create`, which returns a
  `Result`. Create runs the option loop `ParseOptions`, then the plain
  constructor `Init`.
- `_capabilities`, `_attributes` and `_readWriteMask` are `const` fields. Only
  the constructor writes them, so "setAttr leaves them unchanged" holds by
  construction. `_currentMode` is the one mutable field.
- A C `int` is a `bv32` and a `uint8_t` is a `bv8`. `write(high)` computes
  `mask ^ high` as an `int`, and `__digitalWrite` takes a `uint8_t`, so the
  value is narrowed to its low byte.

Two details of `setAttr` that the model keeps as the code has them:

- The conflict check at GPIOPinDetail.cpp:134 compares the request only with
  `_attributes`. Only the constructor sets `_attributes`, and they hold only
  the option attributes. The failure message speaks of attributes "set
  before", but a new request is never checked against `_currentMode`. The
  client method `PinScenarios.InterruptsNeedIsr` reconfigures a pin from
  Output to Input.
- The pull-down bit is set only when no pull-up is asked for
  (GPIOPinDetail.cpp:150-154). The two pull bits are therefore never set
  together.

## Model

| member | source | states |
|---|---|---|
| `Pins.GetDefaultCapabilities` | Grbl_Esp32/src/Pins/GPIOPinDetail.cpp:12-77 | Total on 0..255. Empty exactly outside 0–19, 21–23, 25–27, 29, 32–36 and 39. Every non-empty set holds Native, Input and UART. DAC only on 25 and 26. Output on every mapped pin except 34, 35, 36 and 39, which also lack both pulls |
| `PinAttributes.ValidateWith` | Grbl_Esp32/src/Pins/GPIOPinDetail.cpp:132-133 | True iff every capability-bearing attribute of the request is a capability of the pin |
| `Pins.ParseOptions` | Grbl_Esp32/src/Pins/GPIOPinDetail.cpp:90-103 | Succeeds iff every token is pu, pd, low or high. On success the set is exactly PullUp/PullDown/ActiveLow for the pu/pd/low tokens present; high adds nothing. On failure the error names the pin and the first unknown token |
| `Pins.GPIOPinDetail.Create` | Grbl_Esp32/src/Pins/GPIOPinDetail.cpp:79-111 | Fails with BadGpioNumber when the table gives no capabilities, before looking at the options. Then fails on the first unknown option. Otherwise gives a fresh valid pin with the table's capabilities, the parsed attributes, an empty current mode, and mask HIGH iff "low" was given |
| `Pins.GPIOPinDetail.Init` | Grbl_Esp32/src/Pins/GPIOPinDetail.cpp:79-110 | Sets the fields: the table's capabilities, the given attributes, an empty current mode, and the mask derived from ActiveLow; the result satisfies the pin invariant |
| `Pins.MaskFor` | Grbl_Esp32/src/Pins/GPIOPinDetail.cpp:105-110 | The mask is HIGH or LOW, and HIGH exactly when ActiveLow was requested |
| `Pins.GPIOPinDetail.Capabilities` | Grbl_Esp32/src/Pins/GPIOPinDetail.cpp:113 | Returns the table's capabilities for the pin's number; they always include Native |
| `Pins.GPIOPinDetail.Attributes` | Grbl_Esp32/src/Pins/GPIOPinDetail.cpp:114 | Returns the pin's attributes as constructed: only option attributes, exactly those the option list requested (with Create's RequestedBy), and ActiveLow among them iff the mask is HIGH |
| `Pins.GPIOPinDetail.Write` | Grbl_Esp32/src/Pins/GPIOPinDetail.cpp:116-120 | Fails with NoOutputAttribute, changing nothing, unless the current mode has Output. Otherwise writes the low byte of mask ^ high to this line only, so the line reads back as high's low byte. Modes and interrupts are unchanged |
| `Pins.GPIOPinDetail.Read` | Grbl_Esp32/src/Pins/GPIOPinDetail.cpp:121-124 | Returns the raw line value XOR the mask, with no mode check |
| `PinProperties.WriteReadRoundTrip` | Grbl_Esp32/src/Pins/GPIOPinDetail.cpp:116-124 | With either mask, reading back what write(v) put on the line gives v for the levels 0 and 1 that a real line carries. In the modelled bank, which keeps a whole byte per line, it gives v's low byte for any v |
| `PinProperties.ActiveLowInverts` | Grbl_Esp32/src/Pins/GPIOPinDetail.cpp:105-119 | With ActiveLow, logical HIGH goes out as 0 and LOW as 1; without it, levels go out unchanged |
| `Pins.ConfigureCheck` | Grbl_Esp32/src/Pins/GPIOPinDetail.cpp:132-135 | Pins 1 and 3 always pass. Elsewhere a request passes iff it validates against the capabilities and does not conflict with the option attributes. A capability mismatch is reported before a conflict |
| `Pins.GPIOPinDetail.SetAttr` | Grbl_Esp32/src/Pins/GPIOPinDetail.cpp:126-166 | The outcome is ConfigureCheck on the pin's own capabilities and option attributes. On failure the mode and hardware are unchanged. On success the current mode is the request and the hardware is as Configured states. Capabilities, attributes and mask cannot change. Outside pins 1 and 3 the current mode always validates |
| `Pins.GPIOPinDetail.ApplyMode` | Grbl_Esp32/src/Pins/GPIOPinDetail.cpp:139-165 | Only this pin's mode word becomes PinModeValue and no binding changes. For an output, the line is first set to the initial level, logged before the mode call; otherwise the line is untouched |
| `PinProperties.PinModeValueBits` | Grbl_Esp32/src/Pins/GPIOPinDetail.cpp:140-154 | INPUT iff Input requested. OUTPUT iff Output and not Input. PULLUP iff either set has PullUp. PULLDOWN iff either has PullDown and neither has PullUp. No other bits |
| `PinProperties.OptionPullIsSticky` | Grbl_Esp32/src/Pins/GPIOPinDetail.cpp:150-154 | A pull given as an option puts a pull bit in every mode word, whatever the request |
| `PinProperties.InitialLevelIsLogical` | Grbl_Esp32/src/Pins/GPIOPinDetail.cpp:156-163 | The initial level reads back as HIGH with InitialOn and LOW without it, on either polarity |
| `PinProperties.SerialPinsAreNotChecked` | Grbl_Esp32/src/Pins/GPIOPinDetail.cpp:127-135 | On pins 1 and 3 every request passes, for any capabilities, attributes and conflict rule |
| `PinProperties.AcceptedModeIsCapable` | Grbl_Esp32/src/Pins/GPIOPinDetail.cpp:132-133 | Off pins 1 and 3, every capability-bearing attribute of an accepted request is a capability of the pin |
| `PinProperties.InputOnlyPinsRefuse` | Grbl_Esp32/src/Pins/GPIOPinDetail.cpp:67-71 | On pins 34, 35, 36 and 39, a request with Output, PullUp or PullDown fails with CapabilityMismatch |
| `PinProperties.UnconfiguredPinAccepts` | Grbl_Esp32/src/Pins/GPIOPinDetail.cpp:134-135 | A pin built without pu, pd or low accepts every request its capabilities allow, if nothing conflicts with an empty attribute set |
| `PinProperties.OptionPullSkipsValidation` | Grbl_Esp32/src/Pins/GPIOPinDetail.cpp:150-154 | GPIO 34 lacks PullUp. Yet with option pu and request Input it passes the checks, and the mode word has exactly the INPUT and PULLUP bits |
| `PinProperties.HighAddsNothing` | Grbl_Esp32/src/Pins/GPIOPinDetail.cpp:98-99 | Appending "high" to an option list does not change the attributes it requests |
| `PinProperties.RequestedByIsFunctional` | Grbl_Esp32/src/Pins/GPIOPinDetail.cpp:91-103 | An option list determines its attribute set uniquely |
| `Pins.GPIOPinDetail.AttachInterrupt` | Grbl_Esp32/src/Pins/GPIOPinDetail.cpp:168-172 | Fails with NoIsrAttribute, changing nothing, unless the current mode has ISR. Otherwise binds this pin only; levels and modes are unchanged |
| `Pins.GPIOPinDetail.DetachInterrupt` | Grbl_Esp32/src/Pins/GPIOPinDetail.cpp:174-178 | Fails with NoIsrAttribute, changing nothing, unless the current mode has ISR. Otherwise unbinds this pin only; levels and modes are unchanged |
| `Pins.GPIOPinDetail.ToString` | Grbl_Esp32/src/Pins/GPIOPinDetail.cpp:180 | "GPIO." followed by the pin number in canonical decimal: digits only, no leading zero (0 renders as the single digit 0, so pin 0 is "GPIO.0"), parsing back to the pin number |
| `PinProperties.NamesAreDistinct` | Grbl_Esp32/src/Pins/GPIOPinDetail.cpp:180 | Pins with different numbers have different names |
| `Decimal.Format` | Grbl_Esp32/src/Pins/GPIOPinDetail.cpp:180 | The decimal rendering of the number has at least one character, only digits, and no leading zero; 0 renders as the single digit 0 |
| `Decimal.ParseFormat` | Grbl_Esp32/src/Pins/GPIOPinDetail.cpp:180 | Parsing the decimal rendering gives back the number |
| `Decimal.FormatInjective` | Grbl_Esp32/src/Pins/GPIOPinDetail.cpp:180 | Different numbers render differently |
| `ArduinoGpio.GpioBank.PinMode` | Grbl_Esp32/src/Pins/GPIOPinDetail.cpp:7 | Sets one line's mode word and logs the call; nothing else changes |
| `ArduinoGpio.GpioBank.DigitalRead` | Grbl_Esp32/src/Pins/GPIOPinDetail.cpp:8 | Returns the line's byte widened to an int |
| `ArduinoGpio.GpioBank.DigitalWrite` | Grbl_Esp32/src/Pins/GPIOPinDetail.cpp:9 | Sets one line's level and logs the call; nothing else changes |
| `ArduinoGpio.GpioBank.AttachInterrupt` | Grbl_Esp32/src/Pins/GPIOPinDetail.cpp:171 | Adds the line to the bound set and logs the call; nothing else changes |
| `ArduinoGpio.GpioBank.DetachInterrupt` | Grbl_Esp32/src/Pins/GPIOPinDetail.cpp:177 | Removes the line from the bound set and logs the call; nothing else changes |

## Left out

- Grbl_Esp32/Machines/servo_axis.h is not part of this model. It holds machine configuration constants (pin numbers, rates, travels, servo ranges) and no logic.
- The electrical behaviour of the chip is not modelled. A line holds the last byte written to it. Any client may assign the bank's fields to stand for an externally driven input.
- Interrupt callbacks are not modelled: the callback pointer, its argument, the edge mode and execution in interrupt context. Only the fact that a line is bound is recorded.
- `Assert` halts or throws with a formatted message. Neither the halt nor the message text is modelled; each failure is an error value naming the pin and the broken check.
- The bodies of the `PinCapabilities` and `PinAttributes` operators and `PinOptionsParser` are not part of this model. Flags are set members, validation is the subset test above, and `conflictsWith` is a parameter. Options arrive already split into tokens.
- Tokens are compared exactly. `PinOption::is` is not part of this model, so case-insensitive matching, if it does that, is not captured.
- The Arduino constants are named, not derived from their header. HIGH is 1 and LOW is 0. INPUT, OUTPUT, PULLUP and PULLDOWN are 0x01, 0x02, 0x04 and 0x08. The proofs rely only on these being four distinct single bits.
- The `PinDetail` base class is not part of this model; only the pin number it stores is. Other pin kinds are not part of it either.
- C++ construction semantics (a throwing constructor, RAII) are not modelled. Construction is a factory that returns either a pin or an error.
