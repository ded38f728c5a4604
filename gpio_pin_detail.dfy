/**
 * GPIOPinDetail: an ESP32 pin as the firmware sees it. It binds a physical
 * GPIO number to the capabilities the chip gives that number, to the
 * attributes requested by the pin's option string, to the mode most recently
 * configured, and to a read/write mask that turns logical levels into
 * electrical ones for active-low pins.
 */
module Pins {
  import PinCapabilities
  import PinAttributes
  import Decimal
  import opened ArduinoGpio
  import opened PinErrors

  type CapabilitySet = set<PinCapabilities.Capability>
  type AttributeSet = set<PinAttributes.Attribute>

  /** The UART0 lines: configured by the serial driver before the pin layer runs, so setAttr does not check them. */
  const SerialPins: set<PinIndex> := {1, 3}

  /** GPIO 34, 35, 36 and 39 can only be read. */
  const InputOnlyPins: set<PinIndex> := {34, 35, 36, 39}

  /** The GPIO numbers that exist on the chip. */
  const MappedPins: set<PinIndex> :=
    set i: PinIndex | i <= 19 || 21 <= i <= 23 || 25 <= i <= 27 || i == 29 || 32 <= i <= 36 || i == 39

  // ---------------------------------------------------------------------------
  // Capability table

  /** The capabilities of each GPIO number; `{}` (PinCapabilities::None) for numbers that are not a GPIO. */
  function GetDefaultCapabilities(index: PinIndex): (caps: CapabilitySet)
    ensures caps == {} <==> index !in MappedPins
    ensures caps != {} ==> {PinCapabilities.Native, PinCapabilities.Input, PinCapabilities.UART} <= caps
    ensures PinCapabilities.DAC in caps <==> index == 25 || index == 26
    ensures PinCapabilities.Output in caps <==> caps != {} && index !in InputOnlyPins
    ensures index in InputOnlyPins ==>
      PinCapabilities.PullUp !in caps && PinCapabilities.PullDown !in caps
  {
    match index
    case 0 =>
      {PinCapabilities.Native, PinCapabilities.Input, PinCapabilities.Output, PinCapabilities.PullUp,
       PinCapabilities.PullDown, PinCapabilities.ADC, PinCapabilities.PWM, PinCapabilities.ISR,
       PinCapabilities.UART}
    case 1 =>
      {PinCapabilities.Native, PinCapabilities.Output, PinCapabilities.Input, PinCapabilities.UART}
    case 3 =>
      {PinCapabilities.Native, PinCapabilities.Output, PinCapabilities.Input, PinCapabilities.ISR,
       PinCapabilities.UART}
    case 5 | 16 | 17 | 18 | 19 | 21 | 22 | 23 | 29 =>
      {PinCapabilities.Native, PinCapabilities.Input, PinCapabilities.Output, PinCapabilities.PullUp,
       PinCapabilities.PullDown, PinCapabilities.PWM, PinCapabilities.ISR, PinCapabilities.UART}
    case 2 | 4 | 12 | 13 | 14 | 15 | 27 | 32 | 33 =>
      {PinCapabilities.Native, PinCapabilities.Input, PinCapabilities.Output, PinCapabilities.PullUp,
       PinCapabilities.PullDown, PinCapabilities.ADC, PinCapabilities.PWM, PinCapabilities.ISR,
       PinCapabilities.UART}
    case 25 | 26 =>
      {PinCapabilities.Native, PinCapabilities.Input, PinCapabilities.Output, PinCapabilities.PullUp,
       PinCapabilities.PullDown, PinCapabilities.ADC, PinCapabilities.DAC, PinCapabilities.PWM,
       PinCapabilities.ISR, PinCapabilities.UART}
    case 6 | 7 | 8 | 9 | 10 | 11 =>
      {PinCapabilities.Native, PinCapabilities.Input, PinCapabilities.Output, PinCapabilities.PWM,
       PinCapabilities.ISR, PinCapabilities.UART}
    case 34 | 35 | 36 | 39 =>
      {PinCapabilities.Native, PinCapabilities.Input, PinCapabilities.ADC, PinCapabilities.ISR,
       PinCapabilities.UART}
    case _ => {}
  }

  // ---------------------------------------------------------------------------
  // Option parsing

  /** The option tokens a GPIO pin declaration may carry. */
  const KnownOptions: set<string> := {"pu", "pd", "low", "high"}

  /** The attributes an option list can request. */
  const OptionAttributes: AttributeSet :=
    {PinAttributes.PullUp, PinAttributes.PullDown, PinAttributes.ActiveLow}

  /** `attrs` is what `options` asks for: each of "pu", "pd", "low" adds its attribute, "high" adds nothing. */
  ghost predicate RequestedBy(options: seq<string>, attrs: AttributeSet) {
    && attrs <= OptionAttributes
    && (PinAttributes.PullUp in attrs <==> "pu" in options)
    && (PinAttributes.PullDown in attrs <==> "pd" in options)
    && (PinAttributes.ActiveLow in attrs <==> "low" in options)
  }

  /** `options[i]` is the first token that is not a known option. */
  ghost predicate FirstBadOption(options: seq<string>, i: int) {
    && 0 <= i < |options|
    && options[i] !in KnownOptions
    && forall j | 0 <= j < i :: options[j] in KnownOptions
  }

  /** The option loop of the GPIOPinDetail constructor. */
  method ParseOptions(index: PinIndex, options: seq<string>) returns (r: Result<AttributeSet>)
    ensures r.Success? <==> forall i | 0 <= i < |options| :: options[i] in KnownOptions
    ensures r.Success? ==> RequestedBy(options, r.value)
    ensures r.Failure? ==> exists i :: FirstBadOption(options, i) && r.error == BadOption(index, options[i])
  {
    var attrs: AttributeSet := {};
    var k := 0;
    while k < |options|
      invariant 0 <= k <= |options|
      invariant forall j | 0 <= j < k :: options[j] in KnownOptions
      invariant RequestedBy(options[..k], attrs)
    {
      var opt := options[k];
      assert options[..k + 1] == options[..k] + [opt];
      if opt == "pu" {
        attrs := attrs + {PinAttributes.PullUp};
      } else if opt == "pd" {
        attrs := attrs + {PinAttributes.PullDown};
      } else if opt == "low" {
        attrs := attrs + {PinAttributes.ActiveLow};
      } else if opt == "high" {
        // active high is the default
      } else {
        assert FirstBadOption(options, k);
        return Failure(BadOption(index, opt));
      }
      k := k + 1;
    }
    assert options[..k] == options;
    return Success(attrs);
  }

  // ---------------------------------------------------------------------------
  // Levels and mode words

  /** The read/write mask the constructor derives: HIGH for an active-low pin, LOW otherwise. */
  function MaskFor(attributes: AttributeSet): (mask: bv32)
    ensures mask == HIGH || mask == LOW
    ensures mask == HIGH <==> PinAttributes.ActiveLow in attributes
  {
    if PinAttributes.ActiveLow in attributes then HIGH else LOW
  }

  /** What `write(high)` hands to __digitalWrite: the C `int` `mask ^ high`, narrowed to its `uint8_t` parameter. */
  function LineValue(mask: bv32, high: bv32): bv8 {
    ((mask ^ high) & 0xFF) as bv8
  }

  /** What `read()` returns for a raw line value. */
  function LogicalValue(mask: bv32, raw: bv8): bv32 {
    (raw as bv32) ^ mask
  }

  /** The level setAttr drives on an output before applying its mode: logical on with InitialOn, logical off otherwise. */
  function InitialLevel(value: AttributeSet, mask: bv32): bv8 {
    LineValue(mask, if PinAttributes.InitialOn in value then HIGH else LOW)
  }

  /**
   * The mode word setAttr composes: one direction bit (Input wins over
   * Output) and one pull bit (pull-up wins over pull-down), where the pull
   * comes from the construction attributes or the requested mode.
   */
  function PinModeValue(attributes: AttributeSet, value: AttributeSet): bv8 {
    var direction: bv8 :=
      if PinAttributes.Input in value then INPUT
      else if PinAttributes.Output in value then OUTPUT
      else 0;
    var pull: bv8 :=
      if PinAttributes.PullUp in attributes || PinAttributes.PullUp in value then PULLUP
      else if PinAttributes.PullDown in attributes || PinAttributes.PullDown in value then PULLDOWN
      else 0;
    direction | pull
  }

  /** The two checks at the top of setAttr, in the order the firmware makes them. */
  function ConfigureCheck(index: PinIndex, capabilities: CapabilitySet, attributes: AttributeSet,
                          value: AttributeSet, conflictsWith: PinAttributes.ConflictRule): (r: Outcome)
    ensures r.Pass? <==>
      index in SerialPins || (PinAttributes.ValidateWith(value, capabilities) && !conflictsWith(attributes, value))
    ensures r.Fail? ==>
      r.error == if PinAttributes.ValidateWith(value, capabilities) then AttributeConflict(index, value)
                 else CapabilityMismatch(index, value)
  {
    if !(PinAttributes.ValidateWith(value, capabilities) || index == 1 || index == 3) then
      Fail(CapabilityMismatch(index, value))
    else if !(!conflictsWith(attributes, value) || index == 1 || index == 3) then
      Fail(AttributeConflict(index, value))
    else
      Pass
  }

  // ---------------------------------------------------------------------------
  // The pin object

  class GPIOPinDetail {
    const index: PinIndex
    const hw: GpioBank
    const capabilities: CapabilitySet
    const attributes: AttributeSet
    var currentMode: AttributeSet
    const readWriteMask: bv32

    ghost predicate Valid()
      reads this, hw
    {
      && hw.Valid()
      && capabilities == GetDefaultCapabilities(index)
      && capabilities != {}
      && attributes <= OptionAttributes
      && readWriteMask == MaskFor(attributes)
      // outside the serial pins, a configured mode is always one the pin can offer
      && (index !in SerialPins ==> PinAttributes.ValidateWith(currentMode, capabilities))
    }

    /** The field initialisers and the mask update of the constructor, once the checks have passed. */
    constructor Init(index: PinIndex, attributes: AttributeSet, hw: GpioBank)
      requires GetDefaultCapabilities(index) != {}
      requires attributes <= OptionAttributes
      requires hw.Valid()
      ensures Valid()
      ensures this.index == index && this.hw == hw
      ensures this.attributes == attributes && currentMode == {}
    {
      this.index := index;
      this.hw := hw;
      capabilities := GetDefaultCapabilities(index);
      this.attributes := attributes;
      currentMode := {};
      if PinAttributes.ActiveLow in attributes {
        readWriteMask := HIGH;
      } else {
        readWriteMask := LOW;
      }
    }

    /**
     * The constructor `GPIOPinDetail(index, options)`: fails on a GPIO number
     * the chip does not have (before looking at the options), then on the
     * first unknown option.
     */
    static method Create(index: PinIndex, options: seq<string>, hw: GpioBank) returns (r: Result<GPIOPinDetail>)
      requires hw.Valid()
      ensures r.Success? <==>
        GetDefaultCapabilities(index) != {} && forall i | 0 <= i < |options| :: options[i] in KnownOptions
      ensures GetDefaultCapabilities(index) == {} ==> r == Failure(BadGpioNumber(index))
      ensures GetDefaultCapabilities(index) != {} && r.Failure? ==>
        exists i :: FirstBadOption(options, i) && r.error == BadOption(index, options[i])
      ensures r.Success? ==>
        && fresh(r.value)
        && r.value.Valid()
        && r.value.index == index
        && r.value.hw == hw
        && r.value.capabilities == GetDefaultCapabilities(index)
        && RequestedBy(options, r.value.attributes)
        && r.value.currentMode == {}
        && (r.value.readWriteMask == HIGH <==> "low" in options)
    {
      if GetDefaultCapabilities(index) == {} {
        return Failure(BadGpioNumber(index));
      }
      var parsed := ParseOptions(index, options);
      if parsed.Failure? {
        return Failure(parsed.error);
      }
      var pin := new GPIOPinDetail.Init(index, parsed.value, hw);
      return Success(pin);
    }

    function Capabilities(): (caps: CapabilitySet)
      requires Valid()
      reads this, hw
      ensures caps == GetDefaultCapabilities(index)
      ensures PinCapabilities.Native in caps
    {
      capabilities
    }

    function Attributes(): (attrs: AttributeSet)
      requires Valid()
      reads this, hw
      ensures attrs == attributes
      ensures attrs <= OptionAttributes
      ensures PinAttributes.ActiveLow in attrs <==> readWriteMask == HIGH
    {
      attributes
    }

    method Write(high: bv32) returns (r: Outcome)
      requires Valid()
      modifies hw
      ensures Valid()
      ensures r.Fail? <==> PinAttributes.Output !in currentMode
      ensures r.Fail? ==> r == Fail(NoOutputAttribute(index)) && unchanged(hw)
      ensures r.Pass? ==>
        && hw.level == old(hw.level)[index := LineValue(readWriteMask, high)]
        && hw.mode == old(hw.mode) && hw.bound == old(hw.bound)
        && hw.log == old(hw.log) + [Wrote(index, LineValue(readWriteMask, high))]
        && LogicalValue(readWriteMask, hw.level[index]) == high & 0xFF
    {
      if PinAttributes.Output !in currentMode {
        return Fail(NoOutputAttribute(index));
      }
      var value := readWriteMask ^ high;
      hw.DigitalWrite(index, (value & 0xFF) as bv8);
      r := Pass;
    }

    method Read() returns (v: bv32)
      requires Valid()
      ensures v ^ readWriteMask == hw.level[index] as bv32
    {
      var raw := hw.DigitalRead(index);
      v := raw ^ readWriteMask;
    }

    /**
     * setAttr(value): check the request (not on the serial pins), store it as
     * the current mode, then drive the line and apply the mode word.
     */
    method SetAttr(value: AttributeSet, conflictsWith: PinAttributes.ConflictRule) returns (r: Outcome)
      requires Valid()
      modifies this`currentMode, hw
      ensures Valid()
      ensures r == ConfigureCheck(index, capabilities, attributes, value, conflictsWith)
      ensures r.Fail? ==> currentMode == old(currentMode) && unchanged(hw)
      ensures r.Pass? ==> currentMode == value
      ensures r.Pass? ==> Configured(value, old(hw.level), old(hw.mode), old(hw.bound), old(hw.log))
    {
      if !(PinAttributes.ValidateWith(value, capabilities) || index == 1 || index == 3) {
        return Fail(CapabilityMismatch(index, value));
      }
      if !(!conflictsWith(attributes, value) || index == 1 || index == 3) {
        return Fail(AttributeConflict(index, value));
      }
      currentMode := value;
      ApplyMode(value);
      r := Pass;
    }

    /**
     * The hardware state after setAttr(value) succeeded, given the state
     * before: an output is first driven to its initial level, then the mode
     * word is applied; no other line and no interrupt binding changes.
     */
    ghost predicate Configured(value: AttributeSet, level0: seq<bv8>, mode0: seq<bv8>,
                               bound0: set<PinIndex>, log0: seq<Call>)
      requires |level0| == PinCount && |mode0| == PinCount
      reads this, hw
    {
      var bits := PinModeValue(attributes, value);
      && hw.mode == mode0[index := bits]
      && hw.bound == bound0
      && if PinAttributes.Output in value then
           && hw.level == level0[index := InitialLevel(value, readWriteMask)]
           && hw.log == log0 + [Wrote(index, InitialLevel(value, readWriteMask)), ModeSet(index, bits)]
         else
           && hw.level == level0
           && hw.log == log0 + [ModeSet(index, bits)]
    }

    /** The second half of setAttr: compose the mode word, drive an output to its initial level, apply the mode. */
    method ApplyMode(value: AttributeSet)
      requires Valid()
      modifies hw
      ensures Valid()
      ensures Configured(value, old(hw.level), old(hw.mode), old(hw.bound), old(hw.log))
    {
      var pinModeValue: bv8 := 0;
      if PinAttributes.Input in value {
        pinModeValue := pinModeValue | INPUT;
      } else if PinAttributes.Output in value {
        pinModeValue := pinModeValue | OUTPUT;
      }

      if PinAttributes.PullUp in attributes || PinAttributes.PullUp in value {
        pinModeValue := pinModeValue | PULLUP;
      } else if PinAttributes.PullDown in attributes || PinAttributes.PullDown in value {
        pinModeValue := pinModeValue | PULLDOWN;
      }
      assert pinModeValue == PinModeValue(attributes, value);

      if PinAttributes.Output in value {
        if PinAttributes.InitialOn in value {
          hw.DigitalWrite(index, ((HIGH ^ readWriteMask) & 0xFF) as bv8);
        } else {
          hw.DigitalWrite(index, ((LOW ^ readWriteMask) & 0xFF) as bv8);
        }
      }

      hw.PinMode(index, pinModeValue);
    }

    method AttachInterrupt() returns (r: Outcome)
      requires Valid()
      modifies hw
      ensures Valid()
      ensures r.Fail? <==> PinAttributes.ISR !in currentMode
      ensures r.Fail? ==> r == Fail(NoIsrAttribute(index)) && unchanged(hw)
      ensures r.Pass? ==>
        && hw.bound == old(hw.bound) + {index}
        && hw.level == old(hw.level) && hw.mode == old(hw.mode)
        && hw.log == old(hw.log) + [Attached(index)]
    {
      if PinAttributes.ISR !in currentMode {
        return Fail(NoIsrAttribute(index));
      }
      hw.AttachInterrupt(index);
      r := Pass;
    }

    method DetachInterrupt() returns (r: Outcome)
      requires Valid()
      modifies hw
      ensures Valid()
      ensures r.Fail? <==> PinAttributes.ISR !in currentMode
      ensures r.Fail? ==> r == Fail(NoIsrAttribute(index)) && unchanged(hw)
      ensures r.Pass? ==>
        && hw.bound == old(hw.bound) - {index}
        && hw.level == old(hw.level) && hw.mode == old(hw.mode)
        && hw.log == old(hw.log) + [Detached(index)]
    {
      if PinAttributes.ISR !in currentMode {
        return Fail(NoIsrAttribute(index));
      }
      hw.DetachInterrupt(index);
      r := Pass;
    }

    /** "GPIO." followed by the pin number in decimal. */
    function ToString(): (s: string)
      ensures |s| > 5 && s[..5] == "GPIO."
      ensures forall i | 5 <= i < |s| :: Decimal.IsDigit(s[i])
      ensures s[5] == '0' ==> index == 0 && s == "GPIO.0"
      ensures Decimal.Parse(s[5..]) == index
    {
      Decimal.ParseFormat(index);
      var digits := Decimal.Format(index);
      assert ("GPIO." + digits)[5..] == digits;
      "GPIO." + digits
    }
  }

}
