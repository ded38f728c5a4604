/**
 * Client code: pin declarations as a machine configuration would make them,
 * checked against the contracts of the pin layer alone.
 */
module PinScenarios {
  import PinAttributes
  import opened ArduinoGpio
  import opened PinErrors
  import opened Pins

  /** GPIO 12 declared "low", configured as an output, written and read back. */
  method ActiveLowOutput(conflictsWith: PinAttributes.ConflictRule)
    requires !conflictsWith({PinAttributes.ActiveLow}, {PinAttributes.Output})
  {
    var hw := new GpioBank();
    var created := GPIOPinDetail.Create(12, ["low"], hw);
    assert created.Success?;
    var pin := created.value;
    assert pin.attributes == {PinAttributes.ActiveLow};
    assert pin.readWriteMask == HIGH;

    var r := pin.SetAttr({PinAttributes.Output}, conflictsWith);
    assert r == Pass;
    assert hw.level[12] == 1;          // logical off is electrical HIGH

    r := pin.Write(1);
    assert r == Pass;
    assert hw.level[12] == 0;          // logical on is electrical LOW
    var v := pin.Read();
    assert v == 1;
  }

  /** GPIO 40 does not exist: construction fails before the options are looked at. */
  method UnmappedPin() {
    var hw := new GpioBank();
    var created := GPIOPinDetail.Create(40, ["bogus"], hw);
    assert created == Failure(BadGpioNumber(40));
  }

  /** The first unknown option is the one reported. */
  method UnknownOption() {
    var hw := new GpioBank();
    var created := GPIOPinDetail.Create(13, ["pu", "od", "xx"], hw);
    assert FirstBadOption(["pu", "od", "xx"], 1);
    assert created == Failure(BadOption(13, "od"));
  }

  /** GPIO 34 can only be read: asking for an output fails and leaves the pin untouched. */
  method InputOnlyPinRefusesOutput(conflictsWith: PinAttributes.ConflictRule) {
    var hw := new GpioBank();
    var created := GPIOPinDetail.Create(34, [], hw);
    assert created.Success?;
    var pin := created.value;
    var r := pin.SetAttr({PinAttributes.Output}, conflictsWith);
    assert r == Fail(CapabilityMismatch(34, {PinAttributes.Output}));
    assert pin.currentMode == {};
    r := pin.Write(1);
    assert r == Fail(NoOutputAttribute(34));
  }

  /**
   * Interrupts need ISR in the current mode; setAttr may change the mode
   * again, because the conflict test only looks at the option attributes.
   */
  method InterruptsNeedIsr(conflictsWith: PinAttributes.ConflictRule)
    requires PinAttributes.NoConflictWithNone(conflictsWith)
  {
    var hw := new GpioBank();
    var created := GPIOPinDetail.Create(4, ["high"], hw);
    assert created.Success?;
    var pin := created.value;
    assert pin.attributes == {};

    var r := pin.SetAttr({PinAttributes.Output}, conflictsWith);
    assert r == Pass;
    r := pin.AttachInterrupt();
    assert r == Fail(NoIsrAttribute(4));

    r := pin.SetAttr({PinAttributes.Input, PinAttributes.ISR}, conflictsWith);
    assert r == Pass;
    r := pin.AttachInterrupt();
    assert r == Pass && 4 in hw.bound;
    r := pin.DetachInterrupt();
    assert r == Pass && 4 !in hw.bound;
  }
}
