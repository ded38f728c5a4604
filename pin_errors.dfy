/**
 * The failures of the pin layer. The firmware stops with an `Assert`; here
 * each failure is a value naming the pin and the contract it broke.
 */
module PinErrors {
  import PinAttributes
  import opened ArduinoGpio

  datatype PinError =
    | BadGpioNumber(pin: PinIndex)                 // the number is not a GPIO of the chip
    | BadOption(pin: PinIndex, option: string)     // an option token the pin layer does not know
    | CapabilityMismatch(pin: PinIndex, requested: set<PinAttributes.Attribute>)
    | AttributeConflict(pin: PinIndex, requested: set<PinAttributes.Attribute>)
    | NoOutputAttribute(pin: PinIndex)
    | NoIsrAttribute(pin: PinIndex)

  datatype Result<+T> = Success(value: T) | Failure(error: PinError)

  /** The result of an operation that returns nothing when it succeeds. */
  datatype Outcome = Pass | Fail(error: PinError)

}
