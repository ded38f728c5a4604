/**
 * The electrical capabilities a physical ESP32 pin can offer
 * (the firmware's PinCapabilities flag type).
 *
 * The firmware composes these flags with `|`; here a capability set is a
 * `set<Capability>`, and the firmware's `PinCapabilities::None` (no bit set,
 * "not a real GPIO") is the empty set.
 */
module PinCapabilities {

  datatype Capability =
    | Native    // the pin exists on the chip
    | Input
    | Output
    | PullUp
    | PullDown
    | ADC
    | DAC
    | PWM
    | ISR       // can raise an interrupt
    | UART

}
