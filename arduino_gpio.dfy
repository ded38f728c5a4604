/**
 * The Arduino/ESP-IDF GPIO primitives the pin layer calls (__pinMode,
 * __digitalRead, __digitalWrite, attachInterruptArg, detachInterrupt),
 * modelled as one bank of 256 lines. The bank keeps, per line, the last
 * level written and the last mode word applied, the set of lines with a
 * bound interrupt handler, and a ghost log of the primitive calls in the
 * order they were made.
 */
module ArduinoGpio {

  /** A GPIO number as the firmware passes it around: a `uint8_t`. */
  type PinIndex = i: nat | i < 256

  const PinCount: nat := 256

  /** Logic levels, as C `int` values (32-bit patterns). */
  const HIGH: bv32 := 1
  const LOW: bv32 := 0

  /** The bits of the `uint8_t` mode word handed to __pinMode. */
  const INPUT: bv8 := 0x01
  const OUTPUT: bv8 := 0x02
  const PULLUP: bv8 := 0x04
  const PULLDOWN: bv8 := 0x08

  /** One primitive call. The callback, its argument and the edge mode of an interrupt binding are not modelled. */
  datatype Call =
    | Wrote(pin: PinIndex, value: bv8)
    | ModeSet(pin: PinIndex, mode: bv8)
    | Attached(pin: PinIndex)
    | Detached(pin: PinIndex)

  class GpioBank {
    var level: seq<bv8>
    var mode: seq<bv8>
    var bound: set<PinIndex>
    ghost var log: seq<Call>

    ghost predicate Valid()
      reads this
    {
      |level| == PinCount && |mode| == PinCount
    }

    constructor ()
      ensures Valid()
      ensures level == seq(PinCount, _ => 0) && mode == seq(PinCount, _ => 0)
      ensures bound == {} && log == []
    {
      level := seq(PinCount, _ => 0);
      mode := seq(PinCount, _ => 0);
      bound := {};
      log := [];
    }

    /** __digitalWrite(pin, value) */
    method DigitalWrite(pin: PinIndex, value: bv8)
      requires Valid()
      modifies this
      ensures Valid()
      ensures level == old(level)[pin := value]
      ensures mode == old(mode) && bound == old(bound)
      ensures log == old(log) + [Wrote(pin, value)]
    {
      level := level[pin := value];
      log := log + [Wrote(pin, value)];
    }

    /** __digitalRead(pin): the level the line holds, widened to a C `int`. */
    method DigitalRead(pin: PinIndex) returns (v: bv32)
      requires Valid()
      ensures v < 0x100 && v as bv8 == level[pin]
    {
      v := level[pin] as bv32;
    }

    /** __pinMode(pin, value) */
    method PinMode(pin: PinIndex, value: bv8)
      requires Valid()
      modifies this
      ensures Valid()
      ensures mode == old(mode)[pin := value]
      ensures level == old(level) && bound == old(bound)
      ensures log == old(log) + [ModeSet(pin, value)]
    {
      mode := mode[pin := value];
      log := log + [ModeSet(pin, value)];
    }

    /** ::attachInterruptArg(pin, ...) */
    method AttachInterrupt(pin: PinIndex)
      requires Valid()
      modifies this
      ensures Valid()
      ensures bound == old(bound) + {pin}
      ensures level == old(level) && mode == old(mode)
      ensures log == old(log) + [Attached(pin)]
    {
      bound := bound + {pin};
      log := log + [Attached(pin)];
    }

    /** ::detachInterrupt(pin) */
    method DetachInterrupt(pin: PinIndex)
      requires Valid()
      modifies this
      ensures Valid()
      ensures bound == old(bound) - {pin}
      ensures level == old(level) && mode == old(mode)
      ensures log == old(log) + [Detached(pin)]
    {
      bound := bound - {pin};
      log := log + [Detached(pin)];
    }
  }

}
