/**
 * What a user asks of a pin (the firmware's PinAttributes flag type), and the
 * two set operations the pin layer relies on: validation against a capability
 * set and the conflict test.
 *
 * The first five attributes name a capability of the same name; ActiveLow
 * and InitialOn are pure attributes with no capability behind them.
 */
module PinAttributes {
  import PinCapabilities

  datatype Attribute =
    | Input
    | Output
    | PullUp
    | PullDown
    | ISR
    | ActiveLow   // logical "on" is the electrical LOW level
    | InitialOn   // an output starts in the logical "on" state

  /** Attributes that stand for a capability of the pin. */
  predicate IsCapability(a: Attribute) {
    !a.ActiveLow? && !a.InitialOn?
  }

  function AsCapability(a: Attribute): PinCapabilities.Capability
    requires IsCapability(a)
  {
    match a
    case Input => PinCapabilities.Input
    case Output => PinCapabilities.Output
    case PullUp => PinCapabilities.PullUp
    case PullDown => PinCapabilities.PullDown
    case ISR => PinCapabilities.ISR
  }

  /** The capabilities an attribute set asks for. */
  function CapabilityPart(value: set<Attribute>): set<PinCapabilities.Capability> {
    set a | a in value && IsCapability(a) :: AsCapability(a)
  }

  /**
   * `value.validateWith(caps)`: the requested capabilities are a subset of
   * what the pin offers. Pure attributes (ActiveLow, InitialOn) are not
   * capabilities and never make validation fail.
   */
  predicate ValidateWith(value: set<Attribute>, caps: set<PinCapabilities.Capability>): (ok: bool)
    ensures ok <==> forall a | a in value && IsCapability(a) :: AsCapability(a) in caps
  {
    assert forall a | a in value && IsCapability(a) :: AsCapability(a) in CapabilityPart(value);
    CapabilityPart(value) <= caps
  }

  /**
   * `current.conflictsWith(requested)`. Its rules live outside this model, so
   * the pin layer takes the rule as a parameter and is verified for every rule.
   */
  type ConflictRule = (set<Attribute>, set<Attribute>) -> bool

  /** The one property of the conflict rule this model ever assumes: nothing conflicts with an empty attribute set. */
  ghost predicate NoConflictWithNone(conflictsWith: ConflictRule) {
    forall requested :: !conflictsWith({}, requested)
  }

}
