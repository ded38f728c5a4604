/**
 * Properties of the GPIO pin layer that relate several of its operations:
 * how levels survive the read/write mask, how setAttr's checks treat the
 * special pins, and what the mode word it composes means.
 */
module PinProperties {
  import PinCapabilities
  import PinAttributes
  import opened ArduinoGpio
  import opened PinErrors
  import opened Pins

  // ---------------------------------------------------------------------------
  // Levels

  /** read() after write(v) gives back v, as far as the byte-wide line carries it, on either polarity. */
  lemma WriteReadRoundTrip(mask: bv32, v: bv32)
    requires mask == HIGH || mask == LOW
    ensures LogicalValue(mask, LineValue(mask, v)) == v & 0xFF
    ensures v <= 0xFF ==> LogicalValue(mask, LineValue(mask, v)) == v
  {
  }

  /** On an active-low pin the electrical level is the opposite of the logical one. */
  lemma ActiveLowInverts()
    ensures LineValue(MaskFor({PinAttributes.ActiveLow}), HIGH) == 0
    ensures LineValue(MaskFor({PinAttributes.ActiveLow}), LOW) == 1
    ensures LineValue(MaskFor({}), HIGH) == 1
    ensures LineValue(MaskFor({}), LOW) == 0
  {
  }

  /** The level setAttr drives on an output reads back as logical on with InitialOn, logical off without. */
  lemma InitialLevelIsLogical(value: AttributeSet, attributes: AttributeSet)
    ensures LogicalValue(MaskFor(attributes), InitialLevel(value, MaskFor(attributes))) ==
            if PinAttributes.InitialOn in value then HIGH else LOW
  {
  }

  // ---------------------------------------------------------------------------
  // The mode word

  /**
   * The mode word holds exactly one direction bit when a direction is asked
   * for (Input over Output), at most one pull bit (pull-up over pull-down,
   * either taken from the construction attributes or the request), and
   * nothing else.
   */
  lemma PinModeValueBits(attributes: AttributeSet, value: AttributeSet)
    ensures var bits := PinModeValue(attributes, value);
      && (bits & INPUT != 0 <==> PinAttributes.Input in value)
      && (bits & OUTPUT != 0 <==> PinAttributes.Output in value && PinAttributes.Input !in value)
      && (bits & PULLUP != 0 <==> PinAttributes.PullUp in attributes + value)
      && (bits & PULLDOWN != 0 <==>
            PinAttributes.PullDown in attributes + value && PinAttributes.PullUp !in attributes + value)
      && bits & !(INPUT | OUTPUT | PULLUP | PULLDOWN) == 0
  {
  }

  /** A pull requested by the options stays in every mode word the pin applies, whatever the later request. */
  lemma OptionPullIsSticky(attributes: AttributeSet, value: AttributeSet)
    requires PinAttributes.PullUp in attributes || PinAttributes.PullDown in attributes
    ensures PinModeValue(attributes, value) & (PULLUP | PULLDOWN) != 0
  {
  }

  // ---------------------------------------------------------------------------
  // setAttr's checks

  /** The serial pins accept every request, whatever their capabilities and the conflict rule. */
  lemma SerialPinsAreNotChecked(index: PinIndex, capabilities: CapabilitySet, attributes: AttributeSet,
                                value: AttributeSet, conflictsWith: PinAttributes.ConflictRule)
    requires index in SerialPins
    ensures ConfigureCheck(index, capabilities, attributes, value, conflictsWith) == Pass
  {
  }

  /** Elsewhere, a request that succeeds only asks for capabilities the pin has. */
  lemma AcceptedModeIsCapable(index: PinIndex, attributes: AttributeSet, value: AttributeSet,
                              conflictsWith: PinAttributes.ConflictRule, a: PinAttributes.Attribute)
    requires index !in SerialPins
    requires ConfigureCheck(index, GetDefaultCapabilities(index), attributes, value, conflictsWith).Pass?
    requires a in value && PinAttributes.IsCapability(a)
    ensures PinAttributes.AsCapability(a) in GetDefaultCapabilities(index)
  {
  }

  /** The input-only pins refuse output and pull resistors, with a capability mismatch. */
  lemma InputOnlyPinsRefuse(index: PinIndex, attributes: AttributeSet, value: AttributeSet,
                            conflictsWith: PinAttributes.ConflictRule)
    requires index in InputOnlyPins
    requires PinAttributes.Output in value || PinAttributes.PullUp in value || PinAttributes.PullDown in value
    ensures ConfigureCheck(index, GetDefaultCapabilities(index), attributes, value, conflictsWith)
            == Fail(CapabilityMismatch(index, value))
  {
  }

  /**
   * A pin built without "pu", "pd" or "low" accepts any request its
   * capabilities allow, under any conflict rule by which nothing conflicts
   * with an empty attribute set.
   */
  lemma UnconfiguredPinAccepts(index: PinIndex, options: seq<string>, attributes: AttributeSet,
                               value: AttributeSet, conflictsWith: PinAttributes.ConflictRule)
    requires PinAttributes.NoConflictWithNone(conflictsWith)
    requires RequestedBy(options, attributes)
    requires "pu" !in options && "pd" !in options && "low" !in options
    requires PinAttributes.ValidateWith(value, GetDefaultCapabilities(index))
    ensures ConfigureCheck(index, GetDefaultCapabilities(index), attributes, value, conflictsWith) == Pass
  {
    assert attributes == {};
  }

  /**
   * Only the requested mode is validated: a pull-up given as an option on an
   * input-only pin, which has no pull-up, still reaches the mode word.
   */
  lemma OptionPullSkipsValidation(conflictsWith: PinAttributes.ConflictRule)
    requires !conflictsWith({PinAttributes.PullUp}, {PinAttributes.Input})
    ensures PinCapabilities.PullUp !in GetDefaultCapabilities(34)
    ensures ConfigureCheck(34, GetDefaultCapabilities(34), {PinAttributes.PullUp}, {PinAttributes.Input}, conflictsWith) == Pass
    ensures PinModeValue({PinAttributes.PullUp}, {PinAttributes.Input}) == INPUT | PULLUP
  {
  }

  // ---------------------------------------------------------------------------
  // Option lists

  /** Appending "high" to an option list changes nothing it requests. */
  lemma HighAddsNothing(options: seq<string>, attrs: AttributeSet)
    ensures RequestedBy(options + ["high"], attrs) <==> RequestedBy(options, attrs)
  {
  }

  /** Every option list names exactly one attribute set. */
  lemma RequestedByIsFunctional(options: seq<string>, a1: AttributeSet, a2: AttributeSet)
    requires RequestedBy(options, a1) && RequestedBy(options, a2)
    ensures a1 == a2
  {
  }

  // ---------------------------------------------------------------------------
  // Names

  /** Two pins with different numbers have different names. */
  lemma NamesAreDistinct(p: GPIOPinDetail, q: GPIOPinDetail)
    requires p.index != q.index
    ensures p.ToString() != q.ToString()
  {
  }

}
