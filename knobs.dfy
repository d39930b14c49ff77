/** Knobs: named scalar parameters with a range (ELRangedKnob) and a stored
    real value (ELFloatKnob), optionally linked to another knob and
    optionally modulated by an oscillator. Values are reals, not floats. */
module Knobs {

  /** ELOscillator: a periodic modulation source. Its waveform and sampling are
      not part of this model; only whether it is enabled is. */
  class Oscillator {
    var enabled: bool
  }

  /** ELIntegerKnob: held by the note tool; its behaviour is not part of this model. */
  class IntegerKnob {
  }

  /** Brings v into [lo, hi], testing the lower bound first. */
  function Clamp(v: real, lo: real, hi: real): (r: real)
    ensures lo <= hi ==> lo <= r <= hi
    ensures lo <= hi ==> (r == v <==> lo <= v <= hi)
    ensures v < lo ==> r == lo
    ensures lo <= v && hi < v ==> r == hi
  {
    if v < lo then lo else if v > hi then hi else v
  }

  /** ELRangedKnob, together with the attributes its designated initialiser
      records for its ELKnob part (link, enabled, linkValue, oscillator). The
      link targets a float knob, the only value-carrying knob modelled. */
  class RangedKnob {
    const name: string
    var minimum: real
    var maximum: real
    var stepping: real
    const linkedKnob: FloatKnob?
    const enabled: bool
    const linkValue: bool
    const oscillator: Oscillator?

    /** initWithName:minimum:maximum:stepping:linkedKnob:enabled:linkValue:oscillator: */
    constructor Init(name: string, minimum: real, maximum: real, stepping: real,
                     linkedKnob: FloatKnob?, enabled: bool, linkValue: bool, oscillator: Oscillator?)
      ensures this.name == name
      ensures this.minimum == minimum && this.maximum == maximum && this.stepping == stepping
      ensures this.linkedKnob == linkedKnob && this.enabled == enabled
      ensures this.linkValue == linkValue && this.oscillator == oscillator
    {
      this.name := name;
      this.minimum, this.maximum, this.stepping := minimum, maximum, stepping;
      this.linkedKnob := linkedKnob;
      this.enabled := enabled;
      this.linkValue := linkValue;
      this.oscillator := oscillator;
    }

    /** initWithName:minimum:maximum:stepping: — no link and no oscillator;
        the header leaves enabled and linkValue to the implementation. */
    constructor (name: string, minimum: real, maximum: real, stepping: real)
      ensures this.name == name
      ensures this.minimum == minimum && this.maximum == maximum && this.stepping == stepping
      ensures linkedKnob == null && oscillator == null
    {
      this.name := name;
      this.minimum, this.maximum, this.stepping := minimum, maximum, stepping;
      linkedKnob := null;
      oscillator := null;
    }

    method SetMinimum(minimum: real)
      modifies this`minimum
      ensures this.minimum == minimum
    {
      this.minimum := minimum;
    }

    method SetMaximum(maximum: real)
      modifies this`maximum
      ensures this.maximum == maximum
    {
      this.maximum := maximum;
    }

    method SetStepping(stepping: real)
      modifies this`stepping
      ensures this.stepping == stepping
    {
      this.stepping := stepping;
    }

    /** setMinimum:maximum:stepping: — all three fields in one step. */
    method SetRange(minimum: real, maximum: real, stepping: real)
      modifies this`minimum, this`maximum, this`stepping
      ensures this.minimum == minimum && this.maximum == maximum && this.stepping == stepping
    {
      this.minimum, this.maximum, this.stepping := minimum, maximum, stepping;
    }
  }

  /** ELFloatKnob: a ranged knob (the object `ranged`) with a stored value.
      `Chain` is the set of knobs reached by following links from this one. */
  class FloatKnob {
    const ranged: RangedKnob
    var value: real
    ghost const Chain: set<FloatKnob>

    /** The link chain ends: this knob is not on it, and every knob on it is
        well formed. Holds in every heap, since it reads only constants. */
    ghost predicate Valid()
      decreases Chain + {this}
    {
      this !in Chain &&
      if ranged.linkedKnob == null then Chain == {}
      else
        var k := ranged.linkedKnob;
        Chain == {k} + k.Chain && k.Valid()
    }

    /** True when reads of this knob go to the linked knob. */
    predicate ReadsThrough() {
      ranged.linkedKnob != null && ranged.linkValue
    }

    /** initWithName:floatValue:minimum:maximum:stepping:linkedKnob:enabled:linkValue:oscillator: */
    constructor Init(name: string, value: real, minimum: real, maximum: real, stepping: real,
                     knob: FloatKnob?, enabled: bool, linkValue: bool, oscillator: Oscillator?)
      requires knob != null ==> knob.Valid()
      ensures Valid() && fresh(ranged)
      ensures this.value == value && ranged.name == name
      ensures ranged.minimum == minimum && ranged.maximum == maximum && ranged.stepping == stepping
      ensures ranged.linkedKnob == knob && ranged.enabled == enabled
      ensures ranged.linkValue == linkValue && ranged.oscillator == oscillator
    {
      ranged := new RangedKnob.Init(name, minimum, maximum, stepping, knob, enabled, linkValue, oscillator);
      this.value := value;
      Chain := if knob == null then {} else {knob} + knob.Chain;
    }

    /** initWithName:floatValue:minimum:maximum:stepping: — no link, no oscillator. */
    constructor (name: string, value: real, minimum: real, maximum: real, stepping: real)
      ensures Valid() && fresh(ranged)
      ensures this.value == value && ranged.name == name
      ensures ranged.minimum == minimum && ranged.maximum == maximum && ranged.stepping == stepping
      ensures ranged.linkedKnob == null && ranged.oscillator == null
      ensures Value() == value
    {
      ranged := new RangedKnob(name, minimum, maximum, stepping);
      this.value := value;
      Chain := {};
    }

    /** initWithName:linkedToFloatKnob: — reads go to `knob`; the range,
        enabled flag and starting value are taken from it. */
    constructor LinkedTo(name: string, knob: FloatKnob)
      requires knob.Valid()
      ensures Valid() && fresh(ranged)
      ensures ranged.name == name && ranged.linkedKnob == knob && ranged.linkValue
      ensures ranged.oscillator == null
      ensures ranged.minimum == knob.ranged.minimum && ranged.maximum == knob.ranged.maximum
      ensures ranged.stepping == knob.ranged.stepping && ranged.enabled == knob.ranged.enabled
      ensures value == knob.Value() && Value() == knob.Value()
    {
      var v := knob.Value();
      ranged := new RangedKnob.Init(name, knob.ranged.minimum, knob.ranged.maximum, knob.ranged.stepping,
                                    knob, knob.ranged.enabled, true, null);
      value := v;
      Chain := {knob} + knob.Chain;
    }

    /** value: the stored value, or the linked knob's value when reading through. */
    function Value(): (r: real)
      requires Valid()
      reads this, Chain
      decreases Chain + {this}
      ensures r == value || exists k :: k in Chain && r == k.value
    {
      if ReadsThrough() then ranged.linkedKnob.Value() else value
    }

    /** setValue: stores v clamped into the knob's range. */
    method SetValue(v: real)
      requires Valid()
      modifies this`value
      ensures value == Clamp(v, ranged.minimum, ranged.maximum)
      ensures ranged.minimum <= ranged.maximum ==> ranged.minimum <= value <= ranged.maximum
      ensures !ReadsThrough() ==> Value() == value
    {
      value := Clamp(v, ranged.minimum, ranged.maximum);
    }

    /** dynamicValue: — v modulated by the knob's oscillator. The oscillator's
        current output is the parameter `sample`, since sampling is not modelled. */
    function DynamicValueOf(v: real, sample: real): (r: real)
      reads ranged, ranged.oscillator
      ensures ranged.oscillator == null || !ranged.oscillator.enabled ==> r == v
      ensures ranged.oscillator != null && ranged.oscillator.enabled && ranged.minimum <= ranged.maximum ==>
                ranged.minimum <= r <= ranged.maximum
    {
      if ranged.oscillator != null && ranged.oscillator.enabled
      then Clamp(v + sample, ranged.minimum, ranged.maximum)
      else v
    }

    /** dynamicValue: the knob's value passed through dynamicValue:. */
    function DynamicValue(sample: real): (r: real)
      requires Valid()
      reads this, Chain, ranged, ranged.oscillator
      ensures ranged.oscillator == null ==> r == Value()
    {
      DynamicValueOf(Value(), sample)
    }
  }

  /** Every knob on a link chain is itself well formed and has a strictly
      shorter chain, so no knob is on its own chain and resolution ends. */
  lemma {:induction false} ChainWellFounded(k: FloatKnob)
    requires k.Valid()
    ensures forall j :: j in k.Chain ==> j.Valid() && j !in j.Chain && j.Chain < k.Chain
    decreases k.Chain
  {
    if k.ranged.linkedKnob != null {
      var n := k.ranged.linkedKnob;
      ChainWellFounded(n);
    }
  }

  /** A knob that reads through its link reports whatever the linked knob
      reports, in every state: a change to the linked knob is seen. */
  lemma LinkedReadsThrough(a: FloatKnob)
    requires a.Valid() && a.ReadsThrough()
    ensures a.ranged.linkedKnob.Valid() && a.Value() == a.ranged.linkedKnob.Value()
  {
  }
}
