/** The activation strategies of src/Neurons: one constructor per class that
    implements the Neuron interface (activate, differentiate). */
module Neurons {
  import opened Maths

  datatype Neuron =
    | LinearNeuron
    | RectifierNeuron
    | SigmoidNeuron
      /** Constructor defaults as in TanhNeuron::__construct. */
    | TanhNeuron(max: real := 1.0, offset: real := 0.0)
      /** Declared as class SignNeuron in SinNeuron.php. */
    | SignNeuron(max: real := 1.0, offset: real := 0.0)
  {
    /** activate(x) */
    function Activate(m: Library, x: real): real
    {
      match this
      case LinearNeuron => x
      case RectifierNeuron => if 0.0 < x then x else 0.0
      case SigmoidNeuron => 1.0 / (1.0 + m.exp(-x))
      case TanhNeuron(max, offset) => max * (m.tanh(x) + offset)
      case SignNeuron(max, offset) => max * (m.sin(x) + offset)
    }

    /** differentiate(x): the derivative, taken at the pre-activation x. */
    function Differentiate(m: Library, x: real): real
    {
      match this
      case LinearNeuron => 1.0
      case RectifierNeuron => if x >= 0.0 then 1.0 else 0.0
      case SigmoidNeuron => Activate(m, x) * (1.0 - Activate(m, x))
      case TanhNeuron(max, _) => max * (1.0 - m.tanh(x) * m.tanh(x))
      case SignNeuron(max, _) => max * m.cos(x)
    }
  }

  // The lemmas below state each neuron's promises one by one. Most are
  // definitional and follow by unfolding Activate and Differentiate; only
  // SigmoidDerivativeBounds and TanhDerivativePositive need proofs of their own.

  // ---- LinearNeuron ----

  lemma LinearIsIdentity(m: Library, x: real)
    ensures LinearNeuron.Activate(m, x) == x
    ensures LinearNeuron.Differentiate(m, x) == 1.0
  {
  }

  lemma LinearIdempotent(m: Library, x: real)
    ensures LinearNeuron.Activate(m, LinearNeuron.Activate(m, x)) == LinearNeuron.Activate(m, x)
  {
  }

  lemma LinearStrictlyMonotone(m: Library, x: real, y: real)
    requires x < y
    ensures LinearNeuron.Activate(m, x) < LinearNeuron.Activate(m, y)
  {
  }

  // ---- RectifierNeuron ----

  /** activate is max(0, x): never negative, x itself from 0 up, 0 below. */
  lemma RectifierIsRamp(m: Library, x: real)
    ensures RectifierNeuron.Activate(m, x) >= 0.0
    ensures RectifierNeuron.Activate(m, x) >= x
    ensures x >= 0.0 ==> RectifierNeuron.Activate(m, x) == x
    ensures x < 0.0 ==> RectifierNeuron.Activate(m, x) == 0.0
  {
  }

  /** The derivative is the step function, 1 exactly from 0 up (0 included). */
  lemma RectifierDerivativeIsStep(m: Library, x: real)
    ensures RectifierNeuron.Differentiate(m, x) == 1.0 <==> x >= 0.0
    ensures RectifierNeuron.Differentiate(m, x) == 0.0 <==> x < 0.0
    ensures RectifierNeuron.Differentiate(m, 0.0) == 1.0
  {
  }

  /** activate(x) = differentiate(x) * x: the rectifier is its own slope times x. */
  lemma RectifierIsSlopeTimesInput(m: Library, x: real)
    ensures RectifierNeuron.Activate(m, x) == RectifierNeuron.Differentiate(m, x) * x
  {
  }

  lemma RectifierIdempotent(m: Library, x: real)
    ensures RectifierNeuron.Activate(m, RectifierNeuron.Activate(m, x)) == RectifierNeuron.Activate(m, x)
  {
  }

  // ---- SigmoidNeuron ----

  /** With exp positive, the sigmoid lies strictly between 0 and 1. */
  lemma SigmoidInUnitInterval(m: Library, x: real)
    ensures 0.0 < SigmoidNeuron.Activate(m, x) < 1.0
  {
    var e := m.exp(-x);
    assert e > 0.0;
    assert 1.0 + e > 1.0;
    assert SigmoidNeuron.Activate(m, x) == 1.0 / (1.0 + e);
  }

  /** The derivative is a * (1 - a) for a = activate(x), so it lies in (0, 1/4]. */
  lemma SigmoidDerivativeBounds(m: Library, x: real)
    ensures var a := SigmoidNeuron.Activate(m, x);
      SigmoidNeuron.Differentiate(m, x) == a * (1.0 - a)
    ensures 0.0 < SigmoidNeuron.Differentiate(m, x) <= 0.25
  {
    var a := SigmoidNeuron.Activate(m, x);
    SigmoidInUnitInterval(m, x);
    assert 0.0 < a * (1.0 - a);
    assert a * (1.0 - a) == 0.25 - (a - 0.5) * (a - 0.5);
  }

  // ---- TanhNeuron ----

  lemma TanhDefaults(m: Library, x: real)
    ensures TanhNeuron() == TanhNeuron(1.0, 0.0)
    ensures TanhNeuron().Activate(m, x) == m.tanh(x)
    ensures TanhNeuron().Differentiate(m, x) == 1.0 - m.tanh(x) * m.tanh(x)
  {
  }

  /** The derivative does not depend on the offset. */
  lemma TanhDerivativeIgnoresOffset(m: Library, max: real, offset1: real, offset2: real, x: real)
    ensures TanhNeuron(max, offset1).Differentiate(m, x) == TanhNeuron(max, offset2).Differentiate(m, x)
  {
  }

  /** With a positive scale and |tanh(x)| < 1 the derivative is positive. */
  lemma TanhDerivativePositive(m: Library, max: real, offset: real, x: real)
    requires max > 0.0
    requires -1.0 < m.tanh(x) < 1.0
    ensures TanhNeuron(max, offset).Differentiate(m, x) > 0.0
  {
    var t := m.tanh(x);
    assert 1.0 - t * t == (1.0 - t) * (1.0 + t);
    var d := 1.0 - t * t;
    assert d > 0.0 by {
      assert (1.0 - t) * (1.0 + t) > 0.0;
    }
    assert TanhNeuron(max, offset).Differentiate(m, x) == max * d;
    assert max * d > 0.0;
  }

  // ---- SignNeuron (SinNeuron.php) ----

  lemma SignDefaults(m: Library, x: real)
    ensures SignNeuron() == SignNeuron(1.0, 0.0)
    ensures SignNeuron().Activate(m, x) == m.sin(x)
    ensures SignNeuron().Differentiate(m, x) == m.cos(x)
  {
  }

  /** The derivative is max * cos(x) whatever the offset. */
  lemma SignDerivativeIgnoresOffset(m: Library, max: real, offset1: real, offset2: real, x: real)
    ensures SignNeuron(max, offset1).Differentiate(m, x) == SignNeuron(max, offset2).Differentiate(m, x)
    ensures SignNeuron(max, offset1).Differentiate(m, x) == max * m.cos(x)
  {
  }
}
