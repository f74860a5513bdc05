/** The loss strategies of src/Losses. The Loss interface becomes the datatype
    Loss, one constructor per implementing class; each class keeps its own
    loop-based loss and differentiate, proved against the functions below. */
module Losses {
  import opened Helpers
  import opened Maths
  import opened Neurons

  /** Σ_{i<n} (output[i] - answer[i])² / 2 / |output|, summed left to right as
      MeanSquareLoss::loss does. */
  function SquaredErrorSum(output: seq<real>, answer: seq<real>, n: nat): real
    requires n <= |output| <= |answer|
  {
    if n == 0 then 0.0
    else
      var d := output[n - 1] - answer[n - 1];
      SquaredErrorSum(output, answer, n - 1) + d * d / 2.0 / (|output| as real)
  }

  /** The mean-square loss of an output against an answer. */
  function MeanSquareValue(output: seq<real>, answer: seq<real>): real
    requires |output| <= |answer|
  {
    SquaredErrorSum(output, answer, |output|)
  }

  /** a·log(o) + (1 - a)·log(1 - o), the term one output entry subtracts. */
  function EntropyTerm(m: Library, o: real, a: real): real
  {
    a * m.log(o) + (1.0 - a) * m.log(1.0 - o)
  }

  /** The entropy terms of the first n output entries. */
  function EntropyTerms(m: Library, output: seq<real>, answer: seq<real>, n: nat): (t: seq<real>)
    requires n <= |output| <= |answer|
    ensures |t| == n
    ensures forall i | 0 <= i < n :: t[i] == EntropyTerm(m, output[i], answer[i])
  {
    if n == 0 then [] else EntropyTerms(m, output, answer, n - 1) + [EntropyTerm(m, output[n - 1], answer[n - 1])]
  }

  /** -Σ_{i<n} t[i], subtracted left to right. */
  function NegatedSum(t: seq<real>, n: nat): real
    requires n <= |t|
  {
    if n == 0 then 0.0 else NegatedSum(t, n - 1) - t[n - 1]
  }

  /** The cross-entropy loss: the entropy terms summed and negated, with no
      division by |output|. */
  function CrossEntropyValue(m: Library, output: seq<real>, answer: seq<real>): real
    requires |output| <= |answer|
  {
    NegatedSum(EntropyTerms(m, output, answer, |output|), |output|)
  }

  /** The output error both strategies return: output[k] - answer[k]. */
  function Residual(output: seq<real>, answer: seq<real>): (r: seq<real>)
    requires |output| <= |answer|
    ensures |r| == |output|
    ensures forall k | 0 <= k < |output| :: r[k] == output[k] - answer[k]
  {
    if |output| == 0 then []
    else
      var n := |output| - 1;
      Residual(output[..n], answer) + [output[n] - answer[n]]
  }

  class MeanSquareLoss {
    constructor ()
    {
    }

    /** loss(output, answer): a running sum over the output entries. */
    method Loss(output: seq<real>, answer: seq<real>) returns (loss: real)
      requires |output| <= |answer|
      ensures loss == MeanSquareValue(output, answer)
    {
      loss := 0.0;
      var n := 0;
      while n < |output|
        invariant 0 <= n <= |output|
        invariant loss == SquaredErrorSum(output, answer, n)
      {
        var d := output[n] - answer[n];
        loss := loss + d * d / 2.0 / (|output| as real);
        n := n + 1;
      }
    }

    /** differentiate(output, answer): appends one entry per output. */
    method Differentiate(output: seq<real>, answer: seq<real>) returns (error: seq<real>)
      requires |output| <= |answer|
      ensures error == Residual(output, answer)
    {
      error := [];
      var k := 0;
      while k < |output|
        invariant 0 <= k <= |output|
        invariant error == Residual(output[..k], answer)
      {
        error := error + [output[k] - answer[k]];
        k := k + 1;
      }
      assert output[..k] == output;
    }
  }

  class CrossEntropyLoss {
    /** The output layer's neuron; stored, and read by neither loss nor differentiate. */
    var neuron: Option<Neuron>

    constructor ()
      ensures neuron == None
    {
      neuron := None;
    }

    method SetNeuron(n: Neuron)
      modifies this
      ensures neuron == Some(n)
    {
      neuron := Some(n);
    }

    /** loss(output, answer): a running sum over the output entries. */
    method Loss(m: Library, output: seq<real>, answer: seq<real>) returns (loss: real)
      requires |output| <= |answer|
      ensures loss == CrossEntropyValue(m, output, answer)
    {
      loss := 0.0;
      var n := 0;
      while n < |output|
        invariant 0 <= n <= |output|
        invariant loss == NegatedSum(EntropyTerms(m, output, answer, |output|), n)
      {
        var term := EntropyTerm(m, output[n], answer[n]);
        loss := loss - term;
        n := n + 1;
      }
    }

    /** differentiate(output, answer): appends one entry per output. */
    method Differentiate(output: seq<real>, answer: seq<real>) returns (error: seq<real>)
      requires |output| <= |answer|
      ensures error == Residual(output, answer)
    {
      error := [];
      var k := 0;
      while k < |output|
        invariant 0 <= k <= |output|
        invariant error == Residual(output[..k], answer)
      {
        error := error + [output[k] - answer[k]];
        k := k + 1;
      }
      assert output[..k] == output;
    }
  }

  /** Which of the two strategies computes a loss: neither loss nor
      differentiate reads any state of the strategy object. */
  datatype LossKind = MeanSquare | CrossEntropy
  {
    function Value(m: Library, output: seq<real>, answer: seq<real>): real
      requires |output| <= |answer|
    {
      match this
      case MeanSquare => MeanSquareValue(output, answer)
      case CrossEntropy => CrossEntropyValue(m, output, answer)
    }

    function Differentiate(output: seq<real>, answer: seq<real>): seq<real>
      requires |output| <= |answer|
    {
      Residual(output, answer)
    }
  }

  /** The Loss interface: a network holds one of the two strategy objects. */
  datatype Loss =
    | MeanSquareObject(meanSquare: MeanSquareLoss)
    | CrossEntropyObject(crossEntropy: CrossEntropyLoss)
  {
    function Kind(): LossKind
    {
      match this
      case MeanSquareObject(_) => MeanSquare
      case CrossEntropyObject(_) => CrossEntropy
    }
  }

  /** Dispatch of loss() on the strategy object. */
  method ComputeLoss(loss: Loss, m: Library, output: seq<real>, answer: seq<real>) returns (v: real)
    requires |output| <= |answer|
    ensures v == loss.Kind().Value(m, output, answer)
  {
    match loss
    case MeanSquareObject(o) => v := o.Loss(output, answer);
    case CrossEntropyObject(o) => v := o.Loss(m, output, answer);
  }

  /** Dispatch of differentiate() on the strategy object. */
  method ComputeError(loss: Loss, output: seq<real>, answer: seq<real>) returns (e: seq<real>)
    requires |output| <= |answer|
    ensures e == loss.Kind().Differentiate(output, answer)
  {
    match loss
    case MeanSquareObject(o) => e := o.Differentiate(output, answer);
    case CrossEntropyObject(o) => e := o.Differentiate(output, answer);
  }

  // ---- properties ----

  /** The error vector is zero exactly where the output meets the answer. */
  lemma {:induction false} ResidualZeroIffMatch(output: seq<real>, answer: seq<real>)
    requires |output| <= |answer|
    ensures output == answer[..|output|] ==> forall k | 0 <= k < |output| :: Residual(output, answer)[k] == 0.0
    ensures (forall k | 0 <= k < |output| :: Residual(output, answer)[k] == 0.0) ==> output == answer[..|output|]
  {
    var r, n := Residual(output, answer), |output|;
    if output == answer[..n] {
      forall k | 0 <= k < n
        ensures r[k] == 0.0
      {
        assert output[k] == answer[..n][k];
      }
    }
    if forall k | 0 <= k < n :: r[k] == 0.0 {
      forall k | 0 <= k < n
        ensures output[k] == answer[..n][k]
      {
        assert r[k] == output[k] - answer[k];
      }
      assert output == answer[..n];
    }
  }

  lemma {:induction false} SquaredErrorSumOfMatch(output: seq<real>, answer: seq<real>, n: nat)
    requires n <= |output| <= |answer|
    requires forall i | 0 <= i < n :: output[i] == answer[i]
    ensures SquaredErrorSum(output, answer, n) == 0.0
  {
    if n > 0 {
      SquaredErrorSumOfMatch(output, answer, n - 1);
    }
  }

  /** loss(o, o) == 0 for the mean-square loss. */
  lemma MeanSquareOfExactOutput(output: seq<real>)
    ensures MeanSquareValue(output, output) == 0.0
  {
    SquaredErrorSumOfMatch(output, output, |output|);
  }

  lemma {:induction false} SquaredErrorSumNonNegative(output: seq<real>, answer: seq<real>, n: nat)
    requires n <= |output| <= |answer|
    ensures SquaredErrorSum(output, answer, n) >= 0.0
  {
    if n > 0 {
      SquaredErrorSumNonNegative(output, answer, n - 1);
      var d := output[n - 1] - answer[n - 1];
      assert d * d >= 0.0;
      assert d * d / 2.0 / (|output| as real) >= 0.0;
    }
  }

  /** The mean-square loss is never negative. */
  lemma MeanSquareNonNegative(output: seq<real>, answer: seq<real>)
    requires |output| <= |answer|
    ensures MeanSquareValue(output, answer) >= 0.0
  {
    SquaredErrorSumNonNegative(output, answer, |output|);
  }

  /** An empty output costs nothing and has an empty error vector, for both strategies. */
  lemma EmptyOutput(loss: LossKind, m: Library, answer: seq<real>)
    ensures loss.Value(m, [], answer) == 0.0
    ensures loss.Differentiate([], answer) == []
  {
  }

  lemma {:induction false} NegatedSumPrefix(t: seq<real>, u: seq<real>, n: nat)
    requires n <= |t| && n <= |u| && t[..n] == u[..n]
    ensures NegatedSum(t, n) == NegatedSum(u, n)
  {
    if n > 0 {
      assert t[..n - 1] == t[..n][..n - 1] && u[..n - 1] == u[..n][..n - 1];
      assert t[n - 1] == t[..n][n - 1] && u[n - 1] == u[..n][n - 1];
      NegatedSumPrefix(t, u, n - 1);
    }
  }

  lemma {:induction false} NegatedSumAppend(t1: seq<real>, t2: seq<real>, n: nat)
    requires n <= |t2|
    ensures NegatedSum(t1 + t2, |t1| + n) == NegatedSum(t1, |t1|) + NegatedSum(t2, n)
  {
    if n == 0 {
      assert (t1 + t2)[..|t1|] == t1[..|t1|];
      NegatedSumPrefix(t1 + t2, t1, |t1|);
    } else {
      NegatedSumAppend(t1, t2, n - 1);
      assert (t1 + t2)[|t1| + n - 1] == t2[n - 1];
    }
  }

  /** The entropy terms of two outputs side by side are the two lists of terms joined. */
  lemma {:induction false} EntropyTermsAppend(m: Library, o1: seq<real>, a1: seq<real>, o2: seq<real>, a2: seq<real>)
    requires |o1| == |a1| && |o2| == |a2|
    ensures EntropyTerms(m, o1 + o2, a1 + a2, |o1 + o2|) == EntropyTerms(m, o1, a1, |o1|) + EntropyTerms(m, o2, a2, |o2|)
  {
    var t, t1, t2 := EntropyTerms(m, o1 + o2, a1 + a2, |o1 + o2|), EntropyTerms(m, o1, a1, |o1|), EntropyTerms(m, o2, a2, |o2|);
    forall i | 0 <= i < |t|
      ensures t[i] == (t1 + t2)[i]
    {
      if i < |o1| {
        assert (o1 + o2)[i] == o1[i] && (a1 + a2)[i] == a1[i];
      } else {
        assert (o1 + o2)[i] == o2[i - |o1|] && (a1 + a2)[i] == a2[i - |o1|];
      }
    }
  }

  /** The cross-entropy is a plain sum, not divided by |output|: the loss of two
      output vectors side by side is the sum of their losses. */
  lemma {:induction false} CrossEntropyIsAdditive(m: Library, o1: seq<real>, a1: seq<real>, o2: seq<real>, a2: seq<real>)
    requires |o1| == |a1| && |o2| == |a2|
    ensures CrossEntropyValue(m, o1 + o2, a1 + a2) == CrossEntropyValue(m, o1, a1) + CrossEntropyValue(m, o2, a2)
  {
    EntropyTermsAppend(m, o1, a1, o2, a2);
    NegatedSumAppend(EntropyTerms(m, o1, a1, |o1|), EntropyTerms(m, o2, a2, |o2|), |o2|);
  }

  /** The cross-entropy of one output entry is -[a·log(o) + (1-a)·log(1-o)]. */
  lemma {:induction false} CrossEntropySingle(m: Library, o: real, a: real)
    ensures CrossEntropyValue(m, [o], [a]) == -(a * m.log(o) + (1.0 - a) * m.log(1.0 - o))
  {
    var terms := EntropyTerms(m, [o], [a], 1);
    assert terms[0] == EntropyTerm(m, o, a);
    assert NegatedSum(terms, 1) == NegatedSum(terms, 0) - terms[0];
  }
}
