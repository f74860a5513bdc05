/** The Dropout concern of src/Networks/Concerns/Dropout.php, as written.
    setDropouts(l) either refills the mask `dropouts[l]` with 1.0 (no drop
    probability, or the last layer), or runs a loop that writes sampled values
    into a different property, `dropout`, bounded by `k < structure[k]`. The
    mask the forward pass multiplies by is therefore never anything but ones;
    the functions here describe both branches exactly. */
module Dropout {
  import opened Helpers

  /** The condition of the then-branch: PHP's `!p` holds exactly for p == 0,
      and the last layer never drops. */
  predicate Disabled(structure: seq<nat>, dropProbabilities: seq<real>, l: nat)
    requires l < |dropProbabilities|
  {
    dropProbabilities[l] == 0.0 || l == |structure| - 1
  }

  /** The mask `dropouts[l]` after setDropouts(l). */
  function MaskAfter(structure: seq<nat>, dropProbabilities: seq<real>, mask: seq<real>, l: nat): seq<real>
    requires l < |structure| && l < |dropProbabilities|
  {
    if Disabled(structure, dropProbabilities, l) then Fill(structure[l], 1.0) else mask
  }

  /** Where the else-branch loop `for (k = 0; k < structure[k]; k++)` stops,
      counting from k: the first index whose width is at most the index, or
      |structure|, where the read past the end yields null and the comparison
      is false. */
  function StrayBound(structure: seq<nat>, k: nat): (r: nat)
    requires k <= |structure|
    ensures k <= r <= |structure|
    ensures forall i | k <= i < r :: i < structure[i]
    ensures r < |structure| ==> structure[r] <= r
    decreases |structure| - k
  {
    if k < |structure| && k < structure[k] then StrayBound(structure, k + 1) else k
  }

  /** The else-branch samples for layer l: it is taken and its loop runs at least once. */
  predicate Samples(structure: seq<nat>, dropProbabilities: seq<real>, l: nat)
    requires l < |dropProbabilities|
  {
    !Disabled(structure, dropProbabilities, l) && StrayBound(structure, 0) > 0
  }

  /** binary_rand(p) requires 0 <= p <= 1: every layer below n that samples
      has a drop probability in that range. */
  predicate ProbabilitiesUsable(structure: seq<nat>, dropProbabilities: seq<real>, n: int)
  {
    forall l: nat | 1 <= l < n && l < |dropProbabilities| ::
      Samples(structure, dropProbabilities, l) ==> 0.0 <= dropProbabilities[l] <= 1.0
  }

  /** One sampled factor, `binary_rand(p) ? 1.0 / p : 0.0`. The drop
      probability p is passed where binary_rand expects the probability of a 1. */
  function DrawnValue(p: real, draw: Uniform): (v: real)
    requires 0.0 < p <= 1.0
    ensures v == 0.0 || v * p == 1.0
    ensures v != 0.0 <==> draw <= p
  {
    if BinaryRand(p, draw) == 1 then 1.0 / p else 0.0
  }

  /** The entries the else-branch loop writes into `dropout[l]`, for every
      k below `bound`; u(l, k) is the uniform draw binary_rand makes there. */
  function StrayDraws(p: real, l: nat, u: (nat, nat) -> Uniform, bound: nat): map<nat, real>
    requires 0.0 < p <= 1.0
  {
    map k: nat | k < bound :: DrawnValue(p, u(l, k))
  }

  /** One more turn of the else-branch loop writes entry k of the row. */
  lemma StrayDrawsStep(row: map<nat, real>, p: real, l: nat, u: (nat, nat) -> Uniform, k: nat)
    requires 0.0 < p <= 1.0
    ensures (row + StrayDraws(p, l, u, k))[k := DrawnValue(p, u(l, k))] == row + StrayDraws(p, l, u, k + 1)
    ensures row + StrayDraws(p, l, u, 0) == row
  {
    var lhs := (row + StrayDraws(p, l, u, k))[k := DrawnValue(p, u(l, k))];
    var rhs := row + StrayDraws(p, l, u, k + 1);
    assert lhs.Keys == rhs.Keys;
    forall i | i in lhs.Keys
      ensures lhs[i] == rhs[i]
    {
    }
  }

  /** The row `dropout[l]`, or an empty array when it was never written. */
  function RowOf(dropout: map<nat, map<nat, real>>, l: nat): map<nat, real>
  {
    if l in dropout then dropout[l] else map[]
  }

  /** The property `dropout` after setDropouts(l). */
  function StrayAfter(structure: seq<nat>, dropProbabilities: seq<real>, dropout: map<nat, map<nat, real>>,
                      l: nat, u: (nat, nat) -> Uniform): map<nat, map<nat, real>>
    requires l < |structure| == |dropProbabilities|
    requires Samples(structure, dropProbabilities, l) ==> 0.0 <= dropProbabilities[l] <= 1.0
  {
    if Samples(structure, dropProbabilities, l) then
      dropout[l := RowOf(dropout, l) + StrayDraws(dropProbabilities[l], l, u, StrayBound(structure, 0))]
    else dropout
  }

  /** The property `dropout` after setDropouts(1), ..., setDropouts(n - 1). */
  function StraysBefore(structure: seq<nat>, dropProbabilities: seq<real>, dropout: map<nat, map<nat, real>>,
                        u: (nat, nat) -> Uniform, n: nat): map<nat, map<nat, real>>
    requires 1 <= n <= |structure| == |dropProbabilities|
    requires ProbabilitiesUsable(structure, dropProbabilities, n)
    decreases n
  {
    if n == 1 then dropout
    else StrayAfter(structure, dropProbabilities, StraysBefore(structure, dropProbabilities, dropout, u, n - 1), n - 1, u)
  }

  // ---- properties ----

  /** A mask that holds ones keeps holding ones: both branches leave
      `dropouts[l]` equal to array_fill(0, structure[l], 1.0). */
  lemma MaskStaysOnes(structure: seq<nat>, dropProbabilities: seq<real>, mask: seq<real>, l: nat)
    requires l < |structure| && l < |dropProbabilities|
    requires mask == Fill(structure[l], 1.0)
    ensures MaskAfter(structure, dropProbabilities, mask, l) == mask
    ensures forall k | 0 <= k < structure[l] :: MaskAfter(structure, dropProbabilities, mask, l)[k] == 1.0
  {
  }

  /** The then-branch divides nothing; the else-branch divides by a
      probability that is not zero, and entry k of row l is the draw made
      there, which DrawnValue shows is 0 or 1/p. */
  lemma {:induction false} StrayEntryIsDraw(structure: seq<nat>, dropProbabilities: seq<real>,
                                            dropout: map<nat, map<nat, real>>, l: nat, u: (nat, nat) -> Uniform, k: nat)
    requires l < |structure| == |dropProbabilities|
    requires Samples(structure, dropProbabilities, l) && 0.0 <= dropProbabilities[l] <= 1.0
    requires k < StrayBound(structure, 0)
    ensures dropProbabilities[l] != 0.0
    ensures var d := StrayAfter(structure, dropProbabilities, dropout, l, u);
      l in d && k in d[l] && d[l][k] == DrawnValue(dropProbabilities[l], u(l, k))
  {
    var p := dropProbabilities[l];
    var draws := StrayDraws(p, l, u, StrayBound(structure, 0));
    assert k in draws && draws[k] == DrawnValue(p, u(l, k));
    var row := RowOf(dropout, l) + draws;
    assert k in row && row[k] == draws[k];
  }

  /** setDropouts(l) writes no row of `dropout` other than row l. */
  lemma StrayAfterKeepsOtherRows(structure: seq<nat>, dropProbabilities: seq<real>,
                                 dropout: map<nat, map<nat, real>>, l: nat, u: (nat, nat) -> Uniform, i: nat)
    requires l < |structure| == |dropProbabilities|
    requires Samples(structure, dropProbabilities, l) ==> 0.0 <= dropProbabilities[l] <= 1.0
    requires i != l
    ensures i in StrayAfter(structure, dropProbabilities, dropout, l, u) <==> i in dropout
    ensures i in dropout ==> StrayAfter(structure, dropProbabilities, dropout, l, u)[i] == dropout[i]
  {
  }

  /** With an input width of 0 the else-branch loop never runs, so `dropout`
      is never written. */
  lemma {:induction false} EmptyInputNeverSamples(structure: seq<nat>, dropProbabilities: seq<real>,
                                                  dropout: map<nat, map<nat, real>>, u: (nat, nat) -> Uniform, n: nat)
    requires 1 <= n <= |structure| == |dropProbabilities|
    requires structure[0] == 0
    ensures ProbabilitiesUsable(structure, dropProbabilities, n)
    ensures StraysBefore(structure, dropProbabilities, dropout, u, n) == dropout
    decreases n
  {
    assert StrayBound(structure, 0) == 0;
    if n > 1 {
      EmptyInputNeverSamples(structure, dropProbabilities, dropout, u, n - 1);
    }
  }
}
