/** What train() and test() of src/Networks/Network.php make of the network,
    as folds over the samples they visit, and what the folds mean: the loss
    they return adds up per-sample losses of the function the parameters
    define, which no earlier pass over the network changes. */
module Training {
  import opened Helpers
  import opened Maths
  import opened Losses
  import opened Dropout
  import opened Propagation

  /** The dropout draws of each sample's forward pass, in visiting order. */
  type Draws = seq<(nat, nat) -> Uniform>

  /** loss() of a strategy, as a function of an output and an answer. */
  type Cost = (Vector, Vector) -> real

  /** The network's loss strategy as a Cost: its loss() wherever the answer
      is at least as wide as the output, the only place it is ever applied. */
  function LossOf(loss: LossKind, m: Library): Cost
  {
    (o: Vector, y: Vector) => if |o| <= |y| then loss.Value(m, o, y) else 0.0
  }

  /** What a pass over the samples (X, Y) needs: a network that runs, arrays
      of the layer widths, inputs as wide as the input layer and answers at
      least as wide as the output layer (anything narrower would read
      undefined offsets). */
  predicate CanTest(s: Setup, p: Parameters, a: Activations, X: seq<Vector>, Y: seq<Vector>)
  {
    && s.Runs()
    && ParametersShaped(s.structure, p) && ActivationsShaped(s.structure, a)
    && |X| == |Y|
    && forall n | 0 <= n < |X| :: |X[n]| == s.structure[0] && |Y[n]| >= s.structure[s.numberOfLayers - 1]
  }

  /** What train() needs besides: something to propagate backward through,
      a non-zero batch size and gradients of the layer widths. */
  predicate CanTrain(s: Setup, p: Parameters, a: Activations, g: Gradients, X: seq<Vector>, Y: seq<Vector>)
  {
    && CanTest(s, p, a, X, Y)
    && s.numberOfLayers >= 2 && s.batchSize != 0
    && GradientsShaped(s.structure, g)
  }

  /** Every entry of `order` is the index of a sample. */
  predicate Indexes(order: seq<nat>, n: nat)
  {
    forall i | 0 <= i < |order| :: order[i] < n
  }

  // ---- train ----

  /** The arrays, the `dropout` property and the running loss while train()
      goes through its samples. */
  datatype Pass = Pass(a: Activations, g: Gradients, d: map<nat, map<nat, real>>, loss: real)

  /** Sample order[i]: forwardPropagate, backwardPropagate, and its loss
      divided by batchSize added to the running loss. */
  function TrainStep(s: Setup, p: Parameters, loss: LossKind, cost: Cost, X: seq<Vector>, Y: seq<Vector>,
                     order: seq<nat>, draws: Draws, r: Pass, i: nat): (r': Pass)
    requires CanTrain(s, p, r.a, r.g, X, Y)
    requires i < |order| && i < |draws| && order[i] < |X|
    ensures CanTrain(s, p, r'.a, r'.g, X, Y)
  {
    var n, L := order[i], s.numberOfLayers - 1;
    var b := Forward(s, p, r.a, X[n]);
    Pass(b, Backward(s, p, b, r.g, loss, Y[n]),
         StraysBefore(s.structure, s.dropProbabilities, r.d, draws[i], s.numberOfLayers),
         r.loss + Share(cost(b.outputs[L], Y[n]), s.batchSize as real))
  }

  /** train()'s state once it has gone through the first k samples of `order`. */
  function TrainedOn(s: Setup, p: Parameters, loss: LossKind, cost: Cost, X: seq<Vector>, Y: seq<Vector>,
                     order: seq<nat>, draws: Draws, start: Pass, k: nat): (r: Pass)
    requires CanTrain(s, p, start.a, start.g, X, Y)
    requires k <= |order| && k <= |draws| && Indexes(order, |X|)
    ensures CanTrain(s, p, r.a, r.g, X, Y)
    decreases k, 1
  {
    if k == 0 then start else TrainedAfter(s, p, loss, cost, X, Y, order, draws, start, k - 1)
  }

  /** train()'s state right after sample order[i]. */
  function TrainedAfter(s: Setup, p: Parameters, loss: LossKind, cost: Cost, X: seq<Vector>, Y: seq<Vector>,
                        order: seq<nat>, draws: Draws, start: Pass, i: nat): (r: Pass)
    requires CanTrain(s, p, start.a, start.g, X, Y)
    requires i < |order| && i < |draws| && Indexes(order, |X|)
    ensures CanTrain(s, p, r.a, r.g, X, Y)
    decreases i + 1, 0
  {
    TrainStep(s, p, loss, cost, X, Y, order, draws, TrainedOn(s, p, loss, cost, X, Y, order, draws, start, i), i)
  }

  /** The state after k samples is one step from the state after k - 1. */
  lemma TrainedOnStep(s: Setup, p: Parameters, loss: LossKind, cost: Cost, X: seq<Vector>, Y: seq<Vector>,
                      order: seq<nat>, draws: Draws, start: Pass, k: nat)
    requires CanTrain(s, p, start.a, start.g, X, Y)
    requires 0 < k <= |order| && k <= |draws| && Indexes(order, |X|)
    ensures TrainedOn(s, p, loss, cost, X, Y, order, draws, start, k)
      == TrainStep(s, p, loss, cost, X, Y, order, draws, TrainedOn(s, p, loss, cost, X, Y, order, draws, start, k - 1), k - 1)
  {
    assert TrainedOn(s, p, loss, cost, X, Y, order, draws, start, k) == TrainedAfter(s, p, loss, cost, X, Y, order, draws, start, k - 1);
  }

  /** How many of n samples train() goes through: it stops once its count
      reaches batchSize, so after the first sample when batchSize < 1, and
      otherwise when the samples run out. Trained is the state after Processed
      samples, and Networks.TrainLoopOf, the loop with its count and break, is
      proved to leave Trained. */
  function Processed(n: nat, batchSize: int): (k: nat)
    ensures k <= n && (n >= 1 ==> k >= 1)
    ensures 1 <= batchSize <= n ==> k == batchSize
    ensures batchSize > n ==> k == n
    ensures batchSize < 1 && n >= 1 ==> k == 1
  {
    if batchSize > n then n
    else if batchSize < 1 then (if n == 0 then 0 else 1)
    else batchSize
  }

  /** Whether train() on n samples reaches batchSize and calls update(). */
  predicate Updates(n: nat, batchSize: int)
  {
    1 <= n && batchSize <= n
  }


  /** What train() leaves: the parameters (updated when the count reached
      batchSize) and the state after the processed samples, its gradient
      sums zeroed by update(). */
  function Trained(s: Setup, p: Parameters, loss: LossKind, cost: Cost, X: seq<Vector>, Y: seq<Vector>,
                   order: seq<nat>, draws: Draws, start: Pass): (Parameters, Pass)
    requires CanTrain(s, p, start.a, start.g, X, Y)
    requires |order| == |X| == |draws| && Indexes(order, |X|)
  {
    var t := TrainedOn(s, p, loss, cost, X, Y, order, draws, start, Processed(|X|, s.batchSize));
    if Updates(|X|, s.batchSize) then (Update(s, p, t.g), t.(g := ZeroGradients(s, t.g))) else (p, t)
  }


  /** When train()'s count first reaches batchSize after `count` samples,
      it has updated the parameters with the gradient sums of those samples. */
  lemma TrainedStopsAt(s: Setup, p: Parameters, loss: LossKind, cost: Cost, X: seq<Vector>, Y: seq<Vector>,
                       order: seq<nat>, draws: Draws, start: Pass, count: nat)
    requires CanTrain(s, p, start.a, start.g, X, Y)
    requires |order| == |X| == |draws| && Indexes(order, |X|)
    requires 1 <= count <= |X| && s.batchSize <= count && (count == 1 || count - 1 < s.batchSize)
    ensures var t := TrainedOn(s, p, loss, cost, X, Y, order, draws, start, count);
      Trained(s, p, loss, cost, X, Y, order, draws, start) == (Update(s, p, t.g), t.(g := ZeroGradients(s, t.g)))
  {
  }

  /** When the samples run out before the count reaches batchSize, train()
      has gone through all of them and left the parameters alone. */
  lemma TrainedRunsOut(s: Setup, p: Parameters, loss: LossKind, cost: Cost, X: seq<Vector>, Y: seq<Vector>,
                       order: seq<nat>, draws: Draws, start: Pass)
    requires CanTrain(s, p, start.a, start.g, X, Y)
    requires |order| == |X| == |draws| && Indexes(order, |X|)
    requires |X| == 0 || |X| < s.batchSize
    ensures Trained(s, p, loss, cost, X, Y, order, draws, start) == (p, TrainedOn(s, p, loss, cost, X, Y, order, draws, start, |X|))
  {
  }

  /** One sample's share of a total: its value divided by batchSize (train)
      or by the number of samples (test). */
  function Share(x: real, divisor: real): real
    requires divisor != 0.0
  {
    x / divisor
  }

  // ---- test ----

  /** The arrays, the `dropout` property and the running loss and validity
      while test() goes through its samples. */
  datatype Trial = Trial(a: Activations, d: map<nat, map<nat, real>>, loss: real, validity: real)

  /** Sample n: forwardPropagate, then its loss and, when a validator is
      given, its validation value, each divided by the number of samples. */
  function TestStep(s: Setup, p: Parameters, cost: Cost, validator: Option<(Vector, Vector) -> real>,
                    X: seq<Vector>, Y: seq<Vector>, draws: Draws, r: Trial, n: nat): (r': Trial)
    requires CanTest(s, p, r.a, X, Y) && n < |X| && n < |draws|
    ensures CanTest(s, p, r'.a, X, Y)
  {
    var L, N := s.numberOfLayers - 1, |Y| as real;
    var b := Forward(s, p, r.a, X[n]);
    Trial(b, StraysBefore(s.structure, s.dropProbabilities, r.d, draws[n], s.numberOfLayers),
          r.loss + Share(cost(b.outputs[L], Y[n]), N),
          if validator.Some? then r.validity + Share(validator.value(b.outputs[L], Y[n]), N) else r.validity)
  }

  /** test()'s state once it has gone through samples 0 .. k-1. */
  function TrialOn(s: Setup, p: Parameters, cost: Cost, validator: Option<(Vector, Vector) -> real>,
                    X: seq<Vector>, Y: seq<Vector>, draws: Draws, start: Trial, k: nat): (r: Trial)
    requires CanTest(s, p, start.a, X, Y) && k <= |X| && k <= |draws|
    ensures CanTest(s, p, r.a, X, Y)
    decreases k, 1
  {
    if k == 0 then start else TrialAfter(s, p, cost, validator, X, Y, draws, start, k - 1)
  }

  /** test()'s state right after sample n. */
  function TrialAfter(s: Setup, p: Parameters, cost: Cost, validator: Option<(Vector, Vector) -> real>,
                       X: seq<Vector>, Y: seq<Vector>, draws: Draws, start: Trial, n: nat): (r: Trial)
    requires CanTest(s, p, start.a, X, Y) && n < |X| && n < |draws|
    ensures CanTest(s, p, r.a, X, Y)
    decreases n + 1, 0
  {
    TestStep(s, p, cost, validator, X, Y, draws, TrialOn(s, p, cost, validator, X, Y, draws, start, n), n)
  }

  /** The state after k samples is one step from the state after k - 1. */
  lemma TrialOnStep(s: Setup, p: Parameters, cost: Cost, validator: Option<(Vector, Vector) -> real>,
                     X: seq<Vector>, Y: seq<Vector>, draws: Draws, start: Trial, k: nat)
    requires CanTest(s, p, start.a, X, Y) && 0 < k <= |X| && k <= |draws|
    ensures TrialOn(s, p, cost, validator, X, Y, draws, start, k)
      == TestStep(s, p, cost, validator, X, Y, draws, TrialOn(s, p, cost, validator, X, Y, draws, start, k - 1), k - 1)
  {
    assert TrialOn(s, p, cost, validator, X, Y, draws, start, k) == TrialAfter(s, p, cost, validator, X, Y, draws, start, k - 1);
  }

  // ---- the function the network computes ----

  /** The loss of the network's function on sample (x, y): the loss strategy
      applied to z^L, the output layer of the feed-forward recurrence. */
  function SampleLoss(s: Setup, p: Parameters, a: Activations, cost: Cost, x: Vector, y: Vector): real
    requires s.Runs() && ParametersShaped(s.structure, p) && ActivationsShaped(s.structure, a)
    requires |x| == s.structure[0]
  {
    cost(ForwardOutput(s, p, a, x, s.numberOfLayers - 1), y)
  }

  /** Σ_{i<k} SampleLoss(X[order[i]], Y[order[i]]) / divisor. */
  function LossSum(s: Setup, p: Parameters, a: Activations, cost: Cost, X: seq<Vector>, Y: seq<Vector>,
                   order: seq<nat>, k: nat, divisor: real): real
    requires CanTest(s, p, a, X, Y) && k <= |order| && Indexes(order, |X|) && divisor != 0.0
    decreases k
  {
    if k == 0 then 0.0
    else
      var n := order[k - 1];
      LossSum(s, p, a, cost, X, Y, order, k - 1, divisor) + Share(SampleLoss(s, p, a, cost, X[n], Y[n]), divisor)
  }

  /** The recurrence's output layer is what forwardPropagate leaves there,
      and it does not depend on the arrays the pass starts from as long as
      their masks are the same. */
  lemma ForwardOutputFrom(s: Setup, p: Parameters, a: Activations, a0: Activations, x: Vector)
    requires s.Runs() && ParametersShaped(s.structure, p)
    requires ActivationsShaped(s.structure, a) && ActivationsShaped(s.structure, a0) && a.dropouts == a0.dropouts
    requires |x| == s.structure[0]
    ensures Forward(s, p, a, x).outputs[s.numberOfLayers - 1] == ForwardOutput(s, p, a0, x, s.numberOfLayers - 1)
  {
    ForwardAt(s, p, a, x, s.numberOfLayers - 1);
    ForwardOutputReadsOnlyMasks(s, p, a, a0, x, s.numberOfLayers - 1);
  }

  /** Under masks of ones, train() keeps the masks, and the loss it adds up
      is the sum of the network's losses on the samples it visits divided by
      batchSize: no sample's loss depends on the samples before it. */
  lemma {:induction false} TrainLossIsSampleLossSum(s: Setup, p: Parameters, loss: LossKind, cost: Cost, X: seq<Vector>, Y: seq<Vector>,
                                                    order: seq<nat>, draws: Draws, start: Pass, k: nat)
    requires CanTrain(s, p, start.a, start.g, X, Y) && MaskIsIdentity(s.structure, start.a)
    requires k <= |order| && k <= |draws| && Indexes(order, |X|)
    ensures var r := TrainedOn(s, p, loss, cost, X, Y, order, draws, start, k);
      && r.a.dropouts == start.a.dropouts
      && r.loss == start.loss + LossSum(s, p, start.a, cost, X, Y, order, k, s.batchSize as real)
    decreases k
  {
    if k > 0 {
      TrainLossIsSampleLossSum(s, p, loss, cost, X, Y, order, draws, start, k - 1);
      var r := TrainedOn(s, p, loss, cost, X, Y, order, draws, start, k - 1);
      var n := order[k - 1];
      ForwardKeepsMasks(s, p, r.a, X[n]);
      ForwardOutputFrom(s, p, r.a, start.a, X[n]);
    }
  }

  /** Under masks of ones, test() keeps the masks, and its loss is the mean of
      the network's losses over the samples 0 .. k-1, each divided by the
      number of samples. */
  lemma {:induction false} TestLossIsSampleLossSum(s: Setup, p: Parameters, cost: Cost, validator: Option<(Vector, Vector) -> real>,
                                                   X: seq<Vector>, Y: seq<Vector>, draws: Draws, start: Trial, k: nat)
    requires CanTest(s, p, start.a, X, Y) && MaskIsIdentity(s.structure, start.a)
    requires 0 < |X| && k <= |X| && k <= |draws|
    ensures Indexes(Keys(|X|), |X|)
    ensures var r := TrialOn(s, p, cost, validator, X, Y, draws, start, k);
      && r.a.dropouts == start.a.dropouts
      && r.loss == start.loss + LossSum(s, p, start.a, cost, X, Y, Keys(|X|), k, |Y| as real)
    decreases k
  {
    KeysIndex(|X|);
    if k > 0 {
      TestLossIsSampleLossSum(s, p, cost, validator, X, Y, draws, start, k - 1);
      KeysAt(|X|, k - 1);
      TestStepLoss(s, p, cost, validator, X, Y, draws, TrialOn(s, p, cost, validator, X, Y, draws, start, k - 1), start.a, k - 1);
    }
  }

  /** One sample of test(), under masks of ones, keeps the masks and adds
      the network's loss on that sample divided by the number of samples. */
  lemma TestStepLoss(s: Setup, p: Parameters, cost: Cost, validator: Option<(Vector, Vector) -> real>,
                     X: seq<Vector>, Y: seq<Vector>, draws: Draws, r: Trial, a0: Activations, n: nat)
    requires CanTest(s, p, r.a, X, Y) && CanTest(s, p, a0, X, Y)
    requires r.a.dropouts == a0.dropouts && MaskIsIdentity(s.structure, a0) && n < |X| && n < |draws|
    ensures var r' := TestStep(s, p, cost, validator, X, Y, draws, r, n);
      && r'.a.dropouts == a0.dropouts
      && r'.loss == r.loss + Share(SampleLoss(s, p, a0, cost, X[n], Y[n]), |Y| as real)
  {
    ForwardKeepsMasks(s, p, r.a, X[n]);
    ForwardOutputFrom(s, p, r.a, a0, X[n]);
  }

  /** array_keys of an n-element list indexes it. */
  lemma KeysIndex(n: nat)
    ensures Indexes(Keys(n), n)
  {
    forall i | 0 <= i < n
      ensures Keys(n)[i] < n
    {
      KeysAt(n, i);
    }
  }

  /** A loss that is never negative, divided by a positive divisor, sums to
      something non-negative. */
  lemma {:induction false} LossSumNonNegative(s: Setup, p: Parameters, a: Activations, cost: Cost, X: seq<Vector>, Y: seq<Vector>,
                                              order: seq<nat>, k: nat, divisor: real)
    requires CanTest(s, p, a, X, Y) && k <= |order| && Indexes(order, |X|) && divisor > 0.0
    requires forall o, y :: cost(o, y) >= 0.0
    ensures LossSum(s, p, a, cost, X, Y, order, k, divisor) >= 0.0
    decreases k
  {
    if k > 0 {
      LossSumNonNegative(s, p, a, cost, X, Y, order, k - 1, divisor);
      var n := order[k - 1];
      ShareNonNegative(SampleLoss(s, p, a, cost, X[n], Y[n]), divisor);
    }
  }

  /** The mean-square strategy's loss is never negative. */
  lemma MeanSquareCostNonNegative(m: Library)
    ensures forall o, y :: LossOf(MeanSquare, m)(o, y) >= 0.0
  {
    forall o: Vector, y: Vector
      ensures LossOf(MeanSquare, m)(o, y) >= 0.0
    {
      if |o| <= |y| {
        MeanSquareNonNegative(o, y);
      }
    }
  }

  /** With the mean-square loss and a positive batch size, the loss train()
      returns is never negative. */
  lemma TrainLossNonNegative(s: Setup, p: Parameters, X: seq<Vector>, Y: seq<Vector>,
                             order: seq<nat>, draws: Draws, a: Activations, g: Gradients, d: map<nat, map<nat, real>>, k: nat)
    requires CanTrain(s, p, a, g, X, Y) && MaskIsIdentity(s.structure, a) && s.batchSize > 0
    requires k <= |order| && k <= |draws| && Indexes(order, |X|)
    ensures TrainedOn(s, p, MeanSquare, LossOf(MeanSquare, s.maths), X, Y, order, draws, Pass(a, g, d, 0.0), k).loss >= 0.0
  {
    var cost := LossOf(MeanSquare, s.maths);
    TrainLossIsSampleLossSum(s, p, MeanSquare, cost, X, Y, order, draws, Pass(a, g, d, 0.0), k);
    MeanSquareCostNonNegative(s.maths);
    LossSumNonNegative(s, p, a, cost, X, Y, order, k, s.batchSize as real);
  }

  /** With the mean-square loss, the loss test() returns is never negative. */
  lemma TestLossNonNegative(s: Setup, p: Parameters, validator: Option<(Vector, Vector) -> real>,
                            X: seq<Vector>, Y: seq<Vector>, draws: Draws, a: Activations, d: map<nat, map<nat, real>>)
    requires CanTest(s, p, a, X, Y) && MaskIsIdentity(s.structure, a) && 0 < |X| == |draws|
    ensures TrialOn(s, p, LossOf(MeanSquare, s.maths), validator, X, Y, draws, Trial(a, d, 0.0, 0.0), |X|).loss >= 0.0
  {
    var cost := LossOf(MeanSquare, s.maths);
    TestLossIsSampleLossSum(s, p, cost, validator, X, Y, draws, Trial(a, d, 0.0, 0.0), |X|);
    MeanSquareCostNonNegative(s.maths);
    LossSumNonNegative(s, p, a, cost, X, Y, Keys(|X|), |X|, |Y| as real);
  }

  /** The sum of sample losses reads the arrays it starts from only through their masks. */
  lemma {:induction false} LossSumReadsOnlyMasks(s: Setup, p: Parameters, a: Activations, a': Activations, cost: Cost,
                                                 X: seq<Vector>, Y: seq<Vector>, order: seq<nat>, k: nat, divisor: real)
    requires CanTest(s, p, a, X, Y) && CanTest(s, p, a', X, Y) && a.dropouts == a'.dropouts
    requires k <= |order| && Indexes(order, |X|) && divisor != 0.0
    ensures LossSum(s, p, a, cost, X, Y, order, k, divisor) == LossSum(s, p, a', cost, X, Y, order, k, divisor)
    decreases k
  {
    if k > 0 {
      LossSumReadsOnlyMasks(s, p, a, a', cost, X, Y, order, k - 1, divisor);
      var n := order[k - 1];
      ForwardOutputReadsOnlyMasks(s, p, a, a', X[n], s.numberOfLayers - 1);
    }
  }

  /** test() is repeatable: under masks of ones, the loss it returns is the
      same whatever pass the network made before. */
  lemma TestLossIgnoresEarlierPasses(s: Setup, p: Parameters, cost: Cost, validator: Option<(Vector, Vector) -> real>,
                                     X: seq<Vector>, Y: seq<Vector>, draws: Draws, a: Activations, a': Activations,
                                     d: map<nat, map<nat, real>>, d': map<nat, map<nat, real>>)
    requires CanTest(s, p, a, X, Y) && CanTest(s, p, a', X, Y) && 0 < |X| == |draws|
    requires MaskIsIdentity(s.structure, a) && MaskIsIdentity(s.structure, a')
    ensures TrialOn(s, p, cost, validator, X, Y, draws, Trial(a, d, 0.0, 0.0), |X|).loss
         == TrialOn(s, p, cost, validator, X, Y, draws, Trial(a', d', 0.0, 0.0), |X|).loss
  {
    TestLossIsSampleLossSum(s, p, cost, validator, X, Y, draws, Trial(a, d, 0.0, 0.0), |X|);
    TestLossIsSampleLossSum(s, p, cost, validator, X, Y, draws, Trial(a', d', 0.0, 0.0), |X|);
    assert a.dropouts == a'.dropouts;
    LossSumReadsOnlyMasks(s, p, a, a', cost, X, Y, Keys(|X|), |X|, |Y| as real);
  }

  /** A validator whose values lie in [0, 1] (a share of correct answers)
      gives a validity in [0, k / |Y|] after k samples, so in [0, 1] at the
      end; without a validator the validity stays where it started. */
  lemma {:induction false} ValidityBounds(s: Setup, p: Parameters, cost: Cost, validator: Option<(Vector, Vector) -> real>,
                                          X: seq<Vector>, Y: seq<Vector>, draws: Draws, start: Trial, k: nat)
    requires CanTest(s, p, start.a, X, Y) && 0 < |X| && k <= |X| && k <= |draws|
    requires validator.Some? ==> forall o, y :: 0.0 <= validator.value(o, y) <= 1.0
    ensures var v := TrialOn(s, p, cost, validator, X, Y, draws, start, k).validity;
      && (validator.None? ==> v == start.validity)
      && (validator.Some? ==> start.validity <= v <= start.validity + (k as real) / (|Y| as real))
    decreases k
  {
    if k > 0 {
      ValidityBounds(s, p, cost, validator, X, Y, draws, start, k - 1);
      if validator.Some? {
        var N := |Y| as real;
        var r := TrialOn(s, p, cost, validator, X, Y, draws, start, k - 1);
        var b := Forward(s, p, r.a, X[k - 1]);
        ShareStep(validator.value(b.outputs[s.numberOfLayers - 1], Y[k - 1]), N, k);
      }
    }
  }

  /** The validity test() returns lies in [0, 1] when every validation value does. */
  lemma ValidityIsAShare(s: Setup, p: Parameters, cost: Cost, validator: (Vector, Vector) -> real,
                         X: seq<Vector>, Y: seq<Vector>, draws: Draws, a: Activations, d: map<nat, map<nat, real>>)
    requires CanTest(s, p, a, X, Y) && 0 < |X| == |draws|
    requires forall o, y :: 0.0 <= validator(o, y) <= 1.0
    ensures 0.0 <= TrialOn(s, p, cost, Some(validator), X, Y, draws, Trial(a, d, 0.0, 0.0), |X|).validity <= 1.0
  {
    ValidityBounds(s, p, cost, Some(validator), X, Y, draws, Trial(a, d, 0.0, 0.0), |X|);
    WholeShare(|X|);
  }

  /** One more share x / N, with x in [0, 1], keeps a running sum within k / N. */
  lemma ShareStep(x: real, N: real, k: nat)
    requires 0.0 <= x <= 1.0 && N > 0.0 && k >= 1
    ensures 0.0 <= Share(x, N) <= 1.0 / N
    ensures (k as real) / N == ((k - 1) as real) / N + 1.0 / N
  {
  }

  lemma ShareNonNegative(x: real, divisor: real)
    requires x >= 0.0 && divisor > 0.0
    ensures Share(x, divisor) >= 0.0
  {
  }

  lemma WholeShare(n: nat)
    requires n > 0
    ensures (n as real) / (n as real) == 1.0
  {
  }

  /** Under masks of ones, calculate(x) depends on nothing but the parameters
      and x: two networks that differ only in their last pass compute the
      same output. */
  lemma CalculateIgnoresEarlierPasses(s: Setup, p: Parameters, a: Activations, a': Activations, x: Vector)
    requires s.Runs() && ParametersShaped(s.structure, p) && |x| == s.structure[0]
    requires ActivationsShaped(s.structure, a) && ActivationsShaped(s.structure, a')
    requires MaskIsIdentity(s.structure, a) && MaskIsIdentity(s.structure, a')
    ensures Forward(s, p, a, x).outputs[s.numberOfLayers - 1] == Forward(s, p, a', x).outputs[s.numberOfLayers - 1]
  {
    assert a.dropouts == a'.dropouts;
    ForwardOutputFrom(s, p, a, a, x);
    ForwardOutputFrom(s, p, a', a, x);
  }
}
