/** The Network class of src/Networks/Network.php, with the Dropout concern
    mixed in. Every array the PHP object keeps is a field here; each operation
    rewrites its fields layer by layer and is proved to leave exactly what the
    corresponding function of module Propagation or Training describes. */
module Networks {
  import opened Helpers
  import opened Maths
  import opened Neurons
  import opened Losses
  import opened Dropout
  import opened Propagation
  import opened Training

  /** The constructor's $config array; absent keys are None. */
  datatype Config = Config(
    learningRate: Option<real>,
    batchSize: Option<int>,
    numberOfLayers: int,
    inputSize: nat,
    outputSize: int)

  // ---- the loops over the entries of one layer ----

  /** forwardPropagate's loop over the inputs k of neuron j: bias + Σ_k w_jk z_k. */
  method WeightedSumOf(bias: real, row: Vector, z: Vector, n: nat) returns (sum: real)
    requires n <= |row| && n <= |z|
    ensures sum == WeightedSum(bias, row, z, n)
  {
    sum := bias;
    var k := 0;
    while k < n
      invariant 0 <= k <= n
      invariant sum == WeightedSum(bias, row, z, k)
    {
      sum := sum + row[k] * z[k];
      k := k + 1;
    }
  }

  /** forwardPropagate's loop over the neurons j of layer l:
      u_j = b_j + Σ_k w_jk z_k, then z'_j = mask_j * activate(u_j). */
  method ForwardLayer(neuron: Neuron, m: Library, w: Matrix, bias: Vector, mask: Vector, z: Vector, width: nat, fanIn: nat)
    returns (u: Vector, out: Vector)
    requires IsMatrix(w, width, fanIn) && |bias| == width && |mask| == width && |z| == fanIn
    ensures u == LayerInput(w, bias, z, width, fanIn)
    ensures out == LayerOutput(neuron, m, mask, u, width)
  {
    ghost var inputs := LayerInput(w, bias, z, width, fanIn);
    ghost var outputs := LayerOutput(neuron, m, mask, inputs, width);
    u, out := [], [];
    var j := 0;
    while j < width
      invariant 0 <= j <= width
      invariant u == inputs[..j] && out == outputs[..j]
    {
      var sum := WeightedSumOf(bias[j], w[j], z, fanIn);
      LayerInputAt(w, bias, z, width, fanIn, j);
      LayerOutputAt(neuron, m, mask, inputs, width, j);
      u := u + [sum];
      out := out + [Fire(neuron, m, mask[j], sum)];
      j := j + 1;
    }
  }

  /** backwardPropagate's loop over the neurons i of the layer above:
      Σ_i next_i * w_ij * d, with d the derivative at u_j. */
  method BackSumOf(next: Vector, w: Matrix, j: nat, d: real, n: nat) returns (sum: real)
    requires n <= |next| && n <= |w| && forall i | 0 <= i < n :: j < |w[i]|
    ensures sum == BackSum(next, w, j, d, n)
  {
    sum := 0.0;
    var i := 0;
    while i < n
      invariant 0 <= i <= n
      invariant sum == BackSum(next, w, j, d, i)
    {
      sum := sum + next[i] * w[i][j] * d;
      i := i + 1;
    }
  }

  /** backwardPropagate's loop over the neurons j of a hidden layer:
      e_j = Σ_i next_i * w_ij * differentiate(u_j). */
  method HiddenLayerError(neuron: Neuron, m: Library, next: Vector, w: Matrix, u: Vector, width: nat, nextWidth: nat)
    returns (e: Vector)
    requires |u| == width && |next| == nextWidth && IsMatrix(w, nextWidth, width)
    ensures e == HiddenError(neuron, m, next, w, u, width, nextWidth)
  {
    e := [];
    var j := 0;
    while j < width
      invariant 0 <= j <= width
      invariant e == HiddenError(neuron, m, next, w, u, j, nextWidth)
    {
      var sum := BackSumOf(next, w, j, neuron.Differentiate(m, u[j]), nextWidth);
      e := e + [sum];
      j := j + 1;
    }
  }

  /** backwardPropagate's loop over the inputs k of neuron j: weight
      gradient (j, k) gains z_k * d / batchSize, d the error of neuron j. */
  method AccumulateRowOf(g: Vector, d: real, z: Vector, batchSize: int, fanIn: nat) returns (row: Vector)
    requires fanIn <= |g| && fanIn <= |z| && batchSize != 0
    ensures row == AccumulateRow(g, d, z, batchSize, fanIn)
  {
    ghost var full := AccumulateRow(g, d, z, batchSize, fanIn);
    row := [];
    var k := 0;
    while k < fanIn
      invariant 0 <= k <= fanIn
      invariant row == full[..k]
    {
      AccumulateRowAt(g, d, z, batchSize, fanIn, k);
      row := row + [g[k] + z[k] * d / (batchSize as real)];
      k := k + 1;
    }
  }

  /** backwardPropagate's gradient loop for one layer: bias gradient j gains
      e_j / batchSize, and row j of the weight gradients its share. */
  method AccumulateLayer(gb: Vector, gw: Matrix, e: Vector, z: Vector, batchSize: int, width: nat, fanIn: nat)
    returns (gb': Vector, gw': Matrix)
    requires |gb| == width && |e| == width && IsMatrix(gw, width, fanIn) && |z| == fanIn && batchSize != 0
    ensures gb' == AccumulateBias(gb, e, batchSize, width)
    ensures gw' == AccumulateWeights(gw, e, z, batchSize, width, fanIn)
  {
    gb', gw' := [], [];
    var j := 0;
    while j < width
      invariant 0 <= j <= width
      invariant gb' == AccumulateBias(gb, e, batchSize, j)
      invariant gw' == AccumulateWeights(gw, e, z, batchSize, j, fanIn)
    {
      gb' := gb' + [gb[j] + e[j] / (batchSize as real)];
      var row := AccumulateRowOf(gw[j], e[j], z, batchSize, fanIn);
      gw' := gw' + [row];
      j := j + 1;
    }
  }

  /** update's loop over one row: every entry steps against its gradient,
      which is then set to 0. */
  method StepRowOf(p: Vector, g: Vector, rate: real, n: nat) returns (row: Vector, zeros: Vector)
    requires n <= |p| && n <= |g|
    ensures row == StepVector(p, g, rate, n) && zeros == Fill(n, 0.0)
  {
    row, zeros := [], [];
    var k := 0;
    while k < n
      invariant 0 <= k <= n
      invariant row == StepVector(p, g, rate, k) && zeros == Fill(k, 0.0)
    {
      assert StepVector(p, g, rate, k + 1) == StepVector(p, g, rate, k) + [p[k] - rate * g[k]];
      assert Fill(k + 1, 0.0) == Fill(k, 0.0) + [0.0];
      row := row + [p[k] - rate * g[k]];
      zeros := zeros + [0.0];
      k := k + 1;
    }
  }

  /** update's loop over one layer: biases and weight rows step, their
      gradients are set to 0. */
  method StepLayer(bias: Vector, w: Matrix, gb: Vector, gw: Matrix, rate: real, width: nat, fanIn: nat)
    returns (bias': Vector, w': Matrix, gb': Vector, gw': Matrix)
    requires |bias| == width && |gb| == width && IsMatrix(w, width, fanIn) && IsMatrix(gw, width, fanIn)
    ensures bias' == StepVector(bias, gb, rate, width) && w' == StepMatrix(w, gw, rate, width, fanIn)
    ensures gb' == Fill(width, 0.0) && gw' == MatrixFill(width, fanIn, 0.0)
  {
    bias', w', gb', gw' := [], [], [], [];
    var j := 0;
    while j < width
      invariant 0 <= j <= width
      invariant bias' == StepVector(bias, gb, rate, j) && gb' == Fill(j, 0.0)
      invariant w' == StepMatrix(w, gw, rate, j, fanIn) && gw' == MatrixFill(j, fanIn, 0.0)
    {
      assert StepVector(bias, gb, rate, j + 1) == StepVector(bias, gb, rate, j) + [bias[j] - rate * gb[j]];
      assert Fill(j + 1, 0.0) == Fill(j, 0.0) + [0.0];
      bias' := bias' + [bias[j] - rate * gb[j]];
      gb' := gb' + [0.0];
      var row, zeros := StepRowOf(w[j], gw[j], rate, fanIn);
      assert StepMatrix(w, gw, rate, j + 1, fanIn) == StepMatrix(w, gw, rate, j, fanIn) + [row];
      assert MatrixFill(j + 1, fanIn, 0.0) == MatrixFill(j, fanIn, 0.0) + [zeros];
      w' := w' + [row];
      gw' := gw' + [zeros];
      j := j + 1;
    }
  }

  /** init's loop over one row: weight (j, k) of layer l takes its draw. */
  method DrawRowOf(l: nat, j: nat, fanIn: nat, gw: (nat, nat, nat) -> real) returns (row: Vector)
    ensures row == DrawnRow(l, j, fanIn, gw)
  {
    row := [];
    var k := 0;
    while k < fanIn
      invariant 0 <= k <= fanIn
      invariant row == DrawnRow(l, j, k, gw)
    {
      row := row + [gw(l, j, k)];
      k := k + 1;
    }
  }

  /** init's loop over one layer l: every bias and weight row takes its draws. */
  method DrawLayer(l: nat, width: nat, fanIn: nat, gb: (nat, nat) -> real, gw: (nat, nat, nat) -> real)
    returns (bias: Vector, w: Matrix)
    ensures bias == DrawnBiases(l, width, gb) && w == DrawnWeights(l, width, fanIn, gw)
  {
    bias, w := [], [];
    var j := 0;
    while j < width
      invariant 0 <= j <= width
      invariant bias == DrawnBiases(l, j, gb) && w == DrawnWeights(l, j, fanIn, gw)
    {
      bias := bias + [gb(l, j)];
      var row := DrawRowOf(l, j, fanIn, gw);
      w := w + [row];
      j := j + 1;
    }
  }

  /** setDropouts(l) on values: the new mask `dropouts[l]` and the new `dropout` property. */
  method SetDropoutsOf(structure: seq<nat>, dropProbabilities: seq<real>, mask: Vector,
                       dropout: map<nat, map<nat, real>>, l: nat, u: (nat, nat) -> Uniform)
    returns (mask': Vector, dropout': map<nat, map<nat, real>>)
    requires 1 <= l < |structure| == |dropProbabilities|
    requires Samples(structure, dropProbabilities, l) ==> 0.0 <= dropProbabilities[l] <= 1.0
    ensures mask' == MaskAfter(structure, dropProbabilities, mask, l)
    ensures dropout' == StrayAfter(structure, dropProbabilities, dropout, l, u)
  {
    mask', dropout' := mask, dropout;
    if dropProbabilities[l] == 0.0 || l == |structure| - 1 {
      mask' := Fill(structure[l], 1.0);
    } else {
      var bound := StrayBound(structure, 0);
      ghost var p, row := dropProbabilities[l], RowOf(dropout, l);
      var k := 0;
      while k < |structure| && k < structure[k]
        invariant 0 <= k <= bound
        invariant k == 0 ==> dropout' == dropout
        invariant k > 0 ==> 0.0 < p <= 1.0 && dropout' == dropout[l := row + StrayDraws(p, l, u, k)]
      {
        assert Samples(structure, dropProbabilities, l);
        StrayDrawsStep(row, p, l, u, k);
        dropout' := dropout'[l := RowOf(dropout', l)[k := DrawnValue(dropProbabilities[l], u(l, k))]];
        k := k + 1;
      }
      assert k == bound;
    }
  }

  /** One pass of forwardPropagate's loop: setDropouts(l), then layer l's
      inputs and outputs from the outputs of layer l - 1. */
  method ForwardStepOf(s: Setup, p: Parameters, a: Activations, d: map<nat, map<nat, real>>, l: nat, u: (nat, nat) -> Uniform)
    returns (a': Activations, d': map<nat, map<nat, real>>)
    requires s.Runs() && ParametersShaped(s.structure, p) && ActivationsShaped(s.structure, a)
    requires 1 <= l < s.numberOfLayers
    ensures a' == ForwardStep(s, p, a, l)
    ensures d' == StrayAfter(s.structure, s.dropProbabilities, d, l, u)
  {
    var S := s.structure;
    var mask;
    mask, d' := SetDropoutsOf(S, s.dropProbabilities, a.dropouts[l], d, l, u);
    var row, out := ForwardLayer(s.neurons[l].value, s.maths, p.weights[l], p.biases[l], mask, a.outputs[l - 1], S[l], S[l - 1]);
    a' := Activations(a.inputs[l := row], a.outputs[l := out], a.dropouts[l := mask]);
  }

  /** init's loop over the layers: layer l's biases and weights take their draws. */
  method InitOf(s: Setup, p: Parameters, gb: (nat, nat) -> real, gw: (nat, nat, nat) -> real) returns (q: Parameters)
    requires s.Valid() && s.numberOfLayers <= |s.structure| && ParametersShaped(s.structure, p)
    ensures q == Propagation.Init(s, p, gb, gw)
  {
    q := p;
    var l := 1;
    while l < s.numberOfLayers
      invariant 1 <= l && (l <= s.numberOfLayers || l == 1)
      invariant q == InitBelow(s, p, gb, gw, l)
    {
      var bias, w := DrawLayer(l, s.structure[l], s.structure[l - 1], gb, gw);
      q := Parameters(q.weights[l := w], q.biases[l := bias]);
      l := l + 1;
    }
  }

  /** forwardPropagate's loop over the layers, after outputs[0] has been set
      to the input x; d is the `dropout` property. */
  method ForwardOf(s: Setup, p: Parameters, a: Activations, d: map<nat, map<nat, real>>, x: Vector, u: (nat, nat) -> Uniform)
    returns (b: Activations, d': map<nat, map<nat, real>>)
    requires s.Runs() && ParametersShaped(s.structure, p) && ActivationsShaped(s.structure, a) && |x| == s.structure[0]
    ensures b == Forward(s, p, a, x)
    ensures d' == StraysBefore(s.structure, s.dropProbabilities, d, u, s.numberOfLayers)
  {
    b, d' := a.(outputs := a.outputs[0 := x]), d;
    var l := 1;
    while l < s.numberOfLayers
      invariant 1 <= l <= s.numberOfLayers
      invariant b == ForwardBelow(s, p, a, x, l)
      invariant d' == StraysBefore(s.structure, s.dropProbabilities, d, u, l)
    {
      b, d' := ForwardStepOf(s, p, b, d', l, u);
      l := l + 1;
    }
  }

  /** backwardPropagate's work on layer l once its error e is known: e is
      stored and the layer's gradients accumulate from it. */
  method StoreErrorOf(s: Setup, a: Activations, g: Gradients, l: nat, e: Vector) returns (r: Gradients)
    requires s.Valid() && ActivationsShaped(s.structure, a) && GradientsShaped(s.structure, g)
    requires 1 <= l < |s.structure| && |e| == s.structure[l] && s.batchSize != 0
    ensures r == StoreError(s, a, g, l, e)
  {
    var S := s.structure;
    var gb, gw := AccumulateLayer(g.biasGradients[l], g.weightGradients[l], e, a.outputs[l - 1], s.batchSize, S[l], S[l - 1]);
    r := Gradients(g.errors[l := e], g.weightGradients[l := gw], g.biasGradients[l := gb]);
  }

  /** backwardPropagate's loop: the output layer's error is the loss
      strategy's differentiate, each hidden layer's, from l = numberOfLayers - 2
      down to 1, comes from the layer above. */
  method BackwardOf(s: Setup, p: Parameters, a: Activations, g: Gradients, loss: Loss, answer: Vector) returns (h: Gradients)
    requires CanBackward(s, p, a, g, loss.Kind(), answer)
    ensures h == Backward(s, p, a, g, loss.Kind(), answer)
  {
    var S, L := s.structure, s.numberOfLayers - 1;
    var e := ComputeError(loss, a.outputs[L], answer);
    h := StoreErrorOf(s, a, g, L, e);
    var l := L - 1;
    while l > 0
      invariant 0 <= l < L
      invariant h == BackwardFrom(s, p, a, g, loss.Kind(), answer, l + 1)
    {
      e := HiddenLayerError(s.neurons[l].value, s.maths, h.errors[l + 1], p.weights[l + 1], a.inputs[l], S[l], S[l + 1]);
      h := StoreErrorOf(s, a, h, l, e);
      BackwardFromUnfold(s, p, a, g, loss.Kind(), answer, l);
      l := l - 1;
    }
  }

  /** update's loop over the layers: each layer's parameters step against
      its gradients, which are then set to 0. */
  method UpdateOf(s: Setup, p: Parameters, g: Gradients) returns (q: Parameters, h: Gradients)
    requires s.Valid() && s.numberOfLayers <= |s.structure|
    requires ParametersShaped(s.structure, p) && GradientsShaped(s.structure, g)
    ensures q == Propagation.Update(s, p, g) && h == ZeroGradients(s, g)
  {
    q, h := p, g;
    var l := 1;
    while l < s.numberOfLayers
      invariant 1 <= l && (l <= s.numberOfLayers || l == 1)
      invariant q == SteppedBelow(s, p, g, l) && h == ZeroedBelow(s, g, l)
    {
      ZeroedBelowAt(s, g, l, l);
      var bias, w, gb, gw := StepLayer(q.biases[l], q.weights[l], h.biasGradients[l], h.weightGradients[l], s.learningRate,
                                       s.structure[l], s.structure[l - 1]);
      q := Parameters(q.weights[l := w], q.biases[l := bias]);
      h := h.(weightGradients := h.weightGradients[l := gw], biasGradients := h.biasGradients[l := gb]);
      l := l + 1;
    }
  }

  /** train() on the values of the network's state: the sample indices are
      shuffled, then the loop below runs; the invariant is kept. */
  method TrainOf(s: Setup, p: Parameters, a: Activations, g: Gradients, d: map<nat, map<nat, real>>,
                 loss: Loss, X: seq<Vector>, Y: seq<Vector>, picks: seq<nat>, draws: Draws, inputSize: nat)
    returns (q: Parameters, r: Pass)
    requires WellShaped(s, p, a, g, inputSize) && CanTrain(s, p, a, g, X, Y) && Picks(picks, |X|) && |draws| == |X|
    ensures (q, r) == Trained(s, p, loss.Kind(), LossOf(loss.Kind(), s.maths), X, Y, ShuffledKeys(|X|, picks), draws,
                              Pass(a, g, d, 0.0))
    ensures WellShaped(s, q, r.a, r.g, inputSize)
  {
    var order := ArrayShuffle(Keys(|X|), picks);
    assert order == ShuffledKeys(|X|, picks);
    q, r := TrainLoopOf(s, p, a, g, d, loss, X, Y, order, draws);
    TrainKeepsShape(s, p, a, g, d, loss.Kind(), LossOf(loss.Kind(), s.maths), X, Y, order, draws, inputSize);
  }

  /** train()'s loop over the shuffled sample indices: each sample is
      propagated forward and backward and its loss, divided by batchSize,
      added up; once `count` reaches batchSize the parameters are updated
      and the loop stops. */
  method TrainLoopOf(s: Setup, p: Parameters, a: Activations, g: Gradients, d: map<nat, map<nat, real>>,
                 loss: Loss, X: seq<Vector>, Y: seq<Vector>, order: seq<nat>, draws: Draws)
    returns (q: Parameters, r: Pass)
    requires CanTrain(s, p, a, g, X, Y) && |order| == |X| == |draws| && Indexes(order, |X|)
    ensures (q, r) == Trained(s, p, loss.Kind(), LossOf(loss.Kind(), s.maths), X, Y, order, draws, Pass(a, g, d, 0.0))
  {
    var start := Pass(a, g, d, 0.0);
    q, r := p, start;
    var count := 0;
    while count < |order|
      invariant 0 <= count <= |order|
      invariant count == 0 || count < s.batchSize
      invariant r == TrainedOn(s, p, loss.Kind(), LossOf(loss.Kind(), s.maths), X, Y, order, draws, start, count)
    {
      r := TrainSampleOf(s, p, loss, X, Y, order, draws, start, r, count);
      count := count + 1;
      if count >= s.batchSize {
        TrainedStopsAt(s, p, loss.Kind(), LossOf(loss.Kind(), s.maths), X, Y, order, draws, start, count);
        var zeroed;
        q, zeroed := UpdateOf(s, p, r.g);
        r := r.(g := zeroed);
        break;
      }
    }
    if count == 0 || count < s.batchSize {
      TrainedRunsOut(s, p, loss.Kind(), LossOf(loss.Kind(), s.maths), X, Y, order, draws, start);
    }
  }

  /** One pass of train()'s loop body, on sample order[i]: forward, backward,
      and the sample's loss divided by batchSize added to the running sum. */
  method TrainSampleOf(s: Setup, p: Parameters, loss: Loss, X: seq<Vector>, Y: seq<Vector>,
                       order: seq<nat>, draws: Draws, ghost start: Pass, r: Pass, i: nat)
    returns (r': Pass)
    requires CanTrain(s, p, start.a, start.g, X, Y)
    requires i < |order| && i < |draws| && Indexes(order, |X|)
    requires r == TrainedOn(s, p, loss.Kind(), LossOf(loss.Kind(), s.maths), X, Y, order, draws, start, i)
    ensures r' == TrainedOn(s, p, loss.Kind(), LossOf(loss.Kind(), s.maths), X, Y, order, draws, start, i + 1)
  {
    TrainedOnStep(s, p, loss.Kind(), LossOf(loss.Kind(), s.maths), X, Y, order, draws, start, i + 1);
    var n, L := order[i], s.numberOfLayers - 1;
    var b, d' := ForwardOf(s, p, r.a, r.d, X[n], draws[i]);
    var h := BackwardOf(s, p, b, r.g, loss, Y[n]);
    var v := ComputeLoss(loss, s.maths, b.outputs[L], Y[n]);
    r' := Pass(b, h, d', r.loss + Share(v, s.batchSize as real));
  }

  /** test() on the values of the network's state: the loop below; the
      invariant is kept. */
  method TestOf(s: Setup, p: Parameters, a: Activations, g: Gradients, d: map<nat, map<nat, real>>, loss: Loss,
                validator: Option<(Vector, Vector) -> real>, X: seq<Vector>, Y: seq<Vector>, draws: Draws, inputSize: nat)
    returns (r: Trial)
    requires WellShaped(s, p, a, g, inputSize) && CanTest(s, p, a, X, Y) && 0 < |X| && |draws| == |Y|
    ensures r == TrialOn(s, p, LossOf(loss.Kind(), s.maths), validator, X, Y, draws, Trial(a, d, 0.0, 0.0), |Y|)
    ensures WellShaped(s, p, r.a, g, inputSize)
  {
    r := TestLoopOf(s, p, a, d, loss, validator, X, Y, draws);
    TestKeepsShape(s, p, a, g, d, LossOf(loss.Kind(), s.maths), validator, X, Y, draws, inputSize);
  }

  /** test()'s loop over the samples: each is propagated forward and its
      loss and, when a validator is given, its validation value, each
      divided by the number of samples, added up. */
  method TestLoopOf(s: Setup, p: Parameters, a: Activations, d: map<nat, map<nat, real>>, loss: Loss,
                validator: Option<(Vector, Vector) -> real>, X: seq<Vector>, Y: seq<Vector>, draws: Draws)
    returns (r: Trial)
    requires CanTest(s, p, a, X, Y) && |draws| == |Y|
    ensures r == TrialOn(s, p, LossOf(loss.Kind(), s.maths), validator, X, Y, draws, Trial(a, d, 0.0, 0.0), |Y|)
  {
    r := Trial(a, d, 0.0, 0.0);
    var n := 0;
    while n < |Y|
      invariant 0 <= n <= |Y|
      invariant r == TrialOn(s, p, LossOf(loss.Kind(), s.maths), validator, X, Y, draws, Trial(a, d, 0.0, 0.0), n)
    {
      r := TestSampleOf(s, p, loss, validator, X, Y, draws, Trial(a, d, 0.0, 0.0), r, n);
      n := n + 1;
    }
  }

  /** One pass of test()'s loop body, on sample n: forward, then the loss and
      the validator's value, each divided by the number of samples, added to
      their running sums. */
  method TestSampleOf(s: Setup, p: Parameters, loss: Loss, validator: Option<(Vector, Vector) -> real>,
                      X: seq<Vector>, Y: seq<Vector>, draws: Draws, ghost start: Trial, r: Trial, n: nat)
    returns (r': Trial)
    requires CanTest(s, p, start.a, X, Y) && n < |X| && n < |draws|
    requires r == TrialOn(s, p, LossOf(loss.Kind(), s.maths), validator, X, Y, draws, start, n)
    ensures r' == TrialOn(s, p, LossOf(loss.Kind(), s.maths), validator, X, Y, draws, start, n + 1)
  {
    TrialOnStep(s, p, LossOf(loss.Kind(), s.maths), validator, X, Y, draws, start, n + 1);
    var L, N := s.numberOfLayers - 1, |Y| as real;
    var b, d' := ForwardOf(s, p, r.a, r.d, X[n], draws[n]);
    var v := ComputeLoss(loss, s.maths, b.outputs[L], Y[n]);
    var validity := r.validity;
    if validator.Some? {
      validity := validity + Share(validator.value(b.outputs[L], Y[n]), N);
    }
    r' := Trial(b, d', r.loss + Share(v, N), validity);
  }

  /** The network's invariant, on the values of its fields: a consistent
      layer table, arrays of the layer widths, masks of ones, and the input
      layer as the constructor made it. */
  ghost predicate WellShaped(s: Setup, p: Parameters, a: Activations, g: Gradients, inputSize: nat)
  {
    && s.Valid()
    && ParametersShaped(s.structure, p)
    && ActivationsShaped(s.structure, a)
    && GradientsShaped(s.structure, g)
    && MaskIsIdentity(s.structure, a)
    && s.structure[0] == inputSize
    && s.dropProbabilities[0] == 0.0
  }

  /** forwardPropagate keeps the invariant: under masks of ones it stores
      arrays of the layer widths and leaves the masks as they were. */
  lemma ForwardKeepsShape(s: Setup, p: Parameters, a: Activations, g: Gradients, x: Vector, inputSize: nat)
    requires WellShaped(s, p, a, g, inputSize) && s.Runs() && |x| == s.structure[0]
    ensures WellShaped(s, p, Forward(s, p, a, x), g, inputSize)
  {
    ForwardKeepsMasks(s, p, a, x);
  }

  /** backwardPropagate keeps the invariant. */
  lemma BackwardKeepsShape(s: Setup, p: Parameters, a: Activations, g: Gradients, loss: LossKind, answer: Vector, inputSize: nat)
    requires WellShaped(s, p, a, g, inputSize) && CanBackward(s, p, a, g, loss, answer)
    ensures WellShaped(s, p, a, Backward(s, p, a, g, loss, answer), inputSize)
  {
  }

  /** update keeps the invariant. */
  lemma UpdateKeepsShape(s: Setup, p: Parameters, a: Activations, g: Gradients, inputSize: nat)
    requires WellShaped(s, p, a, g, inputSize) && s.numberOfLayers <= |s.structure|
    ensures WellShaped(s, Propagation.Update(s, p, g), a, ZeroGradients(s, g), inputSize)
  {
  }

  /** train keeps the invariant, whether or not it ends with update(). */
  lemma TrainKeepsShape(s: Setup, p: Parameters, a: Activations, g: Gradients, d: map<nat, map<nat, real>>,
                        loss: LossKind, cost: Cost, X: seq<Vector>, Y: seq<Vector>, order: seq<nat>, draws: Draws,
                        inputSize: nat)
    requires WellShaped(s, p, a, g, inputSize) && CanTrain(s, p, a, g, X, Y)
    requires |order| == |X| == |draws| && Indexes(order, |X|)
    ensures var (q, r) := Trained(s, p, loss, cost, X, Y, order, draws, Pass(a, g, d, 0.0));
      WellShaped(s, q, r.a, r.g, inputSize)
  {
    TrainLossIsSampleLossSum(s, p, loss, cost, X, Y, order, draws, Pass(a, g, d, 0.0), Processed(|X|, s.batchSize));
  }

  /** test keeps the invariant. */
  lemma TestKeepsShape(s: Setup, p: Parameters, a: Activations, g: Gradients, d: map<nat, map<nat, real>>,
                       cost: Cost, validator: Option<(Vector, Vector) -> real>, X: seq<Vector>, Y: seq<Vector>, draws: Draws,
                       inputSize: nat)
    requires WellShaped(s, p, a, g, inputSize) && CanTest(s, p, a, X, Y) && 0 < |X| == |draws|
    ensures WellShaped(s, p, TrialOn(s, p, cost, validator, X, Y, draws, Trial(a, d, 0.0, 0.0), |X|).a, g, inputSize)
  {
    TestLossIsSampleLossSum(s, p, cost, validator, X, Y, draws, Trial(a, d, 0.0, 0.0), |X|);
  }

  /** init keeps the invariant. */
  lemma InitKeepsShape(s: Setup, p: Parameters, a: Activations, g: Gradients, inputSize: nat,
                       gb: (nat, nat) -> real, gw: (nat, nat, nat) -> real)
    requires WellShaped(s, p, a, g, inputSize) && s.numberOfLayers <= |s.structure|
    ensures WellShaped(s, Propagation.Init(s, p, gb, gw), a, g, inputSize)
  {
  }

  class Network {
    const numberOfLayers: int
    const learningRate: real
    const batchSize: int
    const inputSize: nat
    const outputSize: int
    /** exp, log, tanh, sin and cos, as the neurons and losses call them. */
    const maths: Library

    var structure: seq<nat>
    var neurons: seq<Option<Neuron>>
    var lossFunction: Option<Loss>
    var weights: seq<Matrix>
    var biases: seq<Vector>
    var inputs: seq<Vector>
    var outputs: seq<Vector>
    var errors: seq<Vector>
    var weightGradients: seq<Matrix>
    var biasGradients: seq<Vector>
    var dropouts: seq<Vector>
    var dropProbabilities: seq<real>
    /** The property setDropouts' else-branch writes (distinct from `dropouts`). */
    var dropout: map<nat, map<nat, real>>

    function CurrentSetup(): Setup
      reads this`structure, this`neurons, this`dropProbabilities
    {
      Setup(structure, neurons, dropProbabilities, numberOfLayers, learningRate, batchSize, maths)
    }

    function CurrentParameters(): Parameters
      reads this`weights, this`biases
    {
      Parameters(weights, biases)
    }

    function CurrentActivations(): Activations
      reads this`inputs, this`outputs, this`dropouts
    {
      Activations(inputs, outputs, dropouts)
    }

    function CurrentGradients(): Gradients
      reads this`errors, this`weightGradients, this`biasGradients
    {
      Gradients(errors, weightGradients, biasGradients)
    }

    /** The object invariant, WellShaped on the fields. */
    ghost predicate Valid()
      reads this
    {
      WellShaped(CurrentSetup(), CurrentParameters(), CurrentActivations(), CurrentGradients(), inputSize)
    }

    /** __construct($config): the input layer, with zeroed arrays of width inputSize. */
    constructor (config: Config, maths: Library)
      ensures Valid()
      ensures learningRate == config.learningRate.GetOr(0.01) && batchSize == config.batchSize.GetOr(1)
      ensures numberOfLayers == config.numberOfLayers
      ensures inputSize == config.inputSize && outputSize == config.outputSize && this.maths == maths
      ensures structure == [config.inputSize] && neurons == [None] && lossFunction == None
      ensures dropProbabilities == [0.0] && dropouts == [Fill(config.inputSize, 1.0)] && dropout == map[]
      ensures weights == [MatrixFill(config.inputSize, config.inputSize, 0.0)] && weightGradients == weights
      ensures biases == [Fill(config.inputSize, 0.0)]
      ensures inputs == biases && outputs == biases && errors == biases && biasGradients == biases
    {
      learningRate := config.learningRate.GetOr(0.01);
      batchSize := config.batchSize.GetOr(1);
      numberOfLayers := config.numberOfLayers;
      inputSize := config.inputSize;
      outputSize := config.outputSize;
      this.maths := maths;
      var size := config.inputSize;
      var layers := [size];
      structure := layers;
      neurons := [None];
      lossFunction := None;
      weights := [MatrixFill(size, ArrayLast(layers).value, 0.0)];
      biases := [Fill(size, 0.0)];
      inputs := [Fill(size, 0.0)];
      outputs := [Fill(size, 0.0)];
      errors := [Fill(size, 0.0)];
      biasGradients := [Fill(size, 0.0)];
      weightGradients := [MatrixFill(size, ArrayLast(layers).value, 0.0)];
      dropProbabilities := [0.0];
      dropouts := [Fill(size, 1.0)];
      dropout := map[];
    }

    /** setLossFunction($lossFunction). */
    method SetLossFunction(loss: Loss)
      modifies this`lossFunction
      ensures lossFunction == Some(loss)
      ensures old(Valid()) ==> Valid()
    {
      lossFunction := Some(loss);
    }

    /** addLayer($neuron, $number, ['dropout' => p]): one more layer of zeroed
        arrays; the weight matrices are sized against the last layer before
        the call, read before `structure` is appended. */
    method AddLayer(neuron: Neuron, number: nat, drop: Option<real>)
      requires Valid()
      modifies this`structure, this`neurons, this`dropProbabilities, this`dropouts
      modifies this`weights, this`biases, this`inputs, this`outputs, this`errors
      modifies this`weightGradients, this`biasGradients
      ensures Valid()
      ensures CurrentSetup() == AddedSetup(old(CurrentSetup()), neuron, number, drop)
      ensures CurrentParameters() == AddedParameters(old(structure), old(CurrentParameters()), number)
      ensures CurrentActivations() == AddedActivations(old(CurrentActivations()), number)
      ensures CurrentGradients() == AddedGradients(old(structure), old(CurrentGradients()), number)
    {
      ghost var s, p, a, g := CurrentSetup(), CurrentParameters(), CurrentActivations(), CurrentGradients();
      AddLayerKeepsShape(s, p, a, g, neuron, number, drop);
      var last := ArrayLast(structure).value;
      weights := weights + [MatrixFill(number, last, 0.0)];
      biases := biases + [Fill(number, 0.0)];
      inputs := inputs + [Fill(number, 0.0)];
      outputs := outputs + [Fill(number, 0.0)];
      errors := errors + [Fill(number, 0.0)];
      biasGradients := biasGradients + [Fill(number, 0.0)];
      weightGradients := weightGradients + [MatrixFill(number, last, 0.0)];
      structure := structure + [number];
      neurons := neurons + [Some(neuron)];
      dropProbabilities := dropProbabilities + [drop.GetOr(0.0)];
      dropouts := dropouts + [Fill(number, 1.0)];
    }

    /** init(): gb(l, j) and gw(l, j, k) are the gauss_rand() values drawn
        for bias j and weight (j, k) of layer l. */
    method Init(gb: (nat, nat) -> real, gw: (nat, nat, nat) -> real)
      requires Valid() && numberOfLayers <= |structure|
      modifies this`biases, this`weights
      ensures Valid()
      ensures CurrentParameters() == Propagation.Init(CurrentSetup(), old(CurrentParameters()), gb, gw)
    {
      var s, p := CurrentSetup(), CurrentParameters();
      var q := InitOf(s, p, gb, gw);
      weights, biases := q.weights, q.biases;
      InitKeepsShape(s, p, CurrentActivations(), CurrentGradients(), inputSize, gb, gw);
    }

    /** setDropouts($l), with u(l, k) the draw binary_rand makes for entry k. */
    method SetDropouts(l: nat, u: (nat, nat) -> Uniform)
      requires 1 <= l < |structure| == |dropProbabilities| == |dropouts|
      requires Samples(structure, dropProbabilities, l) ==> 0.0 <= dropProbabilities[l] <= 1.0
      modifies this`dropouts, this`dropout
      ensures dropouts == old(dropouts)[l := MaskAfter(structure, dropProbabilities, old(dropouts)[l], l)]
      ensures dropout == StrayAfter(structure, dropProbabilities, old(dropout), l, u)
    {
      var mask, d := SetDropoutsOf(structure, dropProbabilities, dropouts[l], dropout, l, u);
      dropouts, dropout := dropouts[l := mask], d;
    }

    /** forwardPropagate($input), with u(l, k) the dropout draws. */
    method ForwardPropagate(input: Vector, u: (nat, nat) -> Uniform)
      requires Valid() && CurrentSetup().Runs() && |input| == structure[0]
      modifies this`inputs, this`outputs, this`dropouts, this`dropout
      ensures Valid()
      ensures CurrentActivations() == Forward(CurrentSetup(), CurrentParameters(), old(CurrentActivations()), input)
      ensures dropout == StraysBefore(structure, dropProbabilities, old(dropout), u, numberOfLayers)
    {
      var s, p, a := CurrentSetup(), CurrentParameters(), CurrentActivations();
      var b, d := ForwardOf(s, p, a, dropout, input, u);
      inputs, outputs, dropouts, dropout := b.inputs, b.outputs, b.dropouts, d;
      ForwardKeepsShape(s, p, a, CurrentGradients(), input, inputSize);
    }

    /** backwardPropagate($answer). */
    method BackwardPropagate(answer: Vector)
      requires Valid() && lossFunction.Some?
      requires CanBackward(CurrentSetup(), CurrentParameters(), CurrentActivations(), CurrentGradients(), lossFunction.value.Kind(), answer)
      modifies this`errors, this`biasGradients, this`weightGradients
      ensures Valid()
      ensures CurrentGradients()
        == Backward(CurrentSetup(), CurrentParameters(), CurrentActivations(), old(CurrentGradients()), lossFunction.value.Kind(), answer)
    {
      var s, p, a, g := CurrentSetup(), CurrentParameters(), CurrentActivations(), CurrentGradients();
      var h := BackwardOf(s, p, a, g, lossFunction.value, answer);
      errors, weightGradients, biasGradients := h.errors, h.weightGradients, h.biasGradients;
      BackwardKeepsShape(s, p, a, g, lossFunction.value.Kind(), answer, inputSize);
    }

    /** update(). */
    method Update()
      requires Valid() && numberOfLayers <= |structure|
      modifies this`biases, this`weights, this`biasGradients, this`weightGradients
      ensures Valid()
      ensures CurrentParameters() == Propagation.Update(CurrentSetup(), old(CurrentParameters()), old(CurrentGradients()))
      ensures CurrentGradients() == ZeroGradients(CurrentSetup(), old(CurrentGradients()))
    {
      var s, p, g := CurrentSetup(), CurrentParameters(), CurrentGradients();
      var q, h := UpdateOf(s, p, g);
      ZeroedBelowAt(s, g, numberOfLayers, 0);
      weights, biases, weightGradients, biasGradients := q.weights, q.biases, h.weightGradients, h.biasGradients;
      UpdateKeepsShape(s, p, CurrentActivations(), g, inputSize);
    }

    /** train($inputSet, $answerSet): `picks` are shuffle()'s random choices
        and draws[i] the dropout draws of the i-th sample visited. */
    method Train(X: seq<Vector>, Y: seq<Vector>, picks: seq<nat>, draws: Draws) returns (loss: real)
      requires Valid() && lossFunction.Some? && numberOfLayers == |structure|
      requires 0 < |X| == |Y| && |X[0]| == inputSize && |Y[0]| == outputSize
      requires CanTrain(CurrentSetup(), CurrentParameters(), CurrentActivations(), CurrentGradients(), X, Y)
      requires Picks(picks, |X|) && |draws| == |X|
      modifies this`weights, this`biases, this`inputs, this`outputs, this`dropouts, this`dropout
      modifies this`errors, this`weightGradients, this`biasGradients
      ensures Valid()
      ensures var kind := lossFunction.value.Kind();
        Trained(CurrentSetup(), old(CurrentParameters()), kind, LossOf(kind, maths), X, Y, ShuffledKeys(|X|, picks), draws,
                Pass(old(CurrentActivations()), old(CurrentGradients()), old(dropout), 0.0))
        == (CurrentParameters(), Pass(CurrentActivations(), CurrentGradients(), dropout, loss))
    {
      var q, r := TrainOf(CurrentSetup(), CurrentParameters(), CurrentActivations(), CurrentGradients(), dropout,
                          lossFunction.value, X, Y, picks, draws, inputSize);
      Store(q, r.a, r.g, r.d);
      loss := r.loss;
    }

    /** Writes a whole network state back into the fields. */
    method Store(q: Parameters, a: Activations, g: Gradients, d: map<nat, map<nat, real>>)
      modifies this`weights, this`biases, this`inputs, this`outputs, this`dropouts, this`dropout
      modifies this`errors, this`weightGradients, this`biasGradients
      ensures CurrentParameters() == q && CurrentActivations() == a && CurrentGradients() == g && dropout == d
    {
      weights, biases := q.weights, q.biases;
      inputs, outputs, dropouts, dropout := a.inputs, a.outputs, a.dropouts, d;
      errors, weightGradients, biasGradients := g.errors, g.weightGradients, g.biasGradients;
    }

    /** Writes the per-layer arrays of a forward pass and the `dropout`
        property back into the fields. */
    method StoreActivations(a: Activations, d: map<nat, map<nat, real>>)
      modifies this`inputs, this`outputs, this`dropouts, this`dropout
      ensures CurrentActivations() == a && dropout == d
    {
      inputs, outputs, dropouts, dropout := a.inputs, a.outputs, a.dropouts, d;
    }

    /** test($inputSet, $answerSet, $validator): draws[n] are the dropout
        draws of sample n; a validator of None is PHP's null. */
    method Test(X: seq<Vector>, Y: seq<Vector>, draws: Draws, validator: Option<(Vector, Vector) -> real>)
      returns (loss: real, validity: real)
      requires Valid() && lossFunction.Some?
      requires 0 < |X| == |Y| && |X[0]| == inputSize && |Y[0]| == outputSize
      requires CanTest(CurrentSetup(), CurrentParameters(), CurrentActivations(), X, Y) && |draws| == |Y|
      modifies this`inputs, this`outputs, this`dropouts, this`dropout
      ensures Valid()
      ensures var t := TrialOn(CurrentSetup(), CurrentParameters(), LossOf(lossFunction.value.Kind(), maths), validator, X, Y, draws,
                                Trial(old(CurrentActivations()), old(dropout), 0.0, 0.0), |Y|);
        && loss == t.loss && validity == t.validity && CurrentActivations() == t.a && dropout == t.d
    {
      var r := TestOf(CurrentSetup(), CurrentParameters(), CurrentActivations(), CurrentGradients(), dropout,
                      lossFunction.value, validator, X, Y, draws, inputSize);
      StoreActivations(r.a, r.d);
      loss, validity := r.loss, r.validity;
    }

    /** calculate($input): the output layer once forwardPropagate($input) is done. */
    method Calculate(input: Vector, u: (nat, nat) -> Uniform) returns (r: Vector)
      requires Valid() && CurrentSetup().Runs() && |input| == inputSize
      modifies this`inputs, this`outputs, this`dropouts, this`dropout
      ensures Valid()
      ensures CurrentActivations() == Forward(CurrentSetup(), CurrentParameters(), old(CurrentActivations()), input)
      ensures dropout == StraysBefore(structure, dropProbabilities, old(dropout), u, numberOfLayers)
      ensures r == outputs[numberOfLayers - 1]
      ensures r == ForwardOutput(CurrentSetup(), CurrentParameters(), old(CurrentActivations()), input, numberOfLayers - 1)
    {
      ForwardPropagate(input, u);
      r := outputs[numberOfLayers - 1];
      ForwardAt(CurrentSetup(), CurrentParameters(), old(CurrentActivations()), input, numberOfLayers - 1);
    }

    /** getOutput($l): the outputs of layer l, of the output layer when l is
        null. A layer past the stored arrays reads null, which the `: array`
        return type turns into a TypeError: None here. */
    method GetOutput(l: Option<int>) returns (r: Option<Vector>)
      requires Valid()
      requires l.Some? ==> 0 <= l.value < numberOfLayers
      ensures var k := l.GetOr(numberOfLayers - 1);
        && (r.Some? <==> 0 <= k < |structure|)
        && (r.Some? ==> r.value == outputs[k] && |r.value| == structure[k])
    {
      var k := l.GetOr(numberOfLayers - 1);
      if 0 <= k < |outputs| {
        r := Some(outputs[k]);
      } else {
        r := None;
      }
    }

    /** getError($l): the errors of layer l, of the output layer when l is
        null; None for the TypeError past the stored arrays, as in getOutput. */
    method GetError(l: Option<int>) returns (r: Option<Vector>)
      requires Valid()
      requires l.Some? ==> 0 <= l.value < numberOfLayers
      ensures var k := l.GetOr(numberOfLayers - 1);
        && (r.Some? <==> 0 <= k < |structure|)
        && (r.Some? ==> r.value == errors[k] && |r.value| == structure[k])
    {
      var k := l.GetOr(numberOfLayers - 1);
      if 0 <= k < |errors| {
        r := Some(errors[k]);
      } else {
        r := None;
      }
    }
  }
}
