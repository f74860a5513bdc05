/** What each operation of src/Networks/Network.php makes of the network's
    per-layer arrays, as functions on value snapshots of the object. `Setup`
    holds the layer table and the configuration; `Parameters`, `Activations`
    and `Gradients` hold the arrays the operations rewrite, grouped by the
    operation that writes them. The class in module Networks is proved
    against these functions, and the lemmas below state what they mean. */
module Propagation {
  import opened Helpers
  import opened Maths
  import opened Neurons
  import opened Losses
  import opened Dropout

  type Vector = seq<real>
  type Matrix = seq<Vector>

  datatype Setup = Setup(
    structure: seq<nat>,
    neurons: seq<Option<Neuron>>,
    dropProbabilities: seq<real>,
    numberOfLayers: int,
    learningRate: real,
    batchSize: int,
    maths: Library)
  {
    /** One neuron and one drop probability per layer; no neuron on the input layer. */
    predicate Valid()
    {
      && |structure| >= 1
      && |neurons| == |structure|
      && |dropProbabilities| == |structure|
      && neurons[0].None?
      && (forall l | 1 <= l < |structure| :: neurons[l].Some?)
    }

    /** What the loops over `l < numberOfLayers` need: a layer table that has
        those layers, and drop probabilities binary_rand accepts. */
    predicate Runs()
    {
      && Valid()
      && 1 <= numberOfLayers <= |structure|
      && ProbabilitiesUsable(structure, dropProbabilities, numberOfLayers)
    }

    function NeuronAt(l: nat): Neuron
      requires Valid() && 1 <= l < |structure|
    {
      neurons[l].value
    }
  }

  /** The number of columns of layer l's weight matrix: the width of the
      previous layer (the input layer's matrix is square). */
  function FanIn(structure: seq<nat>, l: nat): nat
    requires l < |structure|
  {
    if l == 0 then structure[0] else structure[l - 1]
  }

  /** `weights` and `biases`: what init draws and update steps. */
  datatype Parameters = Parameters(weights: seq<Matrix>, biases: seq<Vector>)

  /** `inputs`, `outputs` and the masks `dropouts`: what forwardPropagate writes. */
  datatype Activations = Activations(inputs: seq<Vector>, outputs: seq<Vector>, dropouts: seq<Vector>)

  /** `errors`, `weightGradients` and `biasGradients`: what backwardPropagate
      writes and update zeroes. */
  datatype Gradients = Gradients(errors: seq<Vector>, weightGradients: seq<Matrix>, biasGradients: seq<Vector>)

  /** One vector per layer, of that layer's width. */
  predicate Layered(S: seq<nat>, v: seq<Vector>)
  {
    |v| == |S| && forall l {:trigger v[l]} | 0 <= l < |S| :: |v[l]| == S[l]
  }

  /** One matrix per layer, of that layer's width times its fan-in. */
  predicate LayeredMatrices(S: seq<nat>, w: seq<Matrix>)
  {
    |w| == |S| && forall l {:trigger w[l]} | 0 <= l < |S| :: IsMatrix(w[l], S[l], FanIn(S, l))
  }

  predicate ParametersShaped(S: seq<nat>, p: Parameters)
  {
    LayeredMatrices(S, p.weights) && Layered(S, p.biases)
  }

  predicate ActivationsShaped(S: seq<nat>, a: Activations)
  {
    Layered(S, a.inputs) && Layered(S, a.outputs) && Layered(S, a.dropouts)
  }

  predicate GradientsShaped(S: seq<nat>, g: Gradients)
  {
    Layered(S, g.errors) && LayeredMatrices(S, g.weightGradients) && Layered(S, g.biasGradients)
  }

  /** Every dropout mask is array_fill(0, width, 1.0). */
  predicate MaskIsIdentity(S: seq<nat>, a: Activations)
  {
    |a.dropouts| == |S| && forall l | 0 <= l < |S| :: a.dropouts[l] == Fill(S[l], 1.0)
  }

  // ---- addLayer ----

  /** The layer table after addLayer(neuron, number, ['dropout' => p]). */
  function AddedSetup(s: Setup, neuron: Neuron, number: nat, drop: Option<real>): Setup
  {
    s.(structure := s.structure + [number],
       neurons := s.neurons + [Some(neuron)],
       dropProbabilities := s.dropProbabilities + [drop.GetOr(0.0)])
  }

  /** addLayer's zeroed weights, sized against the last layer before the
      call, and zeroed biases. */
  function AddedParameters(S: seq<nat>, p: Parameters, number: nat): Parameters
    requires |S| >= 1
  {
    Parameters(p.weights + [MatrixFill(number, S[|S| - 1], 0.0)], p.biases + [Fill(number, 0.0)])
  }

  /** addLayer's zeroed inputs and outputs, and a mask of ones. */
  function AddedActivations(a: Activations, number: nat): Activations
  {
    Activations(a.inputs + [Fill(number, 0.0)], a.outputs + [Fill(number, 0.0)], a.dropouts + [Fill(number, 1.0)])
  }

  /** addLayer's zeroed errors and gradients. */
  function AddedGradients(S: seq<nat>, g: Gradients, number: nat): Gradients
    requires |S| >= 1
  {
    Gradients(g.errors + [Fill(number, 0.0)], g.weightGradients + [MatrixFill(number, S[|S| - 1], 0.0)],
              g.biasGradients + [Fill(number, 0.0)])
  }

  /** Appending a vector of the new width keeps a per-layer array layered. */
  lemma {:induction false} LayeredAppend(S: seq<nat>, v: seq<Vector>, number: nat, x: real)
    requires Layered(S, v)
    ensures Layered(S + [number], v + [Fill(number, x)])
  {
    var S', v' := S + [number], v + [Fill(number, x)];
    forall l | 0 <= l < |S'|
      ensures |v'[l]| == S'[l]
    {
      if l < |S| {
        assert v'[l] == v[l] && S'[l] == S[l];
      }
    }
  }

  /** Appending a number x last-width matrix keeps the weight arrays layered. */
  lemma {:induction false} LayeredMatricesAppend(S: seq<nat>, w: seq<Matrix>, number: nat)
    requires |S| >= 1 && LayeredMatrices(S, w)
    ensures LayeredMatrices(S + [number], w + [MatrixFill(number, S[|S| - 1], 0.0)])
  {
    var S', w' := S + [number], w + [MatrixFill(number, S[|S| - 1], 0.0)];
    forall l | 0 <= l < |S'|
      ensures IsMatrix(w'[l], S'[l], FanIn(S', l))
    {
      if l < |S| {
        assert w'[l] == w[l] && S'[l] == S[l] && FanIn(S', l) == FanIn(S, l);
      } else {
        assert FanIn(S', l) == S[|S| - 1];
      }
    }
  }

  /** addLayer keeps the layer table consistent, every array of the layer
      widths, and every mask the identity. */
  lemma {:induction false} AddLayerKeepsShape(s: Setup, p: Parameters, a: Activations, g: Gradients,
                                              neuron: Neuron, number: nat, drop: Option<real>)
    requires s.Valid()
    requires ParametersShaped(s.structure, p) && ActivationsShaped(s.structure, a) && GradientsShaped(s.structure, g)
    requires MaskIsIdentity(s.structure, a)
    ensures var s' := AddedSetup(s, neuron, number, drop);
      && s'.Valid()
      && ParametersShaped(s'.structure, AddedParameters(s.structure, p, number))
      && ActivationsShaped(s'.structure, AddedActivations(a, number))
      && GradientsShaped(s'.structure, AddedGradients(s.structure, g, number))
      && MaskIsIdentity(s'.structure, AddedActivations(a, number))
  {
    var S := s.structure;
    var s' := AddedSetup(s, neuron, number, drop);
    var a' := AddedActivations(a, number);
    LayeredMatricesAppend(S, p.weights, number);
    LayeredAppend(S, p.biases, number, 0.0);
    LayeredAppend(S, a.inputs, number, 0.0);
    LayeredAppend(S, a.outputs, number, 0.0);
    LayeredAppend(S, a.dropouts, number, 1.0);
    LayeredAppend(S, g.errors, number, 0.0);
    LayeredMatricesAppend(S, g.weightGradients, number);
    LayeredAppend(S, g.biasGradients, number, 0.0);
    forall l | 1 <= l < |s'.structure|
      ensures s'.neurons[l].Some?
    {
      if l < |S| {
        assert s'.neurons[l] == s.neurons[l];
      }
    }
    forall l | 0 <= l < |s'.structure|
      ensures a'.dropouts[l] == Fill(s'.structure[l], 1.0)
    {
      if l < |S| {
        assert a'.dropouts[l] == a.dropouts[l] && s'.structure[l] == S[l];
      }
    }
  }

  // ---- forwardPropagate ----

  /** bias + w[0]*z[0] + ... + w[n-1]*z[n-1], accumulated from the bias. */
  function WeightedSum(bias: real, w: Vector, z: Vector, n: nat): real
    requires n <= |w| && n <= |z|
  {
    if n == 0 then bias else WeightedSum(bias, w, z, n - 1) + w[n - 1] * z[n - 1]
  }

  /** The first `width` inputs of a layer, u_j = b_j + Σ_k w_jk z_k. */
  function LayerInput(w: Matrix, bias: Vector, z: Vector, width: nat, fanIn: nat): (u: Vector)
    requires width <= |w| && width <= |bias| && fanIn <= |z|
    requires forall j | 0 <= j < width :: fanIn <= |w[j]|
    ensures |u| == width
    decreases width
  {
    if width == 0 then []
    else LayerInput(w, bias, z, width - 1, fanIn) + [WeightedSum(bias[width - 1], w[width - 1], z, fanIn)]
  }

  /** One neuron's output: its activation f(u), scaled by its mask entry. */
  function Fire(neuron: Neuron, m: Library, mask: real, u: real): real
  {
    mask * neuron.Activate(m, u)
  }

  /** The first `width` outputs of a layer, z_j = mask_j * f(u_j), f the
      neuron's activate. */
  function LayerOutput(neuron: Neuron, m: Library, mask: Vector, u: Vector, width: nat): (z: Vector)
    requires width <= |mask| && width <= |u|
    ensures |z| == width
    decreases width
  {
    if width == 0 then []
    else LayerOutput(neuron, m, mask, u, width - 1) + [Fire(neuron, m, mask[width - 1], u[width - 1])]
  }

  /** Entry j of a layer's input is b_j + Σ_k w_jk z_k. */
  lemma {:induction false} LayerInputAt(w: Matrix, bias: Vector, z: Vector, width: nat, fanIn: nat, j: nat)
    requires width <= |w| && width <= |bias| && fanIn <= |z|
    requires forall i | 0 <= i < width :: fanIn <= |w[i]|
    requires j < width
    ensures LayerInput(w, bias, z, width, fanIn)[j] == WeightedSum(bias[j], w[j], z, fanIn)
    decreases width
  {
    if j < width - 1 {
      LayerInputAt(w, bias, z, width - 1, fanIn, j);
    }
  }

  /** Entry j of a layer's output is mask_j * activate(u_j). */
  lemma {:induction false} LayerOutputAt(neuron: Neuron, m: Library, mask: Vector, u: Vector, width: nat, j: nat)
    requires width <= |mask| && width <= |u| && j < width
    ensures LayerOutput(neuron, m, mask, u, width)[j] == Fire(neuron, m, mask[j], u[j])
    decreases width
  {
    if j < width - 1 {
      LayerOutputAt(neuron, m, mask, u, width - 1, j);
    }
  }

  /** The body of forwardPropagate's loop for layer l: setDropouts(l) (its
      effect on the mask), then inputs[l] from outputs[l - 1] and outputs[l]
      through the layer's neuron and mask. */
  function ForwardStep(s: Setup, p: Parameters, a: Activations, l: nat): (r: Activations)
    requires s.Runs() && ParametersShaped(s.structure, p) && ActivationsShaped(s.structure, a)
    requires 1 <= l < s.numberOfLayers
    ensures ActivationsShaped(s.structure, r)
  {
    var S := s.structure;
    var mask := MaskAfter(S, s.dropProbabilities, a.dropouts[l], l);
    var input := LayerInput(p.weights[l], p.biases[l], a.outputs[l - 1], S[l], S[l - 1]);
    Activations(a.inputs[l := input], a.outputs[l := LayerOutput(s.NeuronAt(l), s.maths, mask, input, S[l])],
                a.dropouts[l := mask])
  }

  /** The arrays once forwardPropagate(x) has stored x as outputs[0] and done
      the layers below l. */
  function ForwardBelow(s: Setup, p: Parameters, a: Activations, x: Vector, l: nat): (r: Activations)
    requires s.Runs() && ParametersShaped(s.structure, p) && ActivationsShaped(s.structure, a)
    requires |x| == s.structure[0] && 1 <= l <= s.numberOfLayers
    ensures ActivationsShaped(s.structure, r)
    decreases l
  {
    if l == 1 then a.(outputs := a.outputs[0 := x])
    else ForwardStep(s, p, ForwardBelow(s, p, a, x, l - 1), l - 1)
  }

  /** forwardPropagate(x). */
  function Forward(s: Setup, p: Parameters, a: Activations, x: Vector): (r: Activations)
    requires s.Runs() && ParametersShaped(s.structure, p) && ActivationsShaped(s.structure, a)
    requires |x| == s.structure[0]
    ensures ActivationsShaped(s.structure, r)
  {
    ForwardBelow(s, p, a, x, s.numberOfLayers)
  }

  /** The mask layer l's outputs are multiplied by: dropouts[l] after setDropouts(l). */
  function MaskOf(s: Setup, a: Activations, l: nat): (mask: Vector)
    requires s.Valid() && ActivationsShaped(s.structure, a) && l < |s.structure|
    ensures |mask| == s.structure[l]
  {
    MaskAfter(s.structure, s.dropProbabilities, a.dropouts[l], l)
  }

  /** The feed-forward recurrence the pass computes: z^0 = x and
      z^l = mask^l ⊙ f_l(W^l z^(l-1) + b^l). */
  function ForwardOutput(s: Setup, p: Parameters, a: Activations, x: Vector, l: nat): (z: Vector)
    requires s.Runs() && ParametersShaped(s.structure, p) && ActivationsShaped(s.structure, a)
    requires |x| == s.structure[0] && l < s.numberOfLayers
    ensures |z| == s.structure[l]
  {
    if l == 0 then x
    else
      var S := s.structure;
      LayerOutput(s.NeuronAt(l), s.maths, MaskOf(s, a, l),
                  LayerInput(p.weights[l], p.biases[l], ForwardOutput(s, p, a, x, l - 1), S[l], S[l - 1]), S[l])
  }

  /** u^l = W^l z^(l-1) + b^l. */
  function ForwardInput(s: Setup, p: Parameters, a: Activations, x: Vector, l: nat): (u: Vector)
    requires s.Runs() && ParametersShaped(s.structure, p) && ActivationsShaped(s.structure, a)
    requires |x| == s.structure[0] && 1 <= l < s.numberOfLayers
    ensures |u| == s.structure[l]
  {
    LayerInput(p.weights[l], p.biases[l], ForwardOutput(s, p, a, x, l - 1), s.structure[l], s.structure[l - 1])
  }

  /** ForwardBelow one layer further, l = k + 1, is one more ForwardStep, on layer k. */
  lemma {:induction false} ForwardBelowUnfold(s: Setup, p: Parameters, a: Activations, x: Vector, l: nat, k: nat)
    requires s.Runs() && ParametersShaped(s.structure, p) && ActivationsShaped(s.structure, a)
    requires |x| == s.structure[0] && 1 <= k && l == k + 1 <= s.numberOfLayers
    ensures ForwardBelow(s, p, a, x, l) == ForwardStep(s, p, ForwardBelow(s, p, a, x, k), k)
  {
  }

  /** One more layer of the forward pass leaves every other layer as it was. */
  lemma {:induction false} ForwardBelowKeeps(s: Setup, p: Parameters, a: Activations, x: Vector, l: nat, k: nat, i: nat)
    requires s.Runs() && ParametersShaped(s.structure, p) && ActivationsShaped(s.structure, a)
    requires |x| == s.structure[0] && 1 <= k && l == k + 1 <= s.numberOfLayers
    requires i < |s.structure| && i != k
    ensures var r, q := ForwardBelow(s, p, a, x, l), ForwardBelow(s, p, a, x, k);
      r.outputs[i] == q.outputs[i] && r.inputs[i] == q.inputs[i] && r.dropouts[i] == q.dropouts[i]
  {
    ForwardBelowUnfold(s, p, a, x, l, k);
  }

  /** Layers from l up are untouched by the layers below l. */
  lemma {:induction false} ForwardBelowAbove(s: Setup, p: Parameters, a: Activations, x: Vector, l: nat, i: nat)
    requires s.Runs() && ParametersShaped(s.structure, p) && ActivationsShaped(s.structure, a)
    requires |x| == s.structure[0] && 1 <= l <= s.numberOfLayers && l <= i < |s.structure|
    ensures var r := ForwardBelow(s, p, a, x, l);
      r.outputs[i] == a.outputs[i] && r.inputs[i] == a.inputs[i] && r.dropouts[i] == a.dropouts[i]
    decreases l
  {
    if l > 1 {
      ForwardBelowKeeps(s, p, a, x, l, l - 1, i);
      ForwardBelowAbove(s, p, a, x, l - 1, i);
    }
  }

  /** Once layer i is done (the pass has reached j = i + 1), the later layers
      leave it as it is. */
  lemma {:induction false} ForwardBelowStable(s: Setup, p: Parameters, a: Activations, x: Vector, l: nat, j: nat, i: nat)
    requires s.Runs() && ParametersShaped(s.structure, p) && ActivationsShaped(s.structure, a)
    requires |x| == s.structure[0] && j == i + 1 <= l <= s.numberOfLayers
    ensures var r, q := ForwardBelow(s, p, a, x, l), ForwardBelow(s, p, a, x, j);
      r.outputs[i] == q.outputs[i] && r.inputs[i] == q.inputs[i] && r.dropouts[i] == q.dropouts[i]
    decreases l
  {
    if l > j {
      ForwardBelowKeeps(s, p, a, x, l, l - 1, i);
      ForwardBelowStable(s, p, a, x, l - 1, j, i);
    }
  }

  /** The step on layer k, from arrays c whose mask for k is the original one
      and whose outputs[j], j = k - 1, is z^j, stores the recurrence's values
      for layer k. */
  lemma {:induction false} ForwardStepStores(s: Setup, p: Parameters, a: Activations, c: Activations, x: Vector, k: nat, j: nat)
    requires s.Runs() && ParametersShaped(s.structure, p) && ActivationsShaped(s.structure, a)
    requires ActivationsShaped(s.structure, c) && |x| == s.structure[0] && 1 <= k < s.numberOfLayers && j + 1 == k
    requires c.dropouts[k] == a.dropouts[k] && c.outputs[j] == ForwardOutput(s, p, a, x, j)
    ensures var r := ForwardStep(s, p, c, k);
      r.outputs[k] == ForwardOutput(s, p, a, x, k) && r.inputs[k] == ForwardInput(s, p, a, x, k)
      && r.dropouts[k] == MaskOf(s, a, k)
  {
    var r := ForwardStep(s, p, c, k);
    assert r.dropouts[k] == MaskOf(s, a, k);
    assert r.inputs[k] == ForwardInput(s, p, a, x, k);
  }

  /** The pass starts by storing x as outputs[0]. */
  lemma {:induction false} ForwardBelowFirst(s: Setup, p: Parameters, a: Activations, x: Vector)
    requires s.Runs() && ParametersShaped(s.structure, p) && ActivationsShaped(s.structure, a)
    requires |x| == s.structure[0]
    ensures ForwardBelow(s, p, a, x, 1) == a.(outputs := a.outputs[0 := x])
    ensures ForwardOutput(s, p, a, x, 0) == x
  {
  }

  /** Once the pass has done layer k (it has reached l = k + 1), that layer
      holds the recurrence's values and its mask. */
  lemma {:induction false} ForwardBelowTop(s: Setup, p: Parameters, a: Activations, x: Vector, l: nat, k: nat)
    requires s.Runs() && ParametersShaped(s.structure, p) && ActivationsShaped(s.structure, a)
    requires |x| == s.structure[0] && 1 <= k && l == k + 1 <= s.numberOfLayers
    ensures var r := ForwardBelow(s, p, a, x, l);
      && r.outputs[k] == ForwardOutput(s, p, a, x, k)
      && r.inputs[k] == ForwardInput(s, p, a, x, k)
      && r.dropouts[k] == MaskOf(s, a, k)
    decreases k
  {
    if k == 1 {
      ForwardBelowFirst(s, p, a, x);
    } else {
      ForwardBelowTop(s, p, a, x, k, k - 1);
    }
    ForwardBelowNext(s, p, a, x, l, k, k - 1);
  }

  /** The step from layer j = k - 1, whose output the pass has stored, to layer k. */
  lemma {:induction false} ForwardBelowNext(s: Setup, p: Parameters, a: Activations, x: Vector, l: nat, k: nat, j: nat)
    requires s.Runs() && ParametersShaped(s.structure, p) && ActivationsShaped(s.structure, a)
    requires |x| == s.structure[0] && 1 <= k && l == k + 1 <= s.numberOfLayers && j + 1 == k
    requires ForwardBelow(s, p, a, x, k).outputs[j] == ForwardOutput(s, p, a, x, j)
    ensures var r := ForwardBelow(s, p, a, x, l);
      && r.outputs[k] == ForwardOutput(s, p, a, x, k)
      && r.inputs[k] == ForwardInput(s, p, a, x, k)
      && r.dropouts[k] == MaskOf(s, a, k)
  {
    ForwardBelowAbove(s, p, a, x, k, k);
    ForwardBelowUnfold(s, p, a, x, l, k);
    ForwardStepStores(s, p, a, ForwardBelow(s, p, a, x, k), x, k, j);
  }

  /** Layer i of the finished pass holds what the pass stored when it did layer i. */
  lemma {:induction false} ForwardAt(s: Setup, p: Parameters, a: Activations, x: Vector, i: nat)
    requires s.Runs() && ParametersShaped(s.structure, p) && ActivationsShaped(s.structure, a)
    requires |x| == s.structure[0] && i < s.numberOfLayers
    ensures var r := Forward(s, p, a, x);
      && r.outputs[i] == ForwardOutput(s, p, a, x, i)
      && (i >= 1 ==> r.inputs[i] == ForwardInput(s, p, a, x, i) && r.dropouts[i] == MaskOf(s, a, i))
      && (i == 0 ==> r.inputs[0] == a.inputs[0] && r.dropouts[0] == a.dropouts[0])
  {
    ForwardBelowStable(s, p, a, x, s.numberOfLayers, i + 1, i);
    if i == 0 {
      ForwardBelowFirst(s, p, a, x);
    } else {
      ForwardBelowTop(s, p, a, x, i + 1, i);
    }
  }

  /** forwardPropagate(x) leaves outputs[l] = z^l and inputs[l] = u^l on every
      layer below numberOfLayers, and every other layer as it was. */
  lemma {:induction false} ForwardComputesRecurrence(s: Setup, p: Parameters, a: Activations, x: Vector)
    requires s.Runs() && ParametersShaped(s.structure, p) && ActivationsShaped(s.structure, a)
    requires |x| == s.structure[0]
    ensures var r := Forward(s, p, a, x);
      && (forall l | 0 <= l < s.numberOfLayers :: r.outputs[l] == ForwardOutput(s, p, a, x, l))
      && (forall l | 1 <= l < s.numberOfLayers :: r.inputs[l] == ForwardInput(s, p, a, x, l))
      && (forall l | s.numberOfLayers <= l < |s.structure| :: r.inputs[l] == a.inputs[l] && r.outputs[l] == a.outputs[l])
      && r.inputs[0] == a.inputs[0]
  {
    var n, r := s.numberOfLayers, Forward(s, p, a, x);
    forall l | 0 <= l < n
      ensures r.outputs[l] == ForwardOutput(s, p, a, x, l)
    {
      ForwardAt(s, p, a, x, l);
    }
    forall l | 1 <= l < n
      ensures r.inputs[l] == ForwardInput(s, p, a, x, l)
    {
      ForwardAt(s, p, a, x, l);
    }
    forall l | n <= l < |s.structure|
      ensures r.inputs[l] == a.inputs[l] && r.outputs[l] == a.outputs[l]
    {
      ForwardBelowAbove(s, p, a, x, n, l);
    }
    ForwardAt(s, p, a, x, 0);
  }

  /** Under masks of ones, the forward pass leaves every mask as it was. */
  lemma {:induction false} ForwardKeepsMasks(s: Setup, p: Parameters, a: Activations, x: Vector)
    requires s.Runs() && ParametersShaped(s.structure, p) && ActivationsShaped(s.structure, a)
    requires |x| == s.structure[0] && MaskIsIdentity(s.structure, a)
    ensures Forward(s, p, a, x).dropouts == a.dropouts
  {
    var r := Forward(s, p, a, x);
    forall l | 0 <= l < |s.structure|
      ensures r.dropouts[l] == a.dropouts[l]
    {
      if l < s.numberOfLayers {
        ForwardAt(s, p, a, x, l);
        if l >= 1 {
          MaskStaysOnes(s.structure, s.dropProbabilities, a.dropouts[l], l);
        }
      } else {
        ForwardBelowAbove(s, p, a, x, s.numberOfLayers, l);
      }
    }
  }

  /** The recurrence reads the arrays it starts from only through their masks. */
  lemma {:induction false} ForwardOutputReadsOnlyMasks(s: Setup, p: Parameters, a: Activations, a': Activations, x: Vector, l: nat)
    requires s.Runs() && ParametersShaped(s.structure, p)
    requires ActivationsShaped(s.structure, a) && ActivationsShaped(s.structure, a') && a.dropouts == a'.dropouts
    requires |x| == s.structure[0] && l < s.numberOfLayers
    ensures ForwardOutput(s, p, a, x, l) == ForwardOutput(s, p, a', x, l)
    decreases l
  {
    if l > 0 {
      ForwardOutputReadsOnlyMasks(s, p, a, a', x, l - 1);
    }
  }

  /** After forwardPropagate(x), entry j of layer l holds
      inputs[l][j] = b_j + Σ_k w_jk outputs[l-1][k] and
      outputs[l][j] = dropouts[l][j] * activate(inputs[l][j]). */
  lemma {:induction false} ForwardEntries(s: Setup, p: Parameters, a: Activations, x: Vector, l: nat, j: nat)
    requires s.Runs() && ParametersShaped(s.structure, p) && ActivationsShaped(s.structure, a)
    requires |x| == s.structure[0] && 1 <= l < s.numberOfLayers && j < s.structure[l]
    ensures var r := Forward(s, p, a, x);
      && r.inputs[l][j] == WeightedSum(p.biases[l][j], p.weights[l][j], r.outputs[l - 1], s.structure[l - 1])
      && r.outputs[l][j] == r.dropouts[l][j] * s.NeuronAt(l).Activate(s.maths, r.inputs[l][j])
  {
    var S := s.structure;
    ForwardAt(s, p, a, x, l);
    ForwardAt(s, p, a, x, l - 1);
    LayerInputAt(p.weights[l], p.biases[l], ForwardOutput(s, p, a, x, l - 1), S[l], S[l - 1], j);
    LayerOutputAt(s.NeuronAt(l), s.maths, MaskOf(s, a, l), ForwardInput(s, p, a, x, l), S[l], j);
  }

  // ---- backwardPropagate ----

  /** Σ_{m<n} e[m] * w[m][j] * d, accumulated from 0.0. */
  function BackSum(e: Vector, w: Matrix, j: nat, d: real, n: nat): real
    requires n <= |e| && n <= |w| && forall i | 0 <= i < n :: j < |w[i]|
  {
    if n == 0 then 0.0 else BackSum(e, w, j, d, n - 1) + e[n - 1] * w[n - 1][j] * d
  }

  /** The errors of a hidden layer from the next layer's errors `next`, the
      next layer's weights `w` and this layer's inputs `u`, through the
      layer's neuron's differentiate. */
  function HiddenError(neuron: Neuron, m: Library, next: Vector, w: Matrix, u: Vector, width: nat, nextWidth: nat): (e: Vector)
    requires width <= |u| && nextWidth <= |next| && nextWidth <= |w|
    requires forall i | 0 <= i < nextWidth :: width <= |w[i]|
    ensures |e| == width
    decreases width
  {
    if width == 0 then []
    else
      HiddenError(neuron, m, next, w, u, width - 1, nextWidth)
      + [BackSum(next, w, width - 1, neuron.Differentiate(m, u[width - 1]), nextWidth)]
  }

  /** The first `width` entries of biasGradients[l] after
      biasGradients[l][j] += errors[l][j] / batchSize. */
  function AccumulateBias(g: Vector, e: Vector, batchSize: int, width: nat): (r: Vector)
    requires width <= |g| && width <= |e| && batchSize != 0
    ensures |r| == width
    decreases width
  {
    if width == 0 then []
    else AccumulateBias(g, e, batchSize, width - 1) + [g[width - 1] + e[width - 1] / (batchSize as real)]
  }

  /** The first `fanIn` entries of row j of weightGradients[l] after
      weightGradients[l][j][k] += outputs[l-1][k] * errors[l][j] / batchSize;
      `g` is the row and `d` the error errors[l][j]. */
  function AccumulateRow(g: Vector, d: real, z: Vector, batchSize: int, fanIn: nat): (r: Vector)
    requires fanIn <= |g| && fanIn <= |z| && batchSize != 0
    ensures |r| == fanIn
    decreases fanIn
  {
    if fanIn == 0 then []
    else AccumulateRow(g, d, z, batchSize, fanIn - 1) + [g[fanIn - 1] + z[fanIn - 1] * d / (batchSize as real)]
  }

  /** The first `width` rows of weightGradients[l] after the accumulation. */
  function AccumulateWeights(g: Matrix, e: Vector, z: Vector, batchSize: int, width: nat, fanIn: nat): (r: Matrix)
    requires width <= |g| && width <= |e| && fanIn <= |z| && batchSize != 0
    requires forall j | 0 <= j < width :: fanIn <= |g[j]|
    ensures IsMatrix(r, width, fanIn)
    decreases width
  {
    if width == 0 then []
    else AccumulateWeights(g, e, z, batchSize, width - 1, fanIn) + [AccumulateRow(g[width - 1], e[width - 1], z, batchSize, fanIn)]
  }

  /** Entry j of a hidden layer's error is Σ_m next_m * w_mj * f'(u_j). */
  lemma {:induction false} HiddenErrorAt(neuron: Neuron, m: Library, next: Vector, w: Matrix, u: Vector, width: nat, nextWidth: nat, j: nat)
    requires width <= |u| && nextWidth <= |next| && nextWidth <= |w|
    requires forall i | 0 <= i < nextWidth :: width <= |w[i]|
    requires j < width
    ensures HiddenError(neuron, m, next, w, u, width, nextWidth)[j] == BackSum(next, w, j, neuron.Differentiate(m, u[j]), nextWidth)
    decreases width
  {
    if j < width - 1 {
      HiddenErrorAt(neuron, m, next, w, u, width - 1, nextWidth, j);
    }
  }

  /** Entry j of the bias gradient gains e_j / batchSize. */
  lemma {:induction false} AccumulateBiasAt(g: Vector, e: Vector, batchSize: int, width: nat, j: nat)
    requires width <= |g| && width <= |e| && batchSize != 0 && j < width
    ensures AccumulateBias(g, e, batchSize, width)[j] == g[j] + e[j] / (batchSize as real)
    decreases width
  {
    if j < width - 1 {
      AccumulateBiasAt(g, e, batchSize, width - 1, j);
    }
  }

  /** Entry k of a weight-gradient row gains z_k * d / batchSize. */
  lemma {:induction false} AccumulateRowAt(g: Vector, d: real, z: Vector, batchSize: int, fanIn: nat, k: nat)
    requires fanIn <= |g| && fanIn <= |z| && batchSize != 0 && k < fanIn
    ensures AccumulateRow(g, d, z, batchSize, fanIn)[k] == g[k] + z[k] * d / (batchSize as real)
    decreases fanIn
  {
    if k < fanIn - 1 {
      AccumulateRowAt(g, d, z, batchSize, fanIn - 1, k);
    }
  }

  /** Row j of the weight gradient is row j accumulated with the error e_j. */
  lemma {:induction false} AccumulateWeightsAt(g: Matrix, e: Vector, z: Vector, batchSize: int, width: nat, fanIn: nat, j: nat)
    requires width <= |g| && width <= |e| && fanIn <= |z| && batchSize != 0
    requires forall i | 0 <= i < width :: fanIn <= |g[i]|
    requires j < width
    ensures AccumulateWeights(g, e, z, batchSize, width, fanIn)[j] == AccumulateRow(g[j], e[j], z, batchSize, fanIn)
    decreases width
  {
    if j < width - 1 {
      AccumulateWeightsAt(g, e, z, batchSize, width - 1, fanIn, j);
    }
  }

  /** What the backpropagation recurrence needs: at least two layers, a
      non-zero batch size and an answer as wide as the output layer. `loss`
      is the network's loss strategy. */
  predicate CanDelta(s: Setup, p: Parameters, a: Activations, loss: LossKind, answer: Vector)
  {
    && s.Runs()
    && ParametersShaped(s.structure, p) && ActivationsShaped(s.structure, a)
    && s.numberOfLayers >= 2 && s.batchSize != 0
    && |answer| >= s.structure[s.numberOfLayers - 1]
  }

  /** What backwardPropagate needs: the above, and gradients of the layer widths. */
  predicate CanBackward(s: Setup, p: Parameters, a: Activations, g: Gradients, loss: LossKind, answer: Vector)
  {
    CanDelta(s, p, a, loss, answer) && GradientsShaped(s.structure, g)
  }

  /** Layer l's error e stored, and its gradients accumulated from e and outputs[l - 1]. */
  function StoreError(s: Setup, a: Activations, g: Gradients, l: nat, e: Vector): (r: Gradients)
    requires s.Valid() && ActivationsShaped(s.structure, a) && GradientsShaped(s.structure, g)
    requires 1 <= l < |s.structure| && |e| == s.structure[l] && s.batchSize != 0
    ensures GradientsShaped(s.structure, r)
  {
    var S := s.structure;
    Gradients(g.errors[l := e],
              g.weightGradients[l := AccumulateWeights(g.weightGradients[l], e, a.outputs[l - 1], s.batchSize, S[l], S[l - 1])],
              g.biasGradients[l := AccumulateBias(g.biasGradients[l], e, s.batchSize, S[l])])
  }

  /** The arrays once backwardPropagate has done layers numberOfLayers-1
      down to l: the output layer's error is the loss strategy's
      differentiate, each hidden layer's comes from the layer above. */
  function BackwardFrom(s: Setup, p: Parameters, a: Activations, g: Gradients, loss: LossKind, answer: Vector, l: nat): (r: Gradients)
    requires CanBackward(s, p, a, g, loss, answer) && 1 <= l < s.numberOfLayers
    ensures GradientsShaped(s.structure, r)
    decreases s.numberOfLayers - l
  {
    var S, L := s.structure, s.numberOfLayers - 1;
    if l == L then StoreError(s, a, g, L, loss.Differentiate(a.outputs[L], answer))
    else
      var q := BackwardFrom(s, p, a, g, loss, answer, l + 1);
      StoreError(s, a, q, l, HiddenError(s.NeuronAt(l), s.maths, q.errors[l + 1], p.weights[l + 1], a.inputs[l], S[l], S[l + 1]))
  }

  /** backwardPropagate(answer). */
  function Backward(s: Setup, p: Parameters, a: Activations, g: Gradients, loss: LossKind, answer: Vector): (r: Gradients)
    requires CanBackward(s, p, a, g, loss, answer)
    ensures GradientsShaped(s.structure, r)
  {
    BackwardFrom(s, p, a, g, loss, answer, 1)
  }

  /** The backpropagation recurrence: δ^L = loss'(z^L, answer) and
      δ^l_j = Σ_m δ^(l+1)_m w^(l+1)_mj f_l'(u^l_j). */
  function Delta(s: Setup, p: Parameters, a: Activations, loss: LossKind, answer: Vector, l: nat): (e: Vector)
    requires CanDelta(s, p, a, loss, answer) && 1 <= l < s.numberOfLayers
    ensures |e| == s.structure[l]
    decreases s.numberOfLayers - l
  {
    var L := s.numberOfLayers - 1;
    if l == L then loss.Differentiate(a.outputs[L], answer)
    else HiddenError(s.NeuronAt(l), s.maths, Delta(s, p, a, loss, answer, l + 1), p.weights[l + 1], a.inputs[l],
                     s.structure[l], s.structure[l + 1])
  }

  /** One more layer of the backward pass, l below l + 1, is one more StoreError. */
  lemma {:induction false} BackwardFromUnfold(s: Setup, p: Parameters, a: Activations, g: Gradients, loss: LossKind, answer: Vector, l: nat)
    requires CanBackward(s, p, a, g, loss, answer) && 1 <= l < s.numberOfLayers - 1
    ensures var q := BackwardFrom(s, p, a, g, loss, answer, l + 1);
      BackwardFrom(s, p, a, g, loss, answer, l)
      == StoreError(s, a, q, l, HiddenError(s.NeuronAt(l), s.maths, q.errors[l + 1], p.weights[l + 1], a.inputs[l],
                                            s.structure[l], s.structure[l + 1]))
  {
  }

  /** Doing layer l leaves every other layer's error and gradients as they were. */
  lemma {:induction false} BackwardFromKeeps(s: Setup, p: Parameters, a: Activations, g: Gradients, loss: LossKind, answer: Vector, l: nat, i: nat)
    requires CanBackward(s, p, a, g, loss, answer) && 1 <= l < s.numberOfLayers - 1 && i < |s.structure| && i != l
    ensures var r, q := BackwardFrom(s, p, a, g, loss, answer, l), BackwardFrom(s, p, a, g, loss, answer, l + 1);
      r.errors[i] == q.errors[i] && r.weightGradients[i] == q.weightGradients[i] && r.biasGradients[i] == q.biasGradients[i]
  {
    BackwardFromUnfold(s, p, a, g, loss, answer, l);
  }

  /** Layers below l, and the layers from numberOfLayers up, are untouched. */
  lemma {:induction false} BackwardFromOutside(s: Setup, p: Parameters, a: Activations, g: Gradients, loss: LossKind, answer: Vector, l: nat, i: nat)
    requires CanBackward(s, p, a, g, loss, answer) && 1 <= l < s.numberOfLayers && i < |s.structure|
    requires i < l || s.numberOfLayers <= i
    ensures var r := BackwardFrom(s, p, a, g, loss, answer, l);
      r.errors[i] == g.errors[i] && r.weightGradients[i] == g.weightGradients[i] && r.biasGradients[i] == g.biasGradients[i]
    decreases s.numberOfLayers - l
  {
    if l < s.numberOfLayers - 1 {
      BackwardFromKeeps(s, p, a, g, loss, answer, l, i);
      BackwardFromOutside(s, p, a, g, loss, answer, l + 1, i);
    }
  }

  /** Once layer i is done, the layers below it leave it as it is. */
  lemma {:induction false} BackwardFromStable(s: Setup, p: Parameters, a: Activations, g: Gradients, loss: LossKind, answer: Vector, l: nat, i: nat)
    requires CanBackward(s, p, a, g, loss, answer) && 1 <= l <= i < s.numberOfLayers
    ensures var r, q := BackwardFrom(s, p, a, g, loss, answer, l), BackwardFrom(s, p, a, g, loss, answer, i);
      r.errors[i] == q.errors[i] && r.weightGradients[i] == q.weightGradients[i] && r.biasGradients[i] == q.biasGradients[i]
    decreases i - l
  {
    if l < i {
      BackwardFromKeeps(s, p, a, g, loss, answer, l, i);
      BackwardFromStable(s, p, a, g, loss, answer, l + 1, i);
    }
  }

  /** The layer the pass has just done holds δ^l and the gradients accumulated from it. */
  lemma {:induction false} BackwardFromTop(s: Setup, p: Parameters, a: Activations, g: Gradients, loss: LossKind, answer: Vector, l: nat)
    requires CanBackward(s, p, a, g, loss, answer) && 1 <= l < s.numberOfLayers
    ensures var r, d := BackwardFrom(s, p, a, g, loss, answer, l), Delta(s, p, a, loss, answer, l);
      && r.errors[l] == d
      && r.biasGradients[l] == AccumulateBias(g.biasGradients[l], d, s.batchSize, s.structure[l])
      && r.weightGradients[l] == AccumulateWeights(g.weightGradients[l], d, a.outputs[l - 1], s.batchSize, s.structure[l], s.structure[l - 1])
    decreases s.numberOfLayers - l
  {
    var S, L := s.structure, s.numberOfLayers - 1;
    if l < L {
      BackwardFromTop(s, p, a, g, loss, answer, l + 1);
      BackwardFromOutside(s, p, a, g, loss, answer, l + 1, l);
      BackwardFromUnfold(s, p, a, g, loss, answer, l);
      var q := BackwardFrom(s, p, a, g, loss, answer, l + 1);
      StoreErrorTop(s, a, q, l, HiddenError(s.NeuronAt(l), s.maths, q.errors[l + 1], p.weights[l + 1], a.inputs[l], S[l], S[l + 1]));
    } else {
      StoreErrorTop(s, a, g, L, loss.Differentiate(a.outputs[L], answer));
    }
  }

  /** StoreError puts e in layer l and accumulates layer l's gradients from it. */
  lemma StoreErrorTop(s: Setup, a: Activations, g: Gradients, l: nat, e: Vector)
    requires s.Valid() && ActivationsShaped(s.structure, a) && GradientsShaped(s.structure, g)
    requires 1 <= l < |s.structure| && |e| == s.structure[l] && s.batchSize != 0
    ensures var r := StoreError(s, a, g, l, e);
      && r.errors[l] == e
      && r.biasGradients[l] == AccumulateBias(g.biasGradients[l], e, s.batchSize, s.structure[l])
      && r.weightGradients[l] == AccumulateWeights(g.weightGradients[l], e, a.outputs[l - 1], s.batchSize, s.structure[l], s.structure[l - 1])
  {
  }

  /** Layer i of the finished pass holds what the pass stored when it did layer i. */
  lemma {:induction false} BackwardAt(s: Setup, p: Parameters, a: Activations, g: Gradients, loss: LossKind, answer: Vector, i: nat)
    requires CanBackward(s, p, a, g, loss, answer) && 1 <= i < s.numberOfLayers
    ensures var r, d := Backward(s, p, a, g, loss, answer), Delta(s, p, a, loss, answer, i);
      && r.errors[i] == d
      && r.biasGradients[i] == AccumulateBias(g.biasGradients[i], d, s.batchSize, s.structure[i])
      && r.weightGradients[i] == AccumulateWeights(g.weightGradients[i], d, a.outputs[i - 1], s.batchSize, s.structure[i], s.structure[i - 1])
  {
    BackwardFromStable(s, p, a, g, loss, answer, 1, i);
    BackwardFromTop(s, p, a, g, loss, answer, i);
  }

  /** backwardPropagate(answer) stores δ^l as errors[l] for every layer from 1
      to numberOfLayers-1 and adds δ^l / batchSize, and z^(l-1) δ^l / batchSize,
      to the gradients; the input layer and the layers above are untouched. */
  lemma {:induction false} BackwardComputesDelta(s: Setup, p: Parameters, a: Activations, g: Gradients, loss: LossKind, answer: Vector)
    requires CanBackward(s, p, a, g, loss, answer)
    ensures var r := Backward(s, p, a, g, loss, answer);
      && (forall l | 1 <= l < s.numberOfLayers ::
            && r.errors[l] == Delta(s, p, a, loss, answer, l)
            && r.biasGradients[l] == AccumulateBias(g.biasGradients[l], Delta(s, p, a, loss, answer, l), s.batchSize, s.structure[l])
            && r.weightGradients[l] == AccumulateWeights(g.weightGradients[l], Delta(s, p, a, loss, answer, l), a.outputs[l - 1], s.batchSize, s.structure[l], s.structure[l - 1]))
      && (forall l | 0 <= l < |s.structure| && !(1 <= l < s.numberOfLayers) ::
            r.errors[l] == g.errors[l] && r.biasGradients[l] == g.biasGradients[l] && r.weightGradients[l] == g.weightGradients[l])
  {
    var r := Backward(s, p, a, g, loss, answer);
    forall l | 1 <= l < s.numberOfLayers
      ensures && r.errors[l] == Delta(s, p, a, loss, answer, l)
              && r.biasGradients[l] == AccumulateBias(g.biasGradients[l], Delta(s, p, a, loss, answer, l), s.batchSize, s.structure[l])
              && r.weightGradients[l] == AccumulateWeights(g.weightGradients[l], Delta(s, p, a, loss, answer, l), a.outputs[l - 1], s.batchSize, s.structure[l], s.structure[l - 1])
    {
      BackwardAt(s, p, a, g, loss, answer, l);
    }
    forall l | 0 <= l < |s.structure| && !(1 <= l < s.numberOfLayers)
      ensures r.errors[l] == g.errors[l] && r.biasGradients[l] == g.biasGradients[l] && r.weightGradients[l] == g.weightGradients[l]
    {
      BackwardFromOutside(s, p, a, g, loss, answer, 1, l);
    }
  }

  /** After backwardPropagate(answer), entry j of layer l holds the output
      layer's residual or the hidden layer's back-propagated sum as its error. */
  lemma {:induction false} BackwardErrorEntries(s: Setup, p: Parameters, a: Activations, g: Gradients, loss: LossKind, answer: Vector, l: nat, j: nat)
    requires CanBackward(s, p, a, g, loss, answer) && 1 <= l < s.numberOfLayers && j < s.structure[l]
    ensures var r, L := Backward(s, p, a, g, loss, answer), s.numberOfLayers - 1;
      && (l == L ==> r.errors[l][j] == a.outputs[l][j] - answer[j])
      && (l < L ==> r.errors[l][j] == BackSum(r.errors[l + 1], p.weights[l + 1], j,
                                              s.NeuronAt(l).Differentiate(s.maths, a.inputs[l][j]), s.structure[l + 1]))
  {
    var L := s.numberOfLayers - 1;
    BackwardAt(s, p, a, g, loss, answer, l);
    if l < L {
      BackwardAt(s, p, a, g, loss, answer, l + 1);
      HiddenErrorAt(s.NeuronAt(l), s.maths, Delta(s, p, a, loss, answer, l + 1), p.weights[l + 1], a.inputs[l],
                    s.structure[l], s.structure[l + 1], j);
    }
  }

  /** One layer's accumulation, entry by entry: bias j gains e_j / batchSize
      and weight (j, k) gains z_k * e_j / batchSize. */
  lemma {:induction false} AccumulateEntries(gb: Vector, gw: Matrix, e: Vector, z: Vector, batchSize: int, width: nat, fanIn: nat, j: nat)
    requires |gb| == width && |e| == width && IsMatrix(gw, width, fanIn) && |z| == fanIn && batchSize != 0 && j < width
    ensures AccumulateBias(gb, e, batchSize, width)[j] == gb[j] + e[j] / (batchSize as real)
    ensures forall k | 0 <= k < fanIn ::
              AccumulateWeights(gw, e, z, batchSize, width, fanIn)[j][k] == gw[j][k] + z[k] * e[j] / (batchSize as real)
  {
    AccumulateBiasAt(gb, e, batchSize, width, j);
    AccumulateWeightsAt(gw, e, z, batchSize, width, fanIn, j);
    forall k | 0 <= k < fanIn
      ensures AccumulateRow(gw[j], e[j], z, batchSize, fanIn)[k] == gw[j][k] + z[k] * e[j] / (batchSize as real)
    {
      AccumulateRowAt(gw[j], e[j], z, batchSize, fanIn, k);
    }
  }

  /** backwardPropagate adds errors[l][j] / batchSize to biasGradients[l][j]
      and outputs[l-1][k] * errors[l][j] / batchSize to weightGradients[l][j][k]. */
  lemma {:induction false} BackwardAddsToGradients(s: Setup, p: Parameters, a: Activations, g: Gradients, loss: LossKind, answer: Vector, l: nat, j: nat)
    requires CanBackward(s, p, a, g, loss, answer) && 1 <= l < s.numberOfLayers && j < s.structure[l]
    ensures var r, b := Backward(s, p, a, g, loss, answer), s.batchSize as real;
      && r.biasGradients[l][j] == g.biasGradients[l][j] + r.errors[l][j] / b
      && forall k | 0 <= k < s.structure[l - 1] ::
           r.weightGradients[l][j][k] == g.weightGradients[l][j][k] + a.outputs[l - 1][k] * r.errors[l][j] / b
  {
    var r, d := Backward(s, p, a, g, loss, answer), Delta(s, p, a, loss, answer, l);
    BackwardAt(s, p, a, g, loss, answer, l);
    AccumulateEntries(g.biasGradients[l], g.weightGradients[l], d, a.outputs[l - 1], s.batchSize, s.structure[l], s.structure[l - 1], j);
    assert r.errors[l][j] == d[j];
    assert r.weightGradients[l] == AccumulateWeights(g.weightGradients[l], d, a.outputs[l - 1], s.batchSize, s.structure[l], s.structure[l - 1]);
  }

  // ---- update ----

  /** p_j - learningRate * g_j for every entry. */
  function StepVector(p: Vector, g: Vector, rate: real, width: nat): (r: Vector)
    requires width <= |p| && width <= |g|
    ensures |r| == width
    decreases width
  {
    if width == 0 then [] else StepVector(p, g, rate, width - 1) + [p[width - 1] - rate * g[width - 1]]
  }

  /** The same step on every row of a weight matrix. */
  function StepMatrix(p: Matrix, g: Matrix, rate: real, width: nat, fanIn: nat): (r: Matrix)
    requires width <= |p| && width <= |g|
    requires forall j | 0 <= j < width :: fanIn <= |p[j]| && fanIn <= |g[j]|
    ensures IsMatrix(r, width, fanIn)
    decreases width
  {
    if width == 0 then [] else StepMatrix(p, g, rate, width - 1, fanIn) + [StepVector(p[width - 1], g[width - 1], rate, fanIn)]
  }

  /** Entry j of a stepped vector is p_j - learningRate * g_j. */
  lemma {:induction false} StepVectorAt(p: Vector, g: Vector, rate: real, width: nat, j: nat)
    requires width <= |p| && width <= |g| && j < width
    ensures StepVector(p, g, rate, width)[j] == p[j] - rate * g[j]
    decreases width
  {
    if j < width - 1 {
      StepVectorAt(p, g, rate, width - 1, j);
    }
  }

  /** Row j of a stepped matrix is row j stepped against gradient row j. */
  lemma {:induction false} StepMatrixAt(p: Matrix, g: Matrix, rate: real, width: nat, fanIn: nat, j: nat)
    requires width <= |p| && width <= |g|
    requires forall i | 0 <= i < width :: fanIn <= |p[i]| && fanIn <= |g[i]|
    requires j < width
    ensures StepMatrix(p, g, rate, width, fanIn)[j] == StepVector(p[j], g[j], rate, fanIn)
    decreases width
  {
    if j < width - 1 {
      StepMatrixAt(p, g, rate, width - 1, fanIn, j);
    }
  }

  /** The parameters once update() has stepped the layers below l against the
      gradients g (each layer's gradients are read before that layer zeroes them). */
  function SteppedBelow(s: Setup, p: Parameters, g: Gradients, l: int): (r: Parameters)
    requires s.Valid() && ParametersShaped(s.structure, p) && GradientsShaped(s.structure, g) && l <= |s.structure|
    ensures ParametersShaped(s.structure, r)
    decreases l
  {
    if l <= 1 then p
    else
      var q, S, k := SteppedBelow(s, p, g, l - 1), s.structure, l - 1;
      Parameters(q.weights[k := StepMatrix(q.weights[k], g.weightGradients[k], s.learningRate, S[k], S[k - 1])],
                 q.biases[k := StepVector(q.biases[k], g.biasGradients[k], s.learningRate, S[k])])
  }

  /** The gradients once update() has zeroed those of the layers below l. */
  function ZeroedBelow(s: Setup, g: Gradients, l: int): (r: Gradients)
    requires s.Valid() && GradientsShaped(s.structure, g) && l <= |s.structure|
    ensures GradientsShaped(s.structure, r)
    decreases l
  {
    if l <= 1 then g
    else
      var h, S, k := ZeroedBelow(s, g, l - 1), s.structure, l - 1;
      h.(weightGradients := h.weightGradients[k := MatrixFill(S[k], S[k - 1], 0.0)],
         biasGradients := h.biasGradients[k := Fill(S[k], 0.0)])
  }

  /** update(): the parameters of layers 1 .. numberOfLayers-1 after their step. */
  function Update(s: Setup, p: Parameters, g: Gradients): (r: Parameters)
    requires s.Valid() && s.numberOfLayers <= |s.structure|
    requires ParametersShaped(s.structure, p) && GradientsShaped(s.structure, g)
    ensures ParametersShaped(s.structure, r)
  {
    SteppedBelow(s, p, g, s.numberOfLayers)
  }

  /** update(): the gradients of layers 1 .. numberOfLayers-1 zeroed. */
  function ZeroGradients(s: Setup, g: Gradients): (r: Gradients)
    requires s.Valid() && s.numberOfLayers <= |s.structure| && GradientsShaped(s.structure, g)
    ensures GradientsShaped(s.structure, r)
  {
    ZeroedBelow(s, g, s.numberOfLayers)
  }

  lemma {:induction false} SteppedBelowAt(s: Setup, p: Parameters, g: Gradients, l: int, i: nat)
    requires s.Valid() && ParametersShaped(s.structure, p) && GradientsShaped(s.structure, g)
    requires l <= |s.structure| && i < |s.structure|
    ensures var r := SteppedBelow(s, p, g, l);
      if 1 <= i < l then
        && r.biases[i] == StepVector(p.biases[i], g.biasGradients[i], s.learningRate, s.structure[i])
        && r.weights[i] == StepMatrix(p.weights[i], g.weightGradients[i], s.learningRate, s.structure[i], s.structure[i - 1])
      else r.biases[i] == p.biases[i] && r.weights[i] == p.weights[i]
    decreases l
  {
    if l > 1 {
      SteppedBelowAt(s, p, g, l - 1, i);
    }
  }

  lemma {:induction false} ZeroedBelowAt(s: Setup, g: Gradients, l: int, i: nat)
    requires s.Valid() && GradientsShaped(s.structure, g) && l <= |s.structure| && i < |s.structure|
    ensures var r := ZeroedBelow(s, g, l);
      && r.errors == g.errors
      && if 1 <= i < l then
           r.biasGradients[i] == Fill(s.structure[i], 0.0)
           && r.weightGradients[i] == MatrixFill(s.structure[i], s.structure[i - 1], 0.0)
         else r.biasGradients[i] == g.biasGradients[i] && r.weightGradients[i] == g.weightGradients[i]
    decreases l
  {
    if l > 1 {
      ZeroedBelowAt(s, g, l - 1, i);
    }
  }

  /** update() takes one gradient step on every parameter of layers 1 ..
      numberOfLayers-1 and zeroes their gradients; nothing else changes. */
  lemma {:induction false} UpdateIsGradientStep(s: Setup, p: Parameters, g: Gradients)
    requires s.Valid() && s.numberOfLayers <= |s.structure|
    requires ParametersShaped(s.structure, p) && GradientsShaped(s.structure, g)
    ensures var r, h := Update(s, p, g), ZeroGradients(s, g);
      && (forall l | 1 <= l < s.numberOfLayers ::
            && r.biases[l] == StepVector(p.biases[l], g.biasGradients[l], s.learningRate, s.structure[l])
            && r.weights[l] == StepMatrix(p.weights[l], g.weightGradients[l], s.learningRate, s.structure[l], s.structure[l - 1])
            && h.biasGradients[l] == Fill(s.structure[l], 0.0)
            && h.weightGradients[l] == MatrixFill(s.structure[l], s.structure[l - 1], 0.0))
      && (forall l | 0 <= l < |s.structure| && !(1 <= l < s.numberOfLayers) ::
            && r.biases[l] == p.biases[l] && r.weights[l] == p.weights[l]
            && h.biasGradients[l] == g.biasGradients[l] && h.weightGradients[l] == g.weightGradients[l])
      && h.errors == g.errors
  {
    var r, h := Update(s, p, g), ZeroGradients(s, g);
    forall l | 1 <= l < s.numberOfLayers
      ensures && r.biases[l] == StepVector(p.biases[l], g.biasGradients[l], s.learningRate, s.structure[l])
              && r.weights[l] == StepMatrix(p.weights[l], g.weightGradients[l], s.learningRate, s.structure[l], s.structure[l - 1])
              && h.biasGradients[l] == Fill(s.structure[l], 0.0)
              && h.weightGradients[l] == MatrixFill(s.structure[l], s.structure[l - 1], 0.0)
    {
      SteppedBelowAt(s, p, g, s.numberOfLayers, l);
      ZeroedBelowAt(s, g, s.numberOfLayers, l);
    }
    forall l | 0 <= l < |s.structure| && !(1 <= l < s.numberOfLayers)
      ensures && r.biases[l] == p.biases[l] && r.weights[l] == p.weights[l]
              && h.biasGradients[l] == g.biasGradients[l] && h.weightGradients[l] == g.weightGradients[l]
    {
      SteppedBelowAt(s, p, g, s.numberOfLayers, l);
      ZeroedBelowAt(s, g, s.numberOfLayers, l);
    }
    ZeroedBelowAt(s, g, s.numberOfLayers, 0);
  }

  /** One layer's step, entry by entry. */
  lemma {:induction false} StepEntries(bias: Vector, w: Matrix, gb: Vector, gw: Matrix, rate: real, width: nat, fanIn: nat, j: nat)
    requires |bias| == width && |gb| == width && IsMatrix(w, width, fanIn) && IsMatrix(gw, width, fanIn) && j < width
    ensures StepVector(bias, gb, rate, width)[j] == bias[j] - rate * gb[j]
    ensures forall k | 0 <= k < fanIn :: StepMatrix(w, gw, rate, width, fanIn)[j][k] == w[j][k] - rate * gw[j][k]
  {
    StepVectorAt(bias, gb, rate, width, j);
    StepMatrixAt(w, gw, rate, width, fanIn, j);
    forall k | 0 <= k < fanIn
      ensures StepVector(w[j], gw[j], rate, fanIn)[k] == w[j][k] - rate * gw[j][k]
    {
      StepVectorAt(w[j], gw[j], rate, fanIn, k);
    }
  }

  /** After update(), entry j of layer l has taken its step and its gradients are 0. */
  lemma {:induction false} UpdateEntries(s: Setup, p: Parameters, g: Gradients, l: nat, j: nat)
    requires s.Valid() && s.numberOfLayers <= |s.structure|
    requires ParametersShaped(s.structure, p) && GradientsShaped(s.structure, g)
    requires 1 <= l < s.numberOfLayers && j < s.structure[l]
    ensures var r, h, rate := Update(s, p, g), ZeroGradients(s, g), s.learningRate;
      && r.biases[l][j] == p.biases[l][j] - rate * g.biasGradients[l][j]
      && h.biasGradients[l][j] == 0.0
      && forall k | 0 <= k < s.structure[l - 1] ::
           r.weights[l][j][k] == p.weights[l][j][k] - rate * g.weightGradients[l][j][k] && h.weightGradients[l][j][k] == 0.0
  {
    SteppedBelowAt(s, p, g, s.numberOfLayers, l);
    ZeroedBelowAt(s, g, s.numberOfLayers, l);
    StepEntries(p.biases[l], p.weights[l], g.biasGradients[l], g.weightGradients[l], s.learningRate,
                s.structure[l], s.structure[l - 1], j);
  }

  // ---- init ----

  /** Layer l's biases drawn by init(); gb(l, j) is gauss_rand's value. */
  function DrawnBiases(l: nat, width: nat, gb: (nat, nat) -> real): (r: Vector)
    ensures |r| == width
    decreases width
  {
    if width == 0 then [] else DrawnBiases(l, width - 1, gb) + [gb(l, width - 1)]
  }

  /** Row j of layer l's weights drawn by init(). */
  function DrawnRow(l: nat, j: nat, fanIn: nat, gw: (nat, nat, nat) -> real): (r: Vector)
    ensures |r| == fanIn
    decreases fanIn
  {
    if fanIn == 0 then [] else DrawnRow(l, j, fanIn - 1, gw) + [gw(l, j, fanIn - 1)]
  }

  /** Layer l's weights drawn by init(); gw(l, j, k) is gauss_rand's value. */
  function DrawnWeights(l: nat, width: nat, fanIn: nat, gw: (nat, nat, nat) -> real): (r: Matrix)
    ensures IsMatrix(r, width, fanIn)
    decreases width
  {
    if width == 0 then [] else DrawnWeights(l, width - 1, fanIn, gw) + [DrawnRow(l, width - 1, fanIn, gw)]
  }

  /** Bias j of layer l is the draw gb(l, j). */
  lemma {:induction false} DrawnBiasesAt(l: nat, width: nat, gb: (nat, nat) -> real, j: nat)
    requires j < width
    ensures DrawnBiases(l, width, gb)[j] == gb(l, j)
    decreases width
  {
    if j < width - 1 {
      DrawnBiasesAt(l, width - 1, gb, j);
    }
  }

  /** Weight (j, k) of layer l is the draw gw(l, j, k). */
  lemma {:induction false} DrawnWeightsAt(l: nat, width: nat, fanIn: nat, gw: (nat, nat, nat) -> real, j: nat, k: nat)
    requires j < width && k < fanIn
    ensures DrawnWeights(l, width, fanIn, gw)[j][k] == gw(l, j, k)
    decreases width
  {
    if j < width - 1 {
      DrawnWeightsAt(l, width - 1, fanIn, gw, j, k);
    } else {
      DrawnRowAt(l, j, fanIn, gw, k);
    }
  }

  lemma {:induction false} DrawnRowAt(l: nat, j: nat, fanIn: nat, gw: (nat, nat, nat) -> real, k: nat)
    requires k < fanIn
    ensures DrawnRow(l, j, fanIn, gw)[k] == gw(l, j, k)
    decreases fanIn
  {
    if k < fanIn - 1 {
      DrawnRowAt(l, j, fanIn - 1, gw, k);
    }
  }

  /** The parameters once init() has drawn the layers below l. */
  function InitBelow(s: Setup, p: Parameters, gb: (nat, nat) -> real, gw: (nat, nat, nat) -> real, l: int): (r: Parameters)
    requires s.Valid() && ParametersShaped(s.structure, p) && l <= |s.structure|
    ensures ParametersShaped(s.structure, r)
    decreases l
  {
    if l <= 1 then p
    else
      var q, S, k := InitBelow(s, p, gb, gw, l - 1), s.structure, l - 1;
      Parameters(q.weights[k := DrawnWeights(k, S[k], S[k - 1], gw)], q.biases[k := DrawnBiases(k, S[k], gb)])
  }

  /** init(): layers 1 .. numberOfLayers-1. */
  function Init(s: Setup, p: Parameters, gb: (nat, nat) -> real, gw: (nat, nat, nat) -> real): (r: Parameters)
    requires s.Valid() && s.numberOfLayers <= |s.structure| && ParametersShaped(s.structure, p)
    ensures ParametersShaped(s.structure, r)
  {
    InitBelow(s, p, gb, gw, s.numberOfLayers)
  }

  lemma {:induction false} InitBelowAt(s: Setup, p: Parameters, gb: (nat, nat) -> real, gw: (nat, nat, nat) -> real, l: int, i: nat)
    requires s.Valid() && ParametersShaped(s.structure, p) && l <= |s.structure| && i < |s.structure|
    ensures var r := InitBelow(s, p, gb, gw, l);
      if 1 <= i < l then r.biases[i] == DrawnBiases(i, s.structure[i], gb) && r.weights[i] == DrawnWeights(i, s.structure[i], s.structure[i - 1], gw)
      else r.biases[i] == p.biases[i] && r.weights[i] == p.weights[i]
    decreases l
  {
    if l > 1 {
      InitBelowAt(s, p, gb, gw, l - 1, i);
    }
  }

  /** init() gives every bias and weight of layers 1 .. numberOfLayers-1 its
      own draw, sized to the layer and its fan-in; the input layer keeps its zeros. */
  lemma {:induction false} InitDrawsEveryParameter(s: Setup, p: Parameters, gb: (nat, nat) -> real, gw: (nat, nat, nat) -> real)
    requires s.Valid() && s.numberOfLayers <= |s.structure| && ParametersShaped(s.structure, p)
    ensures var r := Init(s, p, gb, gw);
      && (forall l | 1 <= l < s.numberOfLayers ::
            r.biases[l] == DrawnBiases(l, s.structure[l], gb) && r.weights[l] == DrawnWeights(l, s.structure[l], s.structure[l - 1], gw))
      && (forall l | 0 <= l < |s.structure| && !(1 <= l < s.numberOfLayers) :: r.biases[l] == p.biases[l] && r.weights[l] == p.weights[l])
  {
    var r := Init(s, p, gb, gw);
    forall l | 1 <= l < s.numberOfLayers
      ensures r.biases[l] == DrawnBiases(l, s.structure[l], gb) && r.weights[l] == DrawnWeights(l, s.structure[l], s.structure[l - 1], gw)
    {
      InitBelowAt(s, p, gb, gw, s.numberOfLayers, l);
    }
    forall l | 0 <= l < |s.structure| && !(1 <= l < s.numberOfLayers)
      ensures r.biases[l] == p.biases[l] && r.weights[l] == p.weights[l]
    {
      InitBelowAt(s, p, gb, gw, s.numberOfLayers, l);
    }
  }

  /** After init(), bias j of layer l is the draw gb(l, j) and weight (j, k) the draw gw(l, j, k). */
  lemma {:induction false} InitEntries(s: Setup, p: Parameters, gb: (nat, nat) -> real, gw: (nat, nat, nat) -> real, l: nat, j: nat)
    requires s.Valid() && s.numberOfLayers <= |s.structure| && ParametersShaped(s.structure, p)
    requires 1 <= l < s.numberOfLayers && j < s.structure[l]
    ensures var r := Init(s, p, gb, gw);
      && r.biases[l][j] == gb(l, j)
      && forall k | 0 <= k < s.structure[l - 1] :: r.weights[l][j][k] == gw(l, j, k)
  {
    InitDrawsEveryParameter(s, p, gb, gw);
    DrawnBiasesAt(l, s.structure[l], gb, j);
    forall k | 0 <= k < s.structure[l - 1]
      ensures DrawnWeights(l, s.structure[l], s.structure[l - 1], gw)[j][k] == gw(l, j, k)
    {
      DrawnWeightsAt(l, s.structure[l], s.structure[l - 1], gw, j, k);
    }
  }
}
