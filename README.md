# phpnn network engine in Dafny

This project models the engine of phpnn, a fully connected feed-forward
neural network written in PHP. Numbers are Dafny `real`. The model covers:

- **The `Network` class and its Dropout concern.** The class keeps one array
  per layer: `structure`, `weights`, `biases`, `inputs`, `outputs`,
  `errors`, `weightGradients`, `biasGradients`, `dropouts` and
  `dropProbabilities`. It also has the stray `dropout` property that
  `setDropouts` writes. Its operations are `__construct`, `setLossFunction`,
  `addLayer`, `init`, `forwardPropagate`, `backwardPropagate`, `update`,
  `train`, `test`, `calculate`, `getOutput` and `getError`.
- **The loss strategies** `MeanSquareLoss` and `CrossEntropyLoss`.
- **The activation strategies** `LinearNeuron`, `RectifierNeuron`,
  `SigmoidNeuron`, `TanhNeuron` and `SignNeuron` (declared in SinNeuron.php).
- **The helpers** `matrix_fill`, `array_last`, `array_shuffle` and
  `binary_rand`.

Layout:

- `maths.dfy` (module `Maths`): `exp`, `log`, `tanh`, `sin` and `cos` are
  left uninterpreted. They are fields of a `Library` value that the network
  carries, and `exp` takes positive values.
- `neurons.dfy` (module `Neurons`): the `Neuron` interface becomes a
  datatype with one constructor per class. `TanhNeuron` and `SignNeuron`
  keep their constructor defaults.
- `losses.dfy` (module `Losses`): the two strategy classes keep their
  loop-based `loss` and `differentiate`. Each is proved against a function.
  The `Loss` interface becomes a datatype over the two strategy objects.
- `helpers.dfy` (module `Helpers`): `matrix_fill` and `array_last` as
  functions. `array_shuffle` runs `shuffle()`'s swap loop on a local copy,
  and the swaps are given as parameters. `binary_rand` takes its uniform
  draw as a parameter.
- `dropout.dfy` (module `Dropout`): `setDropouts` as written.
  - When the drop probability is 0, or the layer is the last one, it
    refills `dropouts[l]` with ones.
  - Otherwise it loops `k < structure[k]` and writes `dropout[l][k]`, a
    different property. So the mask the forward pass multiplies by never
    changes from ones.
- `propagation.dfy` (module `Propagation`): what each layer loop leaves,
  as folds over the layers (`ForwardBelow`, `BackwardFrom`, `SteppedBelow`,
  `InitBelow`). These are tied to the mathematical recurrences:
  - forward: z⁰ = x, zˡ = maskˡ ⊙ fₗ(Wˡ zˡ⁻¹ + bˡ);
  - backward: δᴸ = loss′(zᴸ, y), δˡⱼ = Σₘ δˡ⁺¹ₘ Wˡ⁺¹ₘⱼ fₗ′(uˡⱼ);
  - the gradient step, and the init draws.
- `training.dfy` (module `Training`): `train` and `test` as folds over the
  samples they visit. Lemmas state what the returned loss and validity
  mean.
- `network.dfy` (module `Networks`): the `Network` class.
  - Each loop of the PHP code is a method with its loop invariants, proved
    equal to the function that specifies it.
  - Each class method stores the result in the fields and keeps the object
    invariant `Valid()`: consistent layer arrays and masks of ones.

Where the documented design and the code differ, the model follows the code:

- dropout never changes the mask;
- the sampled factor is `binary_rand(p) ? 1/p : 0`, with p the drop
  probability;
- `test` and `calculate` run the same `setDropouts` as `train`;
- one `train` call processes at most `batchSize` samples and then stops.

## Model

| member | source | states |
|---|---|---|
| Helpers.MatrixFill | src/Support/helpers.php:58-63 | exactly `rows` rows of `cols` entries, each row `array_fill(0, cols, v)` |
| Helpers.ArrayLast | src/Support/helpers.php:88-91 | None (PHP's false) exactly on an empty array, otherwise the last element |
| Helpers.ArrayShuffle | src/Support/helpers.php:73-78 | the result is `shuffle()` of a copy driven by the given swaps; it has the input's length and multiset of elements |
| Helpers.BinaryRand | src/Support/helpers.php:41-46 | returns 0 or 1; 1 exactly when the draw is at most p; always 1 for p = 1 |
| Helpers.ShuffledKeys | src/Networks/Network.php:227 | `array_shuffle(array_keys(...))` of n samples visits every index below n exactly once |
| Helpers.ShuffledKeysArePermutation | src/Networks/Network.php:227 | any sequence with the multiset of `array_keys` of n elements is a permutation of 0..n-1 |
| Neurons.LinearIsIdentity | src/Neurons/LinearNeuron.php:13-27 | activate(x) = x and differentiate(x) = 1 |
| Neurons.LinearIdempotent | src/Neurons/LinearNeuron.php:13-16 | activate(activate(x)) = activate(x) |
| Neurons.LinearStrictlyMonotone | src/Neurons/LinearNeuron.php:13-16 | x < y implies activate(x) < activate(y) |
| Neurons.RectifierIsRamp | src/Neurons/RectifierNeuron.php:13-16 | activate is max(0, x): never negative, at least x, x from 0 up, 0 below |
| Neurons.RectifierDerivativeIsStep | src/Neurons/RectifierNeuron.php:24-27 | differentiate is 1 exactly when x >= 0 and 0 exactly when x < 0; 1 at 0 |
| Neurons.RectifierIsSlopeTimesInput | src/Neurons/RectifierNeuron.php:13-27 | activate(x) = differentiate(x) · x |
| Neurons.RectifierIdempotent | src/Neurons/RectifierNeuron.php:13-16 | activate(activate(x)) = activate(x) |
| Neurons.SigmoidInUnitInterval | src/Neurons/SigmoidNeuron.php:13-16 | with exp positive, 0 < activate(x) < 1 |
| Neurons.SigmoidDerivativeBounds | src/Neurons/SigmoidNeuron.php:24-27 | differentiate(x) = a(1 - a) for a = activate(x), and 0 < differentiate(x) <= 1/4 |
| Neurons.TanhDefaults | src/Neurons/TanhNeuron.php:19-45 | the defaults are max 1 and offset 0, giving activate = tanh and differentiate = 1 - tanh² |
| Neurons.TanhDerivativeIgnoresOffset | src/Neurons/TanhNeuron.php:42-45 | differentiate does not depend on the offset |
| Neurons.TanhDerivativePositive | src/Neurons/TanhNeuron.php:42-45 | max > 0 and \|tanh(x)\| < 1 make differentiate(x) positive |
| Neurons.SignDefaults | src/Neurons/SinNeuron.php:19-45 | the defaults are max 1 and offset 0, giving activate = sin and differentiate = cos |
| Neurons.SignDerivativeIgnoresOffset | src/Neurons/SinNeuron.php:42-45 | differentiate is max · cos(x) whatever the offset |
| Losses.Residual | src/Losses/MeanSquareLoss.php:30-37 | the error vector has \|output\| entries; entry k is output[k] - answer[k] |
| Losses.MeanSquareLoss.Loss | src/Losses/MeanSquareLoss.php:14-21 | the running sum equals Σₙ (oₙ - aₙ)² / 2 / \|o\| |
| Losses.MeanSquareLoss.Differentiate | src/Losses/MeanSquareLoss.php:30-37 | the appended vector is the residual output - answer |
| Losses.CrossEntropyLoss.SetNeuron | src/Losses/CrossEntropyLoss.php:21-24 | stores the neuron and nothing else |
| Losses.CrossEntropyLoss.Loss | src/Losses/CrossEntropyLoss.php:33-40 | the running sum equals -Σₙ [aₙ log oₙ + (1 - aₙ) log(1 - oₙ)] |
| Losses.CrossEntropyLoss.Differentiate | src/Losses/CrossEntropyLoss.php:49-56 | the appended vector is the residual output - answer |
| Losses.ComputeLoss | src/Losses/Loss.php:14 | loss() on either strategy object is the value of its strategy |
| Losses.ComputeError | src/Losses/Loss.php:23 | differentiate() on either strategy object is the residual |
| Losses.ResidualZeroIffMatch | src/Losses/MeanSquareLoss.php:30-37 | the error vector is all zero if and only if the output equals the answer (both directions) |
| Losses.MeanSquareOfExactOutput | src/Losses/MeanSquareLoss.php:14-21 | loss(o, o) = 0 |
| Losses.MeanSquareNonNegative | src/Losses/MeanSquareLoss.php:14-21 | the mean-square loss is never negative |
| Losses.EmptyOutput | src/Losses/MeanSquareLoss.php:16-36 | an empty output gives loss 0 and an empty error vector, for both strategies |
| Losses.CrossEntropyIsAdditive | src/Losses/CrossEntropyLoss.php:33-40 | not divided by \|output\|: the loss of two outputs side by side is the sum of their losses |
| Losses.CrossEntropySingle | src/Losses/CrossEntropyLoss.php:37 | one entry costs -[a log o + (1 - a) log(1 - o)] |
| Dropout.StrayBound | src/Networks/Concerns/Dropout.php:33 | the loop `k < structure[k]` stops at the first index whose width is at most the index, or at the end of `structure` |
| Dropout.DrawnValue | src/Networks/Concerns/Dropout.php:34-35 | a sampled factor is 0 or 1/p, and is non-zero exactly when the draw is at most p |
| Dropout.MaskStaysOnes | src/Networks/Concerns/Dropout.php:28-38 | a mask of ones stays a mask of ones of width structure[l], in both branches |
| Dropout.StrayEntryIsDraw | src/Networks/Concerns/Dropout.php:32-37 | the else-branch divides by a non-zero p; entry k of `dropout[l]` is the draw made there |
| Dropout.StrayAfterKeepsOtherRows | src/Networks/Concerns/Dropout.php:33-36 | setDropouts(l) leaves every row of `dropout` other than l as it was |
| Dropout.EmptyInputNeverSamples | src/Networks/Concerns/Dropout.php:33 | with input width 0 the else-branch loop never runs and `dropout` is never written |
| Networks.SetDropoutsOf | src/Networks/Concerns/Dropout.php:28-38 | the new mask and the new `dropout` property are those of the branch taken |
| Networks.Network.SetDropouts | src/Networks/Concerns/Dropout.php:28-38 | `dropouts[l]` becomes the branch's mask, `dropout` the branch's rows; nothing else changes |
| Networks.Network.constructor | src/Networks/Network.php:124-149 | config defaults (rate 0.01, batch 1); structure [inputSize]; zeroed layer-0 arrays and a square zero matrix; mask of ones; drop probability 0; invariant holds |
| Networks.Network.SetLossFunction | src/Networks/Network.php:157-160 | stores the strategy and keeps the invariant |
| Networks.Network.AddLayer | src/Networks/Network.php:170-186 | appends one layer: zero arrays of width n, n × (previous last width) zero matrices, a mask of ones, the drop probability or 0; earlier layers unchanged; invariant kept |
| Propagation.AddLayerKeepsShape | src/Networks/Network.php:170-186 | the appended arrays keep every array of the layer widths and every mask of ones |
| Networks.Network.Init | src/Networks/Network.php:193-204 | the parameters become `Init` of the old ones; invariant kept |
| Networks.InitOf | src/Networks/Network.php:195-203 | the layer loop leaves `Init` |
| Networks.DrawLayer | src/Networks/Network.php:196-202 | a layer's biases and weight rows are their draws |
| Networks.DrawRowOf | src/Networks/Network.php:199-201 | a weight row is its draws |
| Propagation.InitDrawsEveryParameter | src/Networks/Network.php:193-204 | layers 1 .. numberOfLayers-1 take their draws, sized to the layer and its fan-in; other layers are unchanged |
| Propagation.InitEntries | src/Networks/Network.php:196-201 | bias j of layer l is draw gb(l, j) and weight (j, k) is draw gw(l, j, k) |
| Networks.Network.ForwardPropagate | src/Networks/Network.php:306-324 | activations become `Forward` of the old ones, `dropout` the setDropouts rows; parameters and gradients untouched; invariant kept |
| Networks.ForwardOf | src/Networks/Network.php:306-324 | the layer loop from outputs[0] = x leaves `Forward` |
| Networks.ForwardStepOf | src/Networks/Network.php:310-323 | one layer: setDropouts(l), then that layer's inputs and outputs |
| Networks.ForwardLayer | src/Networks/Network.php:313-322 | inputs uⱼ = bⱼ + Σₖ wⱼₖ zₖ and outputs maskⱼ · activate(uⱼ) |
| Networks.WeightedSumOf | src/Networks/Network.php:314-318 | the running sum bias + Σₖ wₖ zₖ |
| Propagation.ForwardComputesRecurrence | src/Networks/Network.php:306-324 | outputs[l] = zˡ and inputs[l] = uˡ on every computed layer; the other layers keep their old values |
| Propagation.ForwardEntries | src/Networks/Network.php:313-322 | entry j: inputs = bⱼ + Σₖ wⱼₖ outputs[l-1][k] and outputs = dropouts[l][j] · activate(inputs) |
| Propagation.ForwardKeepsMasks | src/Networks/Network.php:310-321 | under masks of ones the pass leaves every mask as it was |
| Propagation.ForwardOutputReadsOnlyMasks | src/Networks/Network.php:306-324 | the recurrence depends on the previous arrays only through their masks |
| Propagation.ForwardAt | src/Networks/Network.php:306-324 | layer i of the finished pass holds zⁱ, uⁱ and its mask |
| Networks.Network.BackwardPropagate | src/Networks/Network.php:335-369 | gradients become `Backward` of the old ones; parameters and activations untouched; invariant kept |
| Networks.BackwardOf | src/Networks/Network.php:335-369 | the output-layer step and the loop l = L-1 .. 1 leave `Backward` |
| Networks.StoreErrorOf | src/Networks/Network.php:342-349 | stores a layer's error and accumulates its gradients |
| Networks.HiddenLayerError | src/Networks/Network.php:353-360 | eⱼ = Σₘ nextₘ wₘⱼ f′(uⱼ) for every neuron j |
| Networks.BackSumOf | src/Networks/Network.php:355-359 | the running sum Σₘ nextₘ wₘⱼ d |
| Networks.AccumulateLayer | src/Networks/Network.php:361-366 | bias gradients gain eⱼ / batchSize; weight rows gain their shares |
| Networks.AccumulateRowOf | src/Networks/Network.php:363-366 | weight gradient (j, k) gains zₖ eⱼ / batchSize |
| Propagation.BackwardComputesDelta | src/Networks/Network.php:335-369 | errors[l] = δˡ for 1 <= l < numberOfLayers, gradients accumulated from δˡ; other layers untouched |
| Propagation.BackwardErrorEntries | src/Networks/Network.php:340-359 | the output layer's error entries are output - answer; a hidden layer's are the back-propagated sums |
| Propagation.BackwardAddsToGradients | src/Networks/Network.php:342-366 | biasGradients[l][j] gains errors[l][j] / batchSize and weightGradients[l][j][k] gains outputs[l-1][k] · errors[l][j] / batchSize |
| Networks.Network.Update | src/Networks/Network.php:378-391 | parameters become `Update` of the old ones and gradients are zeroed; invariant kept |
| Networks.UpdateOf | src/Networks/Network.php:378-391 | the layer loop leaves `Update` and the zeroed gradients |
| Networks.StepLayer | src/Networks/Network.php:381-389 | biases and weight rows step against their gradients; those gradients become zero |
| Networks.StepRowOf | src/Networks/Network.php:385-388 | each entry steps by -rate · gradient; the gradient row becomes zeros |
| Propagation.UpdateIsGradientStep | src/Networks/Network.php:378-391 | layers 1 .. numberOfLayers-1 take one gradient step and their gradients become zero; layer 0, the other layers and the errors are unchanged |
| Propagation.UpdateEntries | src/Networks/Network.php:381-388 | entry by entry: b - rate · g_b and w - rate · g_w, with both gradients exactly 0 |
| Networks.Network.Train | src/Networks/Network.php:216-244 | parameters, arrays, `dropout` and the returned loss are `Trained` on the shuffled keys; weights and biases change only through update(); invariant kept |
| Networks.TrainOf | src/Networks/Network.php:216-244 | shuffles the keys and runs the loop; the result is `Trained` and keeps the invariant |
| Networks.TrainLoopOf | src/Networks/Network.php:227-241 | the loop with its `count` and `break` leaves `Trained` |
| Networks.TrainSampleOf | src/Networks/Network.php:228-235 | one sample: forward, backward, loss / batchSize added |
| Training.Processed | src/Networks/Network.php:227-240 | train() goes through batchSize samples when 1 <= batchSize <= \|X\|, all \|X\| when batchSize is larger, and exactly one (when there is one) when batchSize < 1 |
| Training.TrainedStopsAt | src/Networks/Network.php:237-240 | when the count reaches batchSize, update() runs once on the accumulated gradients, which are then zero |
| Training.TrainedRunsOut | src/Networks/Network.php:227-243 | with fewer samples than batchSize, the parameters are unchanged and the gradients stay accumulated |
| Training.TrainLossIsSampleLossSum | src/Networks/Network.php:227-243 | the returned loss is Σ over visited samples of loss(zᴸ(x), y) / batchSize; masks unchanged |
| Training.TrainLossNonNegative | src/Networks/Network.php:234-235 | with the mean-square loss and a positive batch size the returned loss is never negative |
| Networks.TrainKeepsShape | src/Networks/Network.php:216-244 | train keeps the invariant, whether or not it ends with update() |
| Networks.Network.Test | src/Networks/Network.php:257-280 | the returned loss and validity, the arrays and `dropout` are `TrialOn` all samples; parameters and gradients untouched |
| Networks.TestOf | src/Networks/Network.php:257-280 | the loop's result, which keeps the invariant |
| Networks.TestLoopOf | src/Networks/Network.php:267-277 | the loop over every sample leaves `TrialOn` all of them |
| Networks.TestSampleOf | src/Networks/Network.php:268-276 | one sample: forward, loss / N and validator / N added |
| Training.TestLossIsSampleLossSum | src/Networks/Network.php:267-279 | the returned loss is the mean over all samples of loss(zᴸ(x), y); masks unchanged |
| Training.TestLossNonNegative | src/Networks/Network.php:270-271 | with the mean-square loss, the returned loss is never negative |
| Training.TestLossIgnoresEarlierPasses | src/Networks/Network.php:257-280 | the loss test() returns does not depend on the arrays earlier passes left |
| Training.ValidityBounds | src/Networks/Network.php:273-276 | without a validator the validity stays 0; with values in [0, 1] it grows by at most 1/N per sample |
| Training.ValidityIsAShare | src/Networks/Network.php:264-279 | validator values in [0, 1] give a returned validity in [0, 1] |
| Networks.Network.Calculate | src/Networks/Network.php:288-295 | returns outputs[numberOfLayers - 1], which is zᴸ of the input; the pass is stored as in forwardPropagate |
| Training.CalculateIgnoresEarlierPasses | src/Networks/Network.php:288-295 | under masks of ones the output depends only on the parameters and the input |
| Networks.Network.GetOutput | src/Networks/Network.php:400-407 | requires only the PHP assert on an explicit l; returns the outputs of layer l (of the output layer when l is null), of that layer's width, exactly when that layer is stored, and None for the TypeError otherwise |
| Networks.Network.GetError | src/Networks/Network.php:416-423 | requires only the PHP assert on an explicit l; returns the errors of layer l (of the output layer when l is null), of that layer's width, exactly when that layer is stored, and None for the TypeError otherwise |
| Networks.ForwardKeepsShape | src/Networks/Network.php:306-324 | forwardPropagate keeps the invariant |
| Networks.BackwardKeepsShape | src/Networks/Network.php:335-369 | backwardPropagate keeps the invariant |
| Networks.UpdateKeepsShape | src/Networks/Network.php:378-391 | update keeps the invariant |
| Networks.TestKeepsShape | src/Networks/Network.php:257-280 | test keeps the invariant |
| Networks.InitKeepsShape | src/Networks/Network.php:193-204 | init keeps the invariant |

## Left out

- src/Simulator.php, src/Support/ProgressBar.php and models/Donut.php are not part of this model. They hold the epoch driver, file caching, terminal output and an example problem.
- `gauss_rand` and `debug_dump` (src/Support/helpers.php) are not modelled, because they do floating-point sampling and printing. The values `gauss_rand` returns in `init` are the parameters `gb(l, j)` and `gw(l, j, k)`.
- Randomness enters as parameters:
  - `shuffle()`'s swaps are `picks`, with picks[i] <= i;
  - `mt_rand() / mt_getrandmax()` in `binary_rand` is a `Uniform` draw;
  - each sample's dropout draws are `draws[i]`.
- Floating point is not modelled: numbers are exact reals.
  - `exp`, `log`, `tanh`, `sin` and `cos` are uninterpreted, and the only fact assumed is that `exp` is positive.
  - `log` is total, so the cross-entropy loss has no domain condition.
- PHP's `assert` calls and reads of undefined offsets (null plus a warning) become preconditions, and so does a division by a zero batch size.
- Networks.Network.BackwardPropagate: requires `lossFunction` to be set, and so do Train and Test. Until setLossFunction runs, the property is null and calling `differentiate` or `loss` on it throws an Error. The model does not represent that Error, nor what train leaves behind when it throws: by then forwardPropagate has already overwritten `inputs`, `outputs` and `dropout`.
- Networks.Network.constructor: the input width is a `nat`, and AddLayer's `number` is one too. A negative width makes PHP's `array_fill` throw a ValueError, and the model does not represent that error.
- The `Loss` and `Neuron` interfaces are datatypes, one constructor per implementing class, not traits.
- Networks.Network.Train: requires `numberOfLayers >= 2` and a non-zero `batchSize`. With one layer the PHP code reads `structure[-1]`, and with a zero batch size it divides by zero.
- Networks.Network.Train: requires every input, not only the first, to be exactly as wide as the input layer. A longer later input would run in PHP and leave `outputs[0]` wider than the layer.
- Networks.Network.Test: the same width requirement on every input.
- Networks.Network.ForwardPropagate: requires `|input| == structure[0]`, and so does Calculate.
- Networks.Network.Init: requires `numberOfLayers <= |structure|`, and so does Update. For a layer l at or past `|structure|` the PHP loops read the undefined offset `structure[l]`, which gives null with a warning; `0 < null` is false, so those layers are skipped and nothing is written. The model leaves that warning path out rather than modelling the skipped layers.
- Training.LossOf: applies the strategy's loss only where the answer is at least as wide as the output, and is 0 elsewhere. `CanTest` rules that case out for every sample.
- Networks.Network.Train: the fields are written once, at the end of the call, from a value copy of the state. Nothing else can observe the fields during the loop, so no intermediate state is lost, but the in-place order of the writes is not modelled.
- Helpers.ArrayShuffle: works on a value copy, which matches PHP's by-value arrays. `shuffle()`'s uniformity is not modelled.
- The intended random dropout mask (independent 0-or-1/p factors per neuron of the layer) is not modelled. The code as written never builds it.
