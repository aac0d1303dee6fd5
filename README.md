# ANN: a verified model of a dense feedforward network

This project models the `ANN` class of `index.js`, a fully connected feedforward
neural network that keeps its parameters in nested arrays. The model covers:

- construction of the weights, velocities and biases from `layerNodeCounts` and init callbacks;
- the forward pass (`propagateForward`, `run`);
- the backward pass of `trainSample`, with its derivative cache and momentum velocities;
- the in-place appliers `applyWeightDeltas`, `applyBiasDeltas` and their batch variants;
- `train` and `trainBatch`;
- the copying getters;
- the arithmetic default functions: ReLU, leaky ReLU, mean squared loss and its derivative,
  the simple and velocity weight deltas, the simple bias delta and the constant learning rate.

Numbers are Dafny `real`s, so arithmetic is exact, and the model is about shapes and index
bookkeeping rather than accuracy. The activation function and its derivative are parameters
(`Config.activation`, `Config.activationDerivative`), and so is the weight init function, which
always has to be supplied. The loss, loss-derivative, weight-delta, bias-delta, learning-rate and
bias-init functions are optional, and each defaults as the constructor defaults it. The error-init,
error-delta and train-init functions are always their defaults. The layer-computation and
train-cleanup hooks are not modelled; "## Left out" lists each of these.

`index.js` is one file holding one class. The modules split it by role: the default static
functions, the tensor operations, the pure specification of a pass, and the class itself.

- `wrappers.dfy`: `Option` (a JavaScript `null` or a left-out option) and `Result` (a thrown error).
- `tensors.dfy` (module `Tensors`): the nested-array types.
  - JavaScript truthiness (`Present`, `Or0`, `DeltaValue`) and the fixed shapes.
  - The element-wise results of the appliers and of the batch sums: `WeightsPlus`,
    `BiasesPlus`, `DeltaSum`.
  - Weight counting.
- `default_functions.dfy` (module `DefaultFunctions`): the hyperparameters, the signatures of
  the pluggable functions, and the arithmetic defaults with their lemmas.
- `propagation.dfy` (module `Propagation`): what one forward pass, one backward pass, one
  sample and one batch compute, as functions of the parameters, and the properties proved of them.
- `network.dfy` (module `Network`): the `ANN` class.
  - Its fields are reassigned by methods whose loops mirror the source's loops.
  - Each method is proved to compute the corresponding `Propagation` function, or to leave the
    state that function describes.

How the model reads the source's shapes:

- **Compacted weight rows.** A weight row holds only the non-null init values, pushed in k
  order (`index.js:86-91`). It can be shorter than the next layer, and a position past its
  end is a missing weight.
- **Positions are used as destinations.** Like the source, the forward and backward passes
  read position k of a compacted row as the weight to destination k. A row with a null init
  before its end therefore shifts later weights to earlier destinations. The model keeps
  this behaviour as written.
- **Holes in delta arrays.** A weight delta is `Option<real>`. `None` stands for the hole
  that `trainSample` leaves where the weight is not truthy (`index.js:320`).
- **Default weight-delta function.** Without a supplied weight-delta function,
  `velocityWeightDeltaFunction` updates `velocities` as a side effect. A supplied function
  (`PureRule`) is taken to change no state.

## Model

| member | source | states |
|---|---|---|
| DefaultFunctions.FalsyOr | index.js:47 | the falsy default `v or d`: an absent value or an explicit 0 gives the default, and any other given value is kept as it is; a non-zero default gives a non-zero result |
| DefaultFunctions.ReluActivation | index.js:128-130 | ReLU clamped at `maxSafeOutputSize`: never above the clamp, the input itself on `[0, clamp]`, 0 for inputs ≤ 0, the clamp above it |
| DefaultFunctions.ReluDerivative | index.js:132-134 | the derivative is 1 exactly when input j is positive and 0 exactly otherwise |
| DefaultFunctions.LeakyReluActivation | index.js:136-138 | leaky ReLU clamped at `maxSafeOutputSize`: the input on `[0, clamp]`, `input * leak` for inputs ≤ 0 (leak in [0, 1]), exactly the clamp for inputs at or above it, never above the clamp |
| DefaultFunctions.LeakyReluDerivative | index.js:140-142 | 1 for a positive input, the leak factor otherwise |
| DefaultFunctions.SquaredErrorSum | index.js:165-168 | the running sum of squared differences (missing outputs read as 0) is never negative |
| DefaultFunctions.MeanSquaredLoss | index.js:164-170 | the mean squared loss is never negative |
| DefaultFunctions.SquaredLossDerivative | index.js:172-174 | `2 (t_j - o_j)` is 0 exactly when output j hits its target and positive exactly when the output is below it |
| DefaultFunctions.ReluSlope | index.js:128-134 | the ReLU derivative is the slope of ReLU between any two points on the same side of 0 (below the clamp) |
| DefaultFunctions.LeakyReluSlope | index.js:136-142 | the leaky-ReLU derivative is the slope of leaky ReLU between any two points on the same side of 0 |
| DefaultFunctions.SquaredLossDerivativeIsSlope | index.js:164-174 | moving the output by e changes the squared error by `-e * derivative + e^2`, so the derivative is minus the error's slope |
| DefaultFunctions.SquaredErrorSumZero | index.js:165-168 | outputs equal to their targets give a squared-error sum of 0 |
| DefaultFunctions.MeanSquaredLossAtTarget | index.js:164-170 | outputs equal to their targets give a loss of 0 |
| DefaultFunctions.MomentumAccumulates | index.js:204-210 | from rest, the first velocity delta is the plain decayed step; with positive momentum, a second equal step gives a larger delta |
| DefaultFunctions.NullOr | index.js:30-41 | the null default of the numeric options: an absent value gives the default, and a given value is kept, even 0, which `v or d` would replace |
| DefaultFunctions.VelocityValue | index.js:204-210 | the new velocity exceeds the decayed step by exactly momentum times the old velocity, and is the plain step from rest or with zero momentum |
| DefaultFunctions.SimpleWeightDeltaFromRest | index.js:198-210 | the simple weight delta equals the velocity rule's delta taken from a zero velocity |
| DefaultFunctions.SimpleLearningRateConstant | index.js:216-218 | the simple learning rate is the configured rate for every sample index and node |
| Tensors.Or0 | index.js:234 | reading `s[k]` or 0 on numbers: the entry inside the array, 0 past its end |
| Tensors.Present | index.js:320 | a stored weight is truthy exactly when reading it with `or 0` gives a non-zero number |
| Tensors.DeltaValue | index.js:381 | `d or 0` on a delta: a hole contributes 0, and a stored delta contributes its own value |
| Tensors.WeightsPlus | index.js:377-403 | same shape as the weights; each entry with a delta gains its contribution (a hole adds 0, divided by the batch size when scaled); every other entry is unchanged |
| Tensors.BiasesPlus | index.js:387-411 | same shape as the biases; each entry with a delta gains it (divided by the batch size when scaled); every other entry is unchanged |
| Tensors.DeltaSum | index.js:437-443 | same shape as the running total; each entry with a sample delta becomes `total + d` (a hole in d adding 0), and a hole in the total stays a hole; every other entry is unchanged |
| Tensors.Somes | index.js:86-91 | a compacted row is no longer than the init calls it comes from |
| Tensors.SomesDense | index.js:86-91 | with no null init, every value stays at its own position |
| Tensors.SomesAppend | index.js:86-91 | compaction distributes over concatenation: the values of a prefix come first, in order |
| Tensors.SomesMembers | index.js:86-91 | a value is kept exactly when some position holds it |
| Tensors.TotalCountBound | index.js:24-29 | a tensor of the fixed shape stores at most `sum over i of counts[i-1] * counts[i]` weights |
| Tensors.TotalCountSameShape | index.js:377-411 | tensors of the same shape store the same number of weights |
| Tensors.ReshapeKeeps | index.js:377-411 | an update that keeps the shape keeps every shape fact and the weight count |
| Tensors.DivideByOne | index.js:395-411 | dividing by a batch size of 1 applies the same amounts as the single-sample appliers |
| Tensors.PlusKeepsShape | index.js:377-411 | adding deltas keeps the weights' and biases' fixed shapes |
| Propagation.NodeInputs | index.js:238-245 | the next layer gets one node input per node |
| Propagation.ForwardTrace | index.js:220-248 | after layers 0..m: m + 1 input and output vectors, layer 0 of both equal to `inputs`, and layer a of size `counts[a]` |
| Propagation.Forward | index.js:220-253 | `propagateForward` returns `layerCount` input and output vectors, both starting with a copy of `inputs` |
| Propagation.ForwardTraceComputed | index.js:224-248 | every layer past the input is the weighted sums plus bias of the previous layer's outputs, followed by the activation |
| Propagation.ForwardTraceLayers | index.js:230-245 | node k of layer a + 1: input `sum over j of outputs[a][j] * (w[a][j][k], or 0 if missing) + b[a][k]`, output its activation |
| Propagation.OutputErrors | index.js:281-284 | one output error per output node |
| Propagation.LayerErrors | index.js:310-358 | one error per node of layer i |
| Propagation.Errors | index.js:278-359 | the error vector of layer i has `counts[i]` entries |
| Propagation.RowWeightDeltas | index.js:319-343 | a delta exactly where the weight is truthy, and a hole at every other stored weight (the model pads each row to the weight row's length; see Left out) |
| Propagation.LayerWeightDeltas | index.js:310-344 | a delta exactly at each truthy weight of the layer, the rows padded with holes to the weight rows' lengths |
| Propagation.LayerBiasDeltas | index.js:345-356 | one bias delta per node of layer i |
| Propagation.WeightDeltas | index.js:287-344 | a delta exactly at each truthy weight of every layer, stored in the weights' shape with holes elsewhere |
| Propagation.BiasDeltas | index.js:288-356 | `biasDeltas` has `layerCount - 2` layers, and entry a has one delta per node of hidden layer a + 1 |
| Propagation.NewVelocities | index.js:334-342 | the velocities after the backward pass keep the weights' shape |
| Propagation.SampleOutcome | index.js:260-375 | `trainSample` throws exactly when the target length differs from the output layer's size, naming both lengths; otherwise its velocities have the weights' shape and its deltas are held in that shape, with holes padding past the last truthy weight of each row |
| Propagation.ErrorSumSkipsOnlyZeros | index.js:319-333 | skipping missing and zero weights drops only terms that are 0, so a node's error is `sum over k of next[k] * (w, or 0 if missing) * derivative` |
| Propagation.InputLayerErrorsZero | index.js:321-322 | input nodes accumulate no error |
| Propagation.OutputErrorsZeroAtTarget | index.js:172-188 | with the squared-loss derivative, outputs at their targets give every output error 0 |
| Propagation.VelocityDeltaIsNewVelocity | index.js:204-210 | with the default weight-delta function, each truthy weight's delta is its new velocity, and a skipped weight's velocity is unchanged |
| Propagation.LayerVelocityDelta | index.js:204-210 | the same for one layer |
| Propagation.PureRuleKeepsVelocities | index.js:198-202 | a supplied weight-delta function leaves the velocities unchanged |
| Propagation.SimpleRuleDeltas | index.js:198-202 | with the simple weight-delta function supplied, each truthy weight's delta is `learningRate * (gradient - decay * w)` for its node, and the velocities stay as they were |
| Propagation.BiasDeltaIsScaledError | index.js:345-356 | with the default bias-delta function, hidden node j of layer a + 1 gets `learningRate(a + 1, j) * error[a + 1][j]` |
| Propagation.DefaultBiasDeltas | index.js:212-214 | with the simple bias-delta and learning-rate functions, hidden node j of layer a + 1 gets the configured learning rate times its error |
| Propagation.MeanLoss | index.js:456 | the batch's mean loss times the batch size is the total loss; an empty batch gives 0 |
| Propagation.OutputBiasesUntouched | index.js:289-293 | the bias deltas fit the biases, and applying them (scaled or not) never changes the output layer's biases |
| Propagation.BatchBiasDeltaShape | index.js:433-448 | the batch's running bias totals stay empty or keep the shape of one sample's bias deltas (one entry per node of each hidden layer) |
| Propagation.BatchOutputBiasesUntouched | index.js:427-452 | a batch's summed bias deltas fit the biases, are empty for an empty list, and applying them divided by the batch size never changes the output layer's biases |
| Propagation.BatchFromStep | index.js:429-450 | a sample reached before any error keeps the velocities' shape and moves the batch from sample h to h + 1 |
| Propagation.BatchOfOne | index.js:413-458 | a batch of one sample fails when `train` would; otherwise it applies the same weight and bias changes, leaves the same velocities, and reports the same loss and outputs |
| Network.ResolveHyper | index.js:30-47 | each of learning rate, maximum safe output, weight decay and leak factor is its default when null and the given value otherwise; momentum is 0.9 when left out or 0, the given value when non-zero, and so never 0 |
| Network.ResolveConfig | index.js:43-71 | the stored configuration keeps the topology, the resolved hyperparameters and the activation pair; each of the loss, loss-derivative, weight-delta, bias-delta and learning-rate functions is the one given, or its default (mean squared loss, squared-loss derivative, velocity rule, simple bias delta, simple learning rate) when none was given |
| Network.InitCalls | index.js:85-86 | one init call per destination k |
| Network.ZerosLike | index.js:84-97 | velocities of the weights' shape, all 0 |
| Network.InitBiases | index.js:99-103 | `biases[i]` has `counts[i + 1]` entries |
| Network.ZeroBiasInitGivesZeros | index.js:115-117 | the default bias init gives every node of every layer past the input a bias of 0 |
| Network.BuildRow | index.js:83-92 | the row holds the non-null init values in k order, and its velocity row is as long and all 0 |
| Network.BuildLayer | index.js:80-95 | the layer's rows, its zero velocities, and the number of weights kept |
| Network.BuildBiasRow | index.js:99-102 | the bias init values of layer i + 1, in order |
| Network.BuildNetwork | index.js:76-104 | every layer's weights, zero velocities and biases, and the count of weights kept |
| Network.MaxWeightCount | index.js:24-29 | `maxWeightCount` is the sum of `counts[i - 1] * counts[i]` over the transitions |
| Network.WeightedSums | index.js:230-236 | `nextLayerWeightedSums[k]` is `sum over j of prevOut[j] * (layer[j][k], or 0 if missing)` |
| Network.AddRow | index.js:380-381 | one row of an applier: each delta added at its own position, the rest unchanged |
| Network.AddLayer | index.js:379-383 | one layer of an applier |
| Network.AddWeights | index.js:377-385 | the triple loop of the weight appliers computes `WeightsPlus` |
| Network.AddBiasRow | index.js:389-391 | one bias row of an applier |
| Network.AddBiases | index.js:387-393 | the double loop of the bias appliers and of the batch's bias sum computes `BiasesPlus` |
| Network.SumRow | index.js:439-441 | one row of the batch's weight-delta sum |
| Network.SumLayer | index.js:438-442 | one layer of the batch's weight-delta sum |
| Network.SumDeltas | index.js:437-443 | the triple loop of `trainBatch` computes `DeltaSum` |
| Network.AddSampleDeltas | index.js:433-449 | the first sample's deltas are taken as they are, and later ones are added element-wise |
| Network.AbsorbSample | index.js:430-449 | one round of the batch loop is `Absorb`: the loss and outputs appended and the deltas summed, or the error recorded |
| Network.ANN.constructor | index.js:2-105 | weights hold each node's non-null inits in k order, velocities are zeros of the same shape, and `biases[i]` has `counts[i + 1]` init values; the shapes are fixed; `weightCount` is the number of stored weights and is at most `maxWeightCount`; the index starts at 0 |
| Network.ANN.ComputeLayer | index.js:238-245 | node input k is weighted sum k plus bias k, and the outputs are their activations |
| Network.ANN.PropagateForward | index.js:220-253 | returns `Forward` of the current parameters, changing nothing |
| Network.ANN.Run | index.js:255-258 | returns the last layer's outputs |
| Network.ANN.TrainInit | index.js:176-181 | the derivative cache is emptied |
| Network.ANN.ErrorInit | index.js:183-188 | output node j's error is loss derivative times activation derivative, and the derivative is cached at (last, j) |
| Network.ANN.OutputLayerErrors | index.js:278-285 | the output layer's errors, in node order |
| Network.ANN.ErrorDelta | index.js:190-196 | returns `next[k] * w * derivative(i, j)`; the cache gains or keeps exactly the entry `(i, j)`, which holds that derivative, and is otherwise unchanged |
| Network.ANN.VelocityWeightDelta | index.js:204-210 | stores `lr * (gradient - decay * w) + momentum * v` at (i, j, k), returns it, and changes no other velocity |
| Network.ANN.WeightDelta | index.js:334-342 | the default changes only velocity (i, j, k); a supplied function changes nothing |
| Network.ANN.VisitWeight | index.js:319-343 | a truthy weight adds its error term (hidden layers only) and gets a delta; other weights are skipped with no state change |
| Network.ANN.NodeStep | index.js:319-344 | one k round keeps the node loop's invariant: the delta prefix, the error sum, and the velocities up to k |
| Network.ANN.NodeBackward | index.js:310-358 | node (i, j)'s weight deltas, its error, its bias delta (hidden layers only), and the velocities of its row only |
| Network.ANN.LayerBackward | index.js:294-359 | layer i's weight deltas, errors and bias deltas; only layer i's velocities change |
| Network.ANN.BackwardLayer | index.js:289-360 | one round of the layer loop pushes layer n - 1's errors and stores its deltas |
| Network.ANN.BackPropagate | index.js:276-360 | the backward pass computes `WeightDeltas`, `BiasDeltas` and `NewVelocities` |
| Network.ANN.TrainSample | index.js:260-375 | a length mismatch throws, leaving the velocities unchanged and only the cache reset; otherwise the result and velocities are `SampleOutcome`'s |
| Network.ANN.ApplyWeightDeltas | index.js:377-385 | the weights become `WeightsPlus(old, d, Unscaled)`; shapes and weight count are kept |
| Network.ANN.ApplyWeightDeltasBatch | index.js:395-403 | the weights become `WeightsPlus(old, d, DividedBy(batchSize))` |
| Network.ANN.ApplyBiasDeltas | index.js:387-393 | the biases become `BiasesPlus(old, d, Unscaled)` |
| Network.ANN.ApplyBiasDeltasBatch | index.js:405-411 | the biases become `BiasesPlus(old, d, DividedBy(batchSize))` |
| Network.ANN.Train | index.js:413-422 | a throwing sample changes nothing but the cache; otherwise the sample's deltas are applied, its velocities kept, the index advanced by 1, and its outputs and loss returned; the output layer's biases never change |
| Network.ANN.ApplySample | index.js:415-417 | the sample's deltas applied unscaled and the index advanced by 1 |
| Network.ANN.BatchRound | index.js:429-450 | one round of the batch loop moves `BatchFrom` from sample h to h + 1 |
| Network.ANN.CollectBatch | index.js:429-450 | the batch loop computes `BatchFrom` from the start |
| Network.ANN.ApplyBatch | index.js:451-453 | the summed deltas applied divided by the batch size, and the index advanced by the batch size |
| Network.ANN.TrainBatch | index.js:424-458 | every sample is trained against the same weights, and the summed deltas are applied divided by the list length; the index advances by the length and the mean loss is returned; a throwing sample leaves weights, biases and index unchanged; the output layer's biases never change |
| Network.ANN.GetWeights | index.js:460-462 | a copy of the weights: the same shape and entries, and `weightCount` stored weights |
| Network.ANN.GetBiases | index.js:464-466 | a copy of the biases, with the fixed bias shape |
| Network.SampleFits | index.js:377-393 | a sample's deltas fit the weights and biases they are applied to |
| Network.ErrorStack | index.js:278-285 | after the layers from n up, the stack holds one error vector per layer done, output layer first |
| Network.ErrorStackStep | index.js:297-359 | the top of the stack is layer n's errors, and doing layer n - 1 pushes its own |
| Network.BackwardStart | index.js:285-290 | before the layer loop there are no deltas, the velocities are untouched, and the stack holds only the output errors |
| Network.DeltasStep | index.js:290-343 | doing layer n - 1 sets its weight deltas and nothing else |
| Network.BiasDeltasStep | index.js:291-356 | it sets its bias deltas (hidden layers only) and nothing else |
| Network.VelocitiesStep | index.js:334-342 | it changes its own velocities, which were still the starting ones |
| Network.BackwardEnd | index.js:289-360 | with every layer done, the loop's state is the whole-network `WeightDeltas`, `BiasDeltas` and `NewVelocities` |
| Network.InitWeightsShape | index.js:76-104 | constructed weights: one layer per transition, `counts[i]` rows in layer i, no row longer than the next layer |
| Network.InitRowMembers | index.js:86-91 | a value is stored in row (i, j) exactly when some destination's init returned it |
| Network.InitRowDense | index.js:86-91 | an init that never returns null gives full rows, each value at its own k |
| Network.InitRowLength | index.js:86-90 | row (i, j) stores exactly as many weights as there are destinations whose init is not null |
| Network.InitWeightCountBound | index.js:24-104 | the stored weight count never exceeds `maxWeightCount` |

## Left out

- RowWeightDeltas, LayerWeightDeltas, WeightDeltas and SampleOutcome: in `index.js` each delta
  row starts as `[]` (`index.js:311`) and is written only at truthy k (`index.js:334`). Its
  `.length` is therefore the last truthy k + 1, or 0 when no weight of the row is truthy. The model
  pads every delta row with holes to its weight row's length, so the lengths of the arrays that
  `trainSample` returns are not modelled. The applied weights are the same either way, because a
  hole adds 0 in the appliers (`index.js:381`) and in the batch sum (`index.js:440`).
- ELU, GELU and sigmoid activations and their derivatives (`index.js:119-126, 144-162`): they
  use `Math.exp` and `Math.tanh`. The activation and its derivative are parameters, because
  ELU is the default.
- `heWeightInitFunction` and `randomWeightInitFunction` (`index.js:107-113`): they use
  `Math.random`. The weight init is a caller-supplied `(i, j, k) -> Option<real>` and is
  required, not defaulted.
- IEEE-double behaviour: rounding, overflow, NaN and Infinity.
  - Numbers are exact `real`s.
  - An empty target vector gives an MSE of 0/0 (NaN) in JavaScript; `MeanSquaredLoss` gives 0.
  - An empty batch gives a mean loss of 0/0 (NaN) in JavaScript; `MeanLoss` gives 0.
  - In `trainBatch` a hole in the first sample's deltas plus a later delta is `undefined + x`,
    which is NaN and is read as 0 once applied. The model keeps the hole (`EntrySum`), and the
    appliers read it as 0.
- `layerComputationFunction` and `trainCleanupFunction` (`index.js:299-308, 370-372`): caller
  code that cannot be seen. The model treats them as absent.
- Caller-supplied `errorInitFunction`, `errorDeltaFunction` and `trainInitFunction`: only the
  defaults are modelled, because they act on the derivative cache, which the model keeps as a field.
- A supplied `weightDeltaFunction` is modelled as changing no state. It receives the current
  weight as an argument instead of reading `this.weights`.
- `this`-binding of the static functions: the fields they read reach them as a `Hyper` record.
- Network.ANN.constructor: requires at least two layers. `index.js` accepts any list and does
  not check for this.
  A network with fewer than two layers is not modelled, because every shape fact here is
  stated for at least one layer transition.
- Network.ANN.PropagateForward: requires `inputs` to be at least as long as layer 0. A
  shorter input reads `undefined` in JavaScript and yields NaN sums.
- The appliers require deltas that fit the parameters' shape (`Fits`, `FitsBiases`). JavaScript
  would grow or corrupt the arrays with out-of-shape deltas, but `train` and `trainBatch` only
  ever pass deltas of their own shape.
- `weightCount` is kept as the number of stored weights (`TotalCount`). The source increments it
  once per kept init value; `InitRowLength` and `BuildLayer` connect the two.
- `test/integration.js`: a randomized training harness with logging and no assertions to model.
