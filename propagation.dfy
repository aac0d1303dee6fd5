/**
 * What one forward pass, one backward pass and one batch compute, as functions of
 * the network's parameters. The `ANN` class (module Network) computes these in
 * place with loops and is proved equal to them; the properties the network
 * promises are lemmas here.
 */
module Propagation {
  import opened Wrappers
  import opened Tensors
  import opened DefaultFunctions

  /** The default weight-delta function updates the velocities; a supplied one is taken to change no state. */
  datatype WeightDeltaRule = VelocityRule | PureRule(f: WeightDeltaFn)

  /** The topology, the hyperparameters and the pluggable functions, resolved once at construction. */
  datatype Config = Config(
    layerNodeCounts: seq<nat>,
    hyper: Hyper,
    activation: ActivationFn,
    activationDerivative: ActivationDerivativeFn,
    loss: LossFn,
    lossDerivative: LossDerivativeFn,
    weightDelta: WeightDeltaRule,
    biasDelta: BiasDeltaFn,
    learningRateFn: LearningRateFn)

  /** `layerInputs` and `layerOutputs` of one forward pass, one vector per layer. */
  datatype Trace = Trace(inputs: seq<seq<real>>, outputs: seq<seq<real>>)

  datatype TrainError = OutputLengthMismatch(given: nat, expected: nat)

  /** What `trainSample` returns. */
  datatype TrainResult = TrainResult(outputs: seq<real>, weightDeltas: DeltaTensor, biasDeltas: Biases, loss: real)

  /** A sample's result together with the velocities it leaves behind. */
  datatype SampleStep = SampleStep(result: TrainResult, velocities: Tensor)

  predicate StateOk(cfg: Config, w: Tensor, b: Biases, v: Tensor) {
    WeightShape(cfg.layerNodeCounts, w) && BiasShape(cfg.layerNodeCounts, b) && SameShape(v, w)
  }

  predicate BiasDeltaShape(cfg: Config, d: Biases) {
    |d| == |cfg.layerNodeCounts| - 2 && forall a :: 0 <= a < |d| ==> |d[a]| == cfg.layerNodeCounts[a + 1]
  }

  /** A trained sample's deltas have the shape of the weights: a weight delta exactly where the
      weight is truthy, one bias delta per node of each hidden layer. */
  predicate SampleShapes(w: Tensor, cfg: Config, s: SampleStep) {
    SameShape(s.result.weightDeltas, w) && SameShape(s.velocities, w) &&
    BiasDeltaShape(cfg, s.result.biasDeltas) &&
    forall i, j, k :: 0 <= i < |w| && 0 <= j < |w[i]| && 0 <= k < |w[i][j]| ==>
      (s.result.weightDeltas[i][j][k].Some? <==> w[i][j][k] != 0.0)
  }

  // ---------------------------------------------------------------- forward pass

  /** `sum over j < n of prevOut[j] * (layer[j][k] || 0)` */
  function WeightedSum(prevOut: seq<real>, layer: Layer, k: nat, n: nat): real
    requires n <= |prevOut| && n <= |layer|
  {
    if n == 0 then 0.0 else WeightedSum(prevOut, layer, k, n - 1) + prevOut[n - 1] * Or0(layer[n - 1], k)
  }

  /** The weighted sums plus bias of the next layer's `width` nodes. */
  function NodeInputs(prevOut: seq<real>, layer: Layer, bias: seq<real>, width: nat): (x: seq<real>)
    requires |layer| <= |prevOut| && width <= |bias|
    ensures |x| == width
  {
    seq(width, k requires 0 <= k < width => WeightedSum(prevOut, layer, k, |layer|) + bias[k])
  }

  function Activate(cfg: Config, xs: seq<real>): (y: seq<real>)
    ensures |y| == |xs|
  {
    seq(|xs|, k requires 0 <= k < |xs| => cfg.activation(cfg.hyper, xs[k]))
  }

  /** Layer 0 of both vectors is the input; layer a >= 1 has `counts[a]` entries. */
  predicate TraceShape(counts: seq<nat>, t: Trace, inputs: seq<real>, m: nat) {
    m < |counts| && |t.inputs| == m + 1 && |t.outputs| == m + 1 &&
    t.inputs[0] == inputs && t.outputs[0] == inputs &&
    forall a :: 1 <= a <= m ==> |t.inputs[a]| == counts[a] && |t.outputs[a]| == counts[a]
  }

  /** The forward trace of layers 0..m. */
  function ForwardTrace(cfg: Config, w: Tensor, b: Biases, inputs: seq<real>, m: nat): (t: Trace)
    requires WeightShape(cfg.layerNodeCounts, w) && BiasShape(cfg.layerNodeCounts, b)
    requires |inputs| >= cfg.layerNodeCounts[0] && m < |cfg.layerNodeCounts|
    ensures TraceShape(cfg.layerNodeCounts, t, inputs, m)
  {
    if m == 0 then Trace([inputs], [inputs])
    else
      var prev := ForwardTrace(cfg, w, b, inputs, m - 1);
      var x := NodeInputs(prev.outputs[m - 1], w[m - 1], b[m - 1], cfg.layerNodeCounts[m]);
      Trace(prev.inputs + [x], prev.outputs + [Activate(cfg, x)])
  }

  /** What `propagateForward` returns. */
  function Forward(cfg: Config, w: Tensor, b: Biases, inputs: seq<real>): (t: Trace)
    requires WeightShape(cfg.layerNodeCounts, w) && BiasShape(cfg.layerNodeCounts, b)
    requires |inputs| >= cfg.layerNodeCounts[0]
    ensures TraceShape(cfg.layerNodeCounts, t, inputs, |cfg.layerNodeCounts| - 1)
  {
    ForwardTrace(cfg, w, b, inputs, |cfg.layerNodeCounts| - 1)
  }

  // ---------------------------------------------------------------- backward pass

  /** The activation derivative of node j of layer i, as `simpleErrorDeltaFunction` caches it. */
  function ActDeriv(cfg: Config, t: Trace, i: nat, j: nat): real
    requires i < |t.inputs| && i < |t.outputs|
  {
    cfg.activationDerivative(cfg.hyper, t.inputs[i], t.outputs[i], j)
  }

  /** `simpleErrorInitFunction` for every output node: loss derivative times activation derivative. */
  function OutputErrors(cfg: Config, t: Trace, targets: seq<real>): (e: seq<real>)
    requires |cfg.layerNodeCounts| >= 1
    requires |t.inputs| == |cfg.layerNodeCounts| && |t.outputs| == |cfg.layerNodeCounts|
    ensures |e| == cfg.layerNodeCounts[|cfg.layerNodeCounts| - 1]
  {
    var last := |cfg.layerNodeCounts| - 1;
    seq(cfg.layerNodeCounts[last], j requires 0 <= j < cfg.layerNodeCounts[last] =>
      cfg.lossDerivative(targets, t.inputs[last], t.outputs[last], j) * ActDeriv(cfg, t, last, j))
  }

  /** What destination k adds to a node's error: nothing unless the weight is truthy. */
  function ErrorTerm(row: Row, next: seq<real>, d: real, k: nat): real
    requires k < |next|
  {
    if Present(row, k) then next[k] * row[k] * d else 0.0
  }

  /** `sum over k < n with row[k] truthy of nextLayerErrors[k] * row[k] * derivative` */
  function ErrorSum(row: Row, next: seq<real>, d: real, n: nat): real
    requires n <= |next|
  {
    if n == 0 then 0.0 else ErrorSum(row, next, d, n - 1) + ErrorTerm(row, next, d, n - 1)
  }

  /** The error of source node j of layer i; input nodes get none. */
  function NodeError(cfg: Config, row: Row, next: seq<real>, t: Trace, i: nat, j: nat): real
    requires i + 1 < |cfg.layerNodeCounts| && i < |t.inputs| && i < |t.outputs|
    requires |next| >= cfg.layerNodeCounts[i + 1]
  {
    if i == 0 then 0.0 else ErrorSum(row, next, ActDeriv(cfg, t, i, j), cfg.layerNodeCounts[i + 1])
  }

  predicate FullTrace(cfg: Config, t: Trace) {
    |t.inputs| == |cfg.layerNodeCounts| && |t.outputs| == |cfg.layerNodeCounts|
  }

  function LayerErrors(cfg: Config, w: Tensor, t: Trace, i: nat, next: seq<real>): (e: seq<real>)
    requires WeightShape(cfg.layerNodeCounts, w) && FullTrace(cfg, t)
    requires i < |w| && |next| == cfg.layerNodeCounts[i + 1]
    ensures |e| == cfg.layerNodeCounts[i]
  {
    seq(cfg.layerNodeCounts[i], j requires 0 <= j < cfg.layerNodeCounts[i] =>
      NodeError(cfg, w[i][j], next, t, i, j))
  }

  /** The per-layer error vector the backward pass pushes for layer i. */
  function Errors(cfg: Config, w: Tensor, t: Trace, targets: seq<real>, i: nat): (e: seq<real>)
    requires WeightShape(cfg.layerNodeCounts, w) && FullTrace(cfg, t)
    requires i < |cfg.layerNodeCounts|
    ensures |e| == cfg.layerNodeCounts[i]
    decreases |cfg.layerNodeCounts| - i
  {
    if i == |cfg.layerNodeCounts| - 1 then OutputErrors(cfg, t, targets)
    else LayerErrors(cfg, w, t, i, Errors(cfg, w, t, targets, i + 1))
  }

  /** The context the learning-rate, weight-delta and bias-delta functions see for node (i, j). */
  function NodeCtx(cfg: Config, t: Trace, next: seq<real>, sampleIndex: nat, i: nat, j: nat): NodeContext {
    NodeContext(cfg.learningRateFn(cfg.hyper.learningRate, sampleIndex, i, j), t.inputs, t.outputs, next, i, j)
  }

  function WeightDeltaValue(cfg: Config, ctx: NodeContext, k: nat, weight: real, velocity: real): real {
    match cfg.weightDelta
    case VelocityRule => VelocityValue(cfg.hyper, ctx.learningRate, Gradient(ctx, k), weight, velocity)
    case PureRule(f) => f(cfg.hyper, ctx, k, weight)
  }

  /** The deltas of one weight row: a value at each truthy weight, a hole elsewhere. */
  function RowWeightDeltas(cfg: Config, row: Row, vrow: Row, ctx: NodeContext): (r: seq<Option<real>>)
    requires |vrow| == |row|
    ensures |r| == |row|
    ensures forall k :: 0 <= k < |row| ==> (r[k].Some? <==> row[k] != 0.0)
  {
    seq(|row|, k requires 0 <= k < |row| =>
      if Present(row, k) then Some(WeightDeltaValue(cfg, ctx, k, row[k], vrow[k])) else None)
  }

  /** The velocity row after the weight-delta calls of one node. */
  function RowVelocities(cfg: Config, row: Row, vrow: Row, ctx: NodeContext): (r: Row)
    requires |vrow| == |row|
    ensures |r| == |row|
  {
    match cfg.weightDelta
    case VelocityRule =>
      seq(|row|, k requires 0 <= k < |row| =>
        if Present(row, k) then VelocityValue(cfg.hyper, ctx.learningRate, Gradient(ctx, k), row[k], vrow[k]) else vrow[k])
    case PureRule(_) => vrow
  }

  /** The velocity rows of layer i line up with its weight rows. */
  predicate LayerAligned(w: Tensor, i: nat, vl: Layer) {
    i < |w| && |vl| == |w[i]| && forall j :: 0 <= j < |vl| ==> |vl[j]| == |w[i][j]|
  }

  function LayerWeightDeltas(cfg: Config, w: Tensor, vl: Layer, t: Trace, sampleIndex: nat, i: nat, next: seq<real>): (r: seq<seq<Option<real>>>)
    requires WeightShape(cfg.layerNodeCounts, w) && LayerAligned(w, i, vl)
    ensures |r| == |w[i]|
    ensures forall j :: 0 <= j < |w[i]| ==> |r[j]| == |w[i][j]|
    ensures forall j, k :: 0 <= j < |w[i]| && 0 <= k < |w[i][j]| ==> (r[j][k].Some? <==> w[i][j][k] != 0.0)
  {
    seq(|w[i]|, j requires 0 <= j < |w[i]| =>
      RowWeightDeltas(cfg, w[i][j], vl[j], NodeCtx(cfg, t, next, sampleIndex, i, j)))
  }

  function LayerVelocities(cfg: Config, w: Tensor, vl: Layer, t: Trace, sampleIndex: nat, i: nat, next: seq<real>): (r: Layer)
    requires WeightShape(cfg.layerNodeCounts, w) && LayerAligned(w, i, vl)
    ensures |r| == |w[i]|
    ensures forall j :: 0 <= j < |w[i]| ==> |r[j]| == |w[i][j]|
  {
    seq(|w[i]|, j requires 0 <= j < |w[i]| =>
      RowVelocities(cfg, w[i][j], vl[j], NodeCtx(cfg, t, next, sampleIndex, i, j)))
  }

  function LayerBiasDeltas(cfg: Config, w: Tensor, t: Trace, sampleIndex: nat, i: nat, next: seq<real>): (r: seq<real>)
    requires WeightShape(cfg.layerNodeCounts, w) && FullTrace(cfg, t)
    requires i < |w| && |next| == cfg.layerNodeCounts[i + 1]
    ensures |r| == cfg.layerNodeCounts[i]
  {
    var errs := LayerErrors(cfg, w, t, i, next);
    seq(cfg.layerNodeCounts[i], j requires 0 <= j < cfg.layerNodeCounts[i] =>
      cfg.biasDelta(NodeCtx(cfg, t, next, sampleIndex, i, j), errs[j]))
  }

  /** `weightDeltas` of `trainSample`: one layer per transition. */
  function WeightDeltas(cfg: Config, w: Tensor, v: Tensor, t: Trace, targets: seq<real>, sampleIndex: nat): (r: DeltaTensor)
    requires WeightShape(cfg.layerNodeCounts, w) && SameShape(v, w) && FullTrace(cfg, t)
    ensures SameShape(r, w)
    ensures forall i, j, k :: 0 <= i < |w| && 0 <= j < |w[i]| && 0 <= k < |w[i][j]| ==>
      (r[i][j][k].Some? <==> w[i][j][k] != 0.0)
  {
    seq(|w|, i requires 0 <= i < |w| =>
      LayerWeightDeltas(cfg, w, v[i], t, sampleIndex, i, ErrorsAbove(cfg, w, t, targets, i)))
  }

  /** The errors of layer i + 1, which the backward pass has when it reaches layer i. */
  function ErrorsAbove(cfg: Config, w: Tensor, t: Trace, targets: seq<real>, i: nat): (e: seq<real>)
    requires WeightShape(cfg.layerNodeCounts, w) && FullTrace(cfg, t) && i < |w|
    ensures |e| == cfg.layerNodeCounts[i + 1]
  {
    Errors(cfg, w, t, targets, i + 1)
  }

  /** `biasDeltas` of `trainSample`: entry a belongs to hidden layer a + 1. */
  function BiasDeltas(cfg: Config, w: Tensor, t: Trace, targets: seq<real>, sampleIndex: nat): (r: Biases)
    requires WeightShape(cfg.layerNodeCounts, w) && FullTrace(cfg, t)
    ensures BiasDeltaShape(cfg, r)
  {
    seq(|w| - 1, a requires 0 <= a < |w| - 1 =>
      LayerBiasDeltas(cfg, w, t, sampleIndex, a + 1, ErrorsAbove(cfg, w, t, targets, a + 1)))
  }

  /** The velocities after one backward pass. */
  function NewVelocities(cfg: Config, w: Tensor, v: Tensor, t: Trace, targets: seq<real>, sampleIndex: nat): (r: Tensor)
    requires WeightShape(cfg.layerNodeCounts, w) && SameShape(v, w) && FullTrace(cfg, t)
    ensures SameShape(r, w)
  {
    seq(|w|, i requires 0 <= i < |w| =>
      LayerVelocities(cfg, w, v[i], t, sampleIndex, i, ErrorsAbove(cfg, w, t, targets, i)))
  }

  /** `trainSample(inputs, targetOutputs)`, with the velocities it leaves behind. */
  function SampleOutcome(cfg: Config, w: Tensor, b: Biases, v: Tensor, sampleIndex: nat,
                         inputs: seq<real>, targets: seq<real>): (r: Result<SampleStep, TrainError>)
    requires StateOk(cfg, w, b, v) && |inputs| >= cfg.layerNodeCounts[0]
    ensures r.Failure? <==> |targets| != cfg.layerNodeCounts[|cfg.layerNodeCounts| - 1]
    ensures r.Failure? ==> r.error == OutputLengthMismatch(|targets|, cfg.layerNodeCounts[|cfg.layerNodeCounts| - 1])
    ensures r.Success? ==> SampleShapes(w, cfg, r.value)
  {
    var t := Forward(cfg, w, b, inputs);
    var last := |cfg.layerNodeCounts| - 1;
    if |targets| != cfg.layerNodeCounts[last] then
      Failure(OutputLengthMismatch(|targets|, cfg.layerNodeCounts[last]))
    else
      Success(SampleStep(
        TrainResult(t.outputs[last], WeightDeltas(cfg, w, v, t, targets, sampleIndex),
                    BiasDeltas(cfg, w, t, targets, sampleIndex), cfg.loss(targets, t.outputs[last])),
        NewVelocities(cfg, w, v, t, targets, sampleIndex)))
  }

  // ---------------------------------------------------------------- batches

  /** The accumulators of `trainBatch` after some samples; `error` is set once a sample throws. */
  datatype BatchAcc = BatchAcc(
    weightDeltas: DeltaTensor,
    biasDeltas: Biases,
    velocities: Tensor,
    totalLoss: real,
    outputsList: seq<seq<real>>,
    error: Option<TrainError>)

  predicate InputsFit(cfg: Config, list: seq<(seq<real>, seq<real>)>) {
    |cfg.layerNodeCounts| >= 1 && forall h :: 0 <= h < |list| ==> |list[h].0| >= cfg.layerNodeCounts[0]
  }

  /** One round of `trainBatch`'s loop given what sample h produced: the loss and outputs
      appended, the deltas added to the totals (taken as they are for the first sample), and
      the velocities the sample left. A sample that throws records its error. */
  function Absorb(prev: BatchAcc, h: nat, o: Result<SampleStep, TrainError>): BatchAcc {
    match o
    case Failure(e) => prev.(error := Some(e))
    case Success(s) =>
      BatchAcc(if h == 0 then s.result.weightDeltas else DeltaSum(prev.weightDeltas, s.result.weightDeltas),
               if h == 0 then s.result.biasDeltas else BiasesPlus(prev.biasDeltas, s.result.biasDeltas, Unscaled),
               s.velocities, prev.totalLoss + s.result.loss, prev.outputsList + [s.result.outputs], None)
  }

  /** `trainBatch`'s loop from sample h on, given the totals `acc` of the samples before it:
      every sample is trained against the same weights, with the velocities the samples before
      it left. Nothing more happens once a sample has thrown. */
  function BatchFrom(cfg: Config, w: Tensor, b: Biases, sampleIndex: nat,
                     list: seq<(seq<real>, seq<real>)>, acc: BatchAcc, h: nat): BatchAcc
    requires StateOk(cfg, w, b, acc.velocities) && InputsFit(cfg, list) && h <= |list|
    decreases |list| - h, 1
  {
    if h == |list| || acc.error.Some? then acc else BatchAt(cfg, w, b, sampleIndex, list, acc, h)
  }

  /** `trainBatch`'s loop from sample h on, sample h not having been trained yet. */
  function BatchAt(cfg: Config, w: Tensor, b: Biases, sampleIndex: nat,
                   list: seq<(seq<real>, seq<real>)>, acc: BatchAcc, h: nat): BatchAcc
    requires StateOk(cfg, w, b, acc.velocities) && InputsFit(cfg, list) && h < |list|
    decreases |list| - h, 0
  {
    BatchFrom(cfg, w, b, sampleIndex, list,
              Absorb(acc, h, SampleOutcome(cfg, w, b, acc.velocities, sampleIndex, list[h].0, list[h].1)), h + 1)
  }

  /** One unfolding of `BatchFrom` at a sample that has not been reached past an error. */
  lemma BatchFromStep(cfg: Config, w: Tensor, b: Biases, sampleIndex: nat,
                      list: seq<(seq<real>, seq<real>)>, acc: BatchAcc, h: nat, next: BatchAcc)
    requires StateOk(cfg, w, b, acc.velocities) && InputsFit(cfg, list) && h < |list| && acc.error.None?
    requires next == Absorb(acc, h, SampleOutcome(cfg, w, b, acc.velocities, sampleIndex, list[h].0, list[h].1))
    ensures StateOk(cfg, w, b, next.velocities)
    ensures BatchFrom(cfg, w, b, sampleIndex, list, acc, h) == BatchFrom(cfg, w, b, sampleIndex, list, next, h + 1)
  {
  }

  /** The totals before the first sample. */
  function BatchStart(v: Tensor): BatchAcc {
    BatchAcc([], [], v, 0.0, [], None)
  }

  lemma SameShapeFits<T, U, V>(a: seq<seq<seq<T>>>, b: seq<seq<seq<U>>>, w: seq<seq<seq<V>>>)
    requires SameShape(a, w) && SameShape(b, w)
    ensures Fits(a, b)
  {
  }

  /** `totalLoss / trainingList.length`; JavaScript gives NaN for an empty batch. */
  function MeanLoss(totalLoss: real, n: nat): (r: real)
    ensures n > 0 ==> r * (n as real) == totalLoss
    ensures n == 0 ==> r == 0.0
  {
    if n == 0 then 0.0 else totalLoss / (n as real)
  }

  // ---------------------------------------------------------------- lemmas

  /** Layer a + 1 of trace t is computed from layer a: weighted sums plus bias, then the activation. */
  predicate LayerComputed(cfg: Config, w: Tensor, b: Biases, t: Trace, a: nat)
    requires WeightShape(cfg.layerNodeCounts, w) && BiasShape(cfg.layerNodeCounts, b)
    requires a + 1 < |t.inputs| && a + 1 < |t.outputs| && a < |w| && |w[a]| <= |t.outputs[a]|
  {
    t.inputs[a + 1] == NodeInputs(t.outputs[a], w[a], b[a], cfg.layerNodeCounts[a + 1]) &&
    t.outputs[a + 1] == Activate(cfg, t.inputs[a + 1])
  }

  /** Every layer of the trace to m past the input is computed from the one before it. */
  lemma {:induction false} ForwardTraceComputed(cfg: Config, w: Tensor, b: Biases, inputs: seq<real>, m: nat)
    requires WeightShape(cfg.layerNodeCounts, w) && BiasShape(cfg.layerNodeCounts, b)
    requires |inputs| >= cfg.layerNodeCounts[0] && m < |cfg.layerNodeCounts|
    ensures forall a :: 0 <= a < m ==> LayerComputed(cfg, w, b, ForwardTrace(cfg, w, b, inputs, m), a)
  {
    if m > 0 {
      ForwardTraceComputed(cfg, w, b, inputs, m - 1);
      var prev := ForwardTrace(cfg, w, b, inputs, m - 1);
      var t := ForwardTrace(cfg, w, b, inputs, m);
      forall a | 0 <= a < m
        ensures LayerComputed(cfg, w, b, t, a)
      {
        if a < m - 1 {
          assert t.inputs[a + 1] == prev.inputs[a + 1] && t.outputs[a + 1] == prev.outputs[a + 1];
          assert t.outputs[a] == prev.outputs[a];
          assert LayerComputed(cfg, w, b, prev, a);
        }
      }
    }
  }

  /** Layer a + 1 of the trace holds the weighted sums plus bias of layer a's outputs,
      and their activations. */
  lemma ForwardTraceLayers(cfg: Config, w: Tensor, b: Biases, inputs: seq<real>, m: nat)
    requires WeightShape(cfg.layerNodeCounts, w) && BiasShape(cfg.layerNodeCounts, b)
    requires |inputs| >= cfg.layerNodeCounts[0] && m < |cfg.layerNodeCounts|
    ensures var t := ForwardTrace(cfg, w, b, inputs, m);
      forall a, k :: 0 <= a < m && 0 <= k < cfg.layerNodeCounts[a + 1] ==>
        t.inputs[a + 1][k] == WeightedSum(t.outputs[a], w[a], k, cfg.layerNodeCounts[a]) + b[a][k] &&
        t.outputs[a + 1][k] == cfg.activation(cfg.hyper, t.inputs[a + 1][k])
  {
    var t := ForwardTrace(cfg, w, b, inputs, m);
    ForwardTraceComputed(cfg, w, b, inputs, m);
    forall a, k | 0 <= a < m && 0 <= k < cfg.layerNodeCounts[a + 1]
      ensures t.inputs[a + 1][k] == WeightedSum(t.outputs[a], w[a], k, cfg.layerNodeCounts[a]) + b[a][k]
      ensures t.outputs[a + 1][k] == cfg.activation(cfg.hyper, t.inputs[a + 1][k])
    {
      assert LayerComputed(cfg, w, b, t, a);
    }
  }

  /** `sum over k < n of nextLayerErrors[k] * (row[k] || 0) * d`: the backward error without the truthy test. */
  function PlainErrorSum(row: Row, next: seq<real>, d: real, n: nat): real
    requires n <= |next|
  {
    if n == 0 then 0.0 else PlainErrorSum(row, next, d, n - 1) + next[n - 1] * Or0(row, n - 1) * d
  }

  /** Skipping missing and zero weights drops only terms that are 0. */
  lemma {:induction false} ErrorSumSkipsOnlyZeros(row: Row, next: seq<real>, d: real, n: nat)
    requires n <= |next|
    ensures ErrorSum(row, next, d, n) == PlainErrorSum(row, next, d, n)
  {
    if n > 0 {
      ErrorSumSkipsOnlyZeros(row, next, d, n - 1);
      if !Present(row, n - 1) {
        assert Or0(row, n - 1) == 0.0;
        assert next[n - 1] * 0.0 * d == 0.0;
      }
    }
  }

  /** Input nodes accumulate no error. */
  lemma InputLayerErrorsZero(cfg: Config, w: Tensor, t: Trace, targets: seq<real>)
    requires WeightShape(cfg.layerNodeCounts, w) && FullTrace(cfg, t)
    ensures forall j :: 0 <= j < cfg.layerNodeCounts[0] ==> Errors(cfg, w, t, targets, 0)[j] == 0.0
  {
  }

  /** Under the squared-loss derivative, outputs equal to their targets leave every output error 0. */
  lemma OutputErrorsZeroAtTarget(cfg: Config, t: Trace, targets: seq<real>)
    requires |cfg.layerNodeCounts| >= 1 && FullTrace(cfg, t)
    requires forall ts, xs, os, j :: cfg.lossDerivative(ts, xs, os, j) == SquaredLossDerivative(ts, xs, os, j)
    requires targets == t.outputs[|cfg.layerNodeCounts| - 1]
    ensures forall j :: 0 <= j < |OutputErrors(cfg, t, targets)| ==> OutputErrors(cfg, t, targets)[j] == 0.0
  {
  }

  /** With the default weight-delta function, the delta returned for a truthy weight is its new
      velocity, and the velocity of a skipped weight stays as it was. */
  lemma VelocityDeltaIsNewVelocity(cfg: Config, w: Tensor, v: Tensor, t: Trace, targets: seq<real>, sampleIndex: nat)
    requires WeightShape(cfg.layerNodeCounts, w) && SameShape(v, w) && FullTrace(cfg, t)
    requires cfg.weightDelta.VelocityRule?
    ensures var d, nv := WeightDeltas(cfg, w, v, t, targets, sampleIndex), NewVelocities(cfg, w, v, t, targets, sampleIndex);
      forall i, j, k :: 0 <= i < |w| && 0 <= j < |w[i]| && 0 <= k < |w[i][j]| ==>
        if w[i][j][k] != 0.0 then d[i][j][k] == Some(nv[i][j][k]) else nv[i][j][k] == v[i][j][k]
  {
    var d, nv := WeightDeltas(cfg, w, v, t, targets, sampleIndex), NewVelocities(cfg, w, v, t, targets, sampleIndex);
    forall i | 0 <= i < |w|
      ensures forall j, k :: 0 <= j < |w[i]| && 0 <= k < |w[i][j]| ==>
        if w[i][j][k] != 0.0 then d[i][j][k] == Some(nv[i][j][k]) else nv[i][j][k] == v[i][j][k]
    {
      var next := Errors(cfg, w, t, targets, i + 1);
      LayerVelocityDelta(cfg, w, v[i], t, sampleIndex, i, next);
      assert d[i] == LayerWeightDeltas(cfg, w, v[i], t, sampleIndex, i, next);
      assert nv[i] == LayerVelocities(cfg, w, v[i], t, sampleIndex, i, next);
    }
  }

  lemma LayerVelocityDelta(cfg: Config, w: Tensor, vl: Layer, t: Trace, sampleIndex: nat, i: nat, next: seq<real>)
    requires WeightShape(cfg.layerNodeCounts, w) && LayerAligned(w, i, vl) && cfg.weightDelta.VelocityRule?
    ensures var d, nv := LayerWeightDeltas(cfg, w, vl, t, sampleIndex, i, next), LayerVelocities(cfg, w, vl, t, sampleIndex, i, next);
      forall j, k :: 0 <= j < |w[i]| && 0 <= k < |w[i][j]| ==>
        if w[i][j][k] != 0.0 then d[j][k] == Some(nv[j][k]) else nv[j][k] == vl[j][k]
  {
    var d, nv := LayerWeightDeltas(cfg, w, vl, t, sampleIndex, i, next), LayerVelocities(cfg, w, vl, t, sampleIndex, i, next);
    forall j | 0 <= j < |w[i]|
      ensures forall k :: 0 <= k < |w[i][j]| ==>
        if w[i][j][k] != 0.0 then d[j][k] == Some(nv[j][k]) else nv[j][k] == vl[j][k]
    {
      var ctx := NodeCtx(cfg, t, next, sampleIndex, i, j);
      assert d[j] == RowWeightDeltas(cfg, w[i][j], vl[j], ctx);
      assert nv[j] == RowVelocities(cfg, w[i][j], vl[j], ctx);
    }
  }

  /** A weight-delta function that is not the default leaves the velocities alone. */
  lemma PureRuleKeepsVelocities(cfg: Config, w: Tensor, v: Tensor, t: Trace, targets: seq<real>, sampleIndex: nat)
    requires WeightShape(cfg.layerNodeCounts, w) && SameShape(v, w) && FullTrace(cfg, t)
    requires cfg.weightDelta.PureRule?
    ensures NewVelocities(cfg, w, v, t, targets, sampleIndex) == v
  {
    var nv := NewVelocities(cfg, w, v, t, targets, sampleIndex);
    forall i | 0 <= i < |w| ensures nv[i] == v[i] {
      var lv := LayerVelocities(cfg, w, v[i], t, sampleIndex, i, Errors(cfg, w, t, targets, i + 1));
      assert nv[i] == lv;
      forall j | 0 <= j < |w[i]| ensures lv[j] == v[i][j] {
        assert lv[j] == RowVelocities(cfg, w[i][j], v[i][j], NodeCtx(cfg, t, Errors(cfg, w, t, targets, i + 1), sampleIndex, i, j));
      }
    }
  }

  /** `simpleWeightDeltaFunction` supplied as the weight-delta function: each truthy weight's
      delta is its plain decayed step, and the velocities stay as they were. */
  lemma SimpleRuleDeltas(cfg: Config, w: Tensor, v: Tensor, t: Trace, targets: seq<real>, sampleIndex: nat)
    requires WeightShape(cfg.layerNodeCounts, w) && SameShape(v, w) && FullTrace(cfg, t)
    requires cfg.weightDelta == PureRule(SimpleWeightDelta)
    ensures forall i, j, k :: 0 <= i < |w| && 0 <= j < |w[i]| && 0 <= k < |w[i][j]| && w[i][j][k] != 0.0 ==>
      WeightDeltas(cfg, w, v, t, targets, sampleIndex)[i][j][k] ==
        Some(DecayedStep(cfg.hyper, cfg.learningRateFn(cfg.hyper.learningRate, sampleIndex, i, j),
                         Gradient(NodeCtx(cfg, t, Errors(cfg, w, t, targets, i + 1), sampleIndex, i, j), k), w[i][j][k]))
    ensures NewVelocities(cfg, w, v, t, targets, sampleIndex) == v
  {
    PureRuleKeepsVelocities(cfg, w, v, t, targets, sampleIndex);
    var d := WeightDeltas(cfg, w, v, t, targets, sampleIndex);
    forall i, j, k | 0 <= i < |w| && 0 <= j < |w[i]| && 0 <= k < |w[i][j]| && w[i][j][k] != 0.0
      ensures d[i][j][k] ==
        Some(DecayedStep(cfg.hyper, cfg.learningRateFn(cfg.hyper.learningRate, sampleIndex, i, j),
                         Gradient(NodeCtx(cfg, t, Errors(cfg, w, t, targets, i + 1), sampleIndex, i, j), k), w[i][j][k]))
    {
      var next := Errors(cfg, w, t, targets, i + 1);
      var ctx := NodeCtx(cfg, t, next, sampleIndex, i, j);
      assert d[i] == LayerWeightDeltas(cfg, w, v[i], t, sampleIndex, i, next);
      assert d[i][j] == RowWeightDeltas(cfg, w[i][j], v[i][j], ctx);
    }
  }

  /** With the simple bias-delta and learning-rate functions, hidden node j of layer a + 1
      gets the configured learning rate times its error. */
  lemma DefaultBiasDeltas(cfg: Config, w: Tensor, t: Trace, targets: seq<real>, sampleIndex: nat)
    requires WeightShape(cfg.layerNodeCounts, w) && FullTrace(cfg, t)
    requires cfg.biasDelta == SimpleBiasDelta && cfg.learningRateFn == SimpleLearningRate
    ensures forall a, j :: 0 <= a < |BiasDeltas(cfg, w, t, targets, sampleIndex)| && 0 <= j < cfg.layerNodeCounts[a + 1] ==>
      BiasDeltas(cfg, w, t, targets, sampleIndex)[a][j] == cfg.hyper.learningRate * Errors(cfg, w, t, targets, a + 1)[j]
  {
    BiasDeltaIsScaledError(cfg, w, t, targets, sampleIndex);
  }

  /** With the default bias-delta function, hidden node j of layer a + 1 gets
      learning rate times its error. */
  lemma BiasDeltaIsScaledError(cfg: Config, w: Tensor, t: Trace, targets: seq<real>, sampleIndex: nat)
    requires WeightShape(cfg.layerNodeCounts, w) && FullTrace(cfg, t)
    requires forall ctx, e :: cfg.biasDelta(ctx, e) == SimpleBiasDelta(ctx, e)
    ensures var bd := BiasDeltas(cfg, w, t, targets, sampleIndex);
      forall a, j :: 0 <= a < |bd| && 0 <= j < cfg.layerNodeCounts[a + 1] ==>
        bd[a][j] == cfg.learningRateFn(cfg.hyper.learningRate, sampleIndex, a + 1, j) * Errors(cfg, w, t, targets, a + 1)[j]
  {
    var bd := BiasDeltas(cfg, w, t, targets, sampleIndex);
    forall a, j | 0 <= a < |bd| && 0 <= j < cfg.layerNodeCounts[a + 1]
      ensures bd[a][j] == cfg.learningRateFn(cfg.hyper.learningRate, sampleIndex, a + 1, j) * Errors(cfg, w, t, targets, a + 1)[j]
    {
      var next := Errors(cfg, w, t, targets, a + 2);
      assert Errors(cfg, w, t, targets, a + 1) == LayerErrors(cfg, w, t, a + 1, next);
      assert bd[a] == LayerBiasDeltas(cfg, w, t, sampleIndex, a + 1, next);
      var ctx := NodeCtx(cfg, t, next, sampleIndex, a + 1, j);
      assert bd[a][j] == cfg.biasDelta(ctx, LayerErrors(cfg, w, t, a + 1, next)[j]);
      assert cfg.biasDelta(ctx, LayerErrors(cfg, w, t, a + 1, next)[j]) == SimpleBiasDelta(ctx, LayerErrors(cfg, w, t, a + 1, next)[j]);
    }
  }

  /** Applying a sample's bias deltas never changes the output layer's biases. */
  lemma OutputBiasesUntouched(cfg: Config, w: Tensor, b: Biases, v: Tensor, sampleIndex: nat, inputs: seq<real>, targets: seq<real>, s: Scale)
    requires StateOk(cfg, w, b, v) && |inputs| >= cfg.layerNodeCounts[0] && ScaleOk(s)
    ensures match SampleOutcome(cfg, w, b, v, sampleIndex, inputs, targets)
      case Failure(_) => true
      case Success(st) =>
        FitsBiases(st.result.biasDeltas, b) &&
        BiasesPlus(b, st.result.biasDeltas, s)[|b| - 1] == b[|b| - 1]
  {
  }

  /** Bias totals before the first sample, or shaped like one sample's bias deltas. */
  predicate BiasTotalsOk(cfg: Config, d: Biases) {
    d == [] || BiasDeltaShape(cfg, d)
  }

  /** The batch's running bias totals are either still empty or shaped like one sample's
      bias deltas: the first sample's deltas are taken as they are and later ones added entry by entry. */
  lemma {:induction false} BatchBiasDeltaShape(cfg: Config, w: Tensor, b: Biases, sampleIndex: nat,
                                               list: seq<(seq<real>, seq<real>)>, acc: BatchAcc, h: nat)
    requires StateOk(cfg, w, b, acc.velocities) && InputsFit(cfg, list) && h <= |list|
    requires BiasTotalsOk(cfg, acc.biasDeltas)
    ensures BiasTotalsOk(cfg, BatchFrom(cfg, w, b, sampleIndex, list, acc, h).biasDeltas)
    decreases |list| - h
  {
    if h < |list| && acc.error.None? {
      var next := BatchBiasStep(cfg, w, b, sampleIndex, list, acc, h);
      BatchBiasDeltaShape(cfg, w, b, sampleIndex, list, next, h + 1);
    }
  }

  /** One sample of the batch keeps the bias totals well shaped. */
  lemma BatchBiasStep(cfg: Config, w: Tensor, b: Biases, sampleIndex: nat,
                      list: seq<(seq<real>, seq<real>)>, acc: BatchAcc, h: nat) returns (next: BatchAcc)
    requires StateOk(cfg, w, b, acc.velocities) && InputsFit(cfg, list) && h < |list| && acc.error.None?
    requires BiasTotalsOk(cfg, acc.biasDeltas)
    ensures StateOk(cfg, w, b, next.velocities) && BiasTotalsOk(cfg, next.biasDeltas)
    ensures BatchFrom(cfg, w, b, sampleIndex, list, acc, h) == BatchFrom(cfg, w, b, sampleIndex, list, next, h + 1)
  {
    var o := SampleOutcome(cfg, w, b, acc.velocities, sampleIndex, list[h].0, list[h].1);
    next := Absorb(acc, h, o);
    BatchFromStep(cfg, w, b, sampleIndex, list, acc, h, next);
    AbsorbBiasDeltaShape(cfg, acc, h, o);
  }

  lemma AbsorbBiasDeltaShape(cfg: Config, acc: BatchAcc, h: nat, o: Result<SampleStep, TrainError>)
    requires BiasTotalsOk(cfg, acc.biasDeltas)
    requires o.Success? ==> BiasDeltaShape(cfg, o.value.result.biasDeltas)
    ensures BiasTotalsOk(cfg, Absorb(acc, h, o).biasDeltas)
  {
  }

  /** Applying a batch's summed bias deltas, scaled as `trainBatch` scales them, never changes
      the output layer's biases. */
  lemma BatchOutputBiasesUntouched(cfg: Config, w: Tensor, b: Biases, v: Tensor, sampleIndex: nat,
                                   list: seq<(seq<real>, seq<real>)>, s: Scale)
    requires StateOk(cfg, w, b, v) && InputsFit(cfg, list) && (ScaleOk(s) || |list| == 0)
    ensures var r := BatchFrom(cfg, w, b, sampleIndex, list, BatchStart(v), 0);
      FitsBiases(r.biasDeltas, b) && (|list| == 0 ==> r.biasDeltas == []) &&
      BiasesPlus(b, r.biasDeltas, s)[|b| - 1] == b[|b| - 1]
  {
    BatchBiasDeltaShape(cfg, w, b, sampleIndex, list, BatchStart(v), 0);
  }

  /** A batch of one applies exactly what `train` applies for that sample and reports its loss. */
  lemma BatchOfOne(cfg: Config, w: Tensor, b: Biases, v: Tensor, sampleIndex: nat, inputs: seq<real>, targets: seq<real>)
    requires StateOk(cfg, w, b, v) && |inputs| >= cfg.layerNodeCounts[0]
    ensures var acc := BatchFrom(cfg, w, b, sampleIndex, [(inputs, targets)], BatchStart(v), 0);
      match SampleOutcome(cfg, w, b, v, sampleIndex, inputs, targets)
      case Failure(e) => acc.error == Some(e) && acc.velocities == v
      case Success(s) =>
        acc.error.None? && acc.velocities == s.velocities &&
        WeightsPlus(w, acc.weightDeltas, DividedBy(1)) == WeightsPlus(w, s.result.weightDeltas, Unscaled) &&
        BiasesPlus(b, acc.biasDeltas, DividedBy(1)) == BiasesPlus(b, s.result.biasDeltas, Unscaled) &&
        MeanLoss(acc.totalLoss, 1) == s.result.loss && acc.outputsList == [s.result.outputs]
  {
    var list := [(inputs, targets)];
    assert list[0].0 == inputs && list[0].1 == targets;
    var acc := BatchFrom(cfg, w, b, sampleIndex, list, BatchStart(v), 0);
    var o := SampleOutcome(cfg, w, b, v, sampleIndex, inputs, targets);
    assert acc == BatchAt(cfg, w, b, sampleIndex, list, BatchStart(v), 0);
    assert acc == BatchFrom(cfg, w, b, sampleIndex, list, Absorb(BatchStart(v), 0, o), 1);
    if o.Success? {
      DivideByOne(w, acc.weightDeltas, b, acc.biasDeltas);
    }
  }
}
