/**
 * The `ANN` class: its construction, its in-place parameter updates, and the
 * loops of `propagateForward`, `trainSample`, `train` and `trainBatch`, each
 * proved to compute what module Propagation specifies.
 */
module Network {
  import opened Wrappers
  import opened Tensors
  import opened DefaultFunctions
  import opened Propagation

  /** The constructor's options object; `None` is an option left out (or null). */
  datatype Options = Options(
    layerNodeCounts: seq<nat>,
    learningRate: Option<real>,
    weightDecayFactor: Option<real>,
    activationLeakFactor: Option<real>,
    momentum: Option<real>,
    maxSafeOutputSize: Option<real>,
    activationFunction: ActivationFn,
    activationDerivativeFunction: ActivationDerivativeFn,
    lossFunction: Option<LossFn>,
    lossDerivativeFunction: Option<LossDerivativeFn>,
    weightDeltaFunction: Option<WeightDeltaFn>,
    biasDeltaFunction: Option<BiasDeltaFn>,
    learningRateFunction: Option<LearningRateFn>,
    weightInitFunction: WeightInitFn,
    biasInitFunction: Option<BiasInitFn>)

  function OrElse<F>(f: Option<F>, d: F): F {
    match f
    case Some(g) => g
    case None => d
  }

  /** The hyperparameters after defaulting: numbers compared with null, except momentum, which is
      replaced when falsy. */
  function ResolveHyper(o: Options): (h: Hyper)
    ensures o.learningRate.None? ==> h.learningRate == DefaultLearningRate
    ensures o.learningRate.Some? ==> h.learningRate == o.learningRate.value
    ensures o.maxSafeOutputSize.None? ==> h.maxSafeOutputSize == DefaultMaxSafeOutputSize
    ensures o.maxSafeOutputSize.Some? ==> h.maxSafeOutputSize == o.maxSafeOutputSize.value
    ensures o.weightDecayFactor.None? ==> h.weightDecayFactor == DefaultWeightDecayFactor
    ensures o.weightDecayFactor.Some? ==> h.weightDecayFactor == o.weightDecayFactor.value
    ensures o.activationLeakFactor.None? ==> h.activationLeakFactor == DefaultActivationLeakFactor
    ensures o.activationLeakFactor.Some? ==> h.activationLeakFactor == o.activationLeakFactor.value
    ensures h.momentum != 0.0
    ensures o.momentum.Some? && o.momentum.value != 0.0 ==> h.momentum == o.momentum.value
    ensures o.momentum.None? || o.momentum.value == 0.0 ==> h.momentum == DefaultMomentum
    ensures h.momentum == DefaultMomentum <==> (o.momentum.None? || o.momentum.value in {0.0, DefaultMomentum})
  {
    Hyper(NullOr(o.learningRate, DefaultLearningRate),
          NullOr(o.weightDecayFactor, DefaultWeightDecayFactor),
          NullOr(o.activationLeakFactor, DefaultActivationLeakFactor),
          FalsyOr(o.momentum, DefaultMomentum),
          NullOr(o.maxSafeOutputSize, DefaultMaxSafeOutputSize))
  }

  /** The configuration the constructor stores: each function left out becomes its default. */
  function ResolveConfig(o: Options): (c: Config)
    ensures c.layerNodeCounts == o.layerNodeCounts && c.hyper == ResolveHyper(o)
    ensures c.activation == o.activationFunction
    ensures c.activationDerivative == o.activationDerivativeFunction
    ensures o.lossFunction.None? ==> c.loss == MeanSquaredLoss
    ensures o.lossFunction.Some? ==> c.loss == o.lossFunction.value
    ensures o.lossDerivativeFunction.None? ==> c.lossDerivative == SquaredLossDerivative
    ensures o.lossDerivativeFunction.Some? ==> c.lossDerivative == o.lossDerivativeFunction.value
    ensures c.weightDelta.VelocityRule? <==> o.weightDeltaFunction.None?
    ensures o.weightDeltaFunction.Some? ==> c.weightDelta == PureRule(o.weightDeltaFunction.value)
    ensures o.biasDeltaFunction.None? ==> c.biasDelta == SimpleBiasDelta
    ensures o.biasDeltaFunction.Some? ==> c.biasDelta == o.biasDeltaFunction.value
    ensures o.learningRateFunction.None? ==> c.learningRateFn == SimpleLearningRate
    ensures o.learningRateFunction.Some? ==> c.learningRateFn == o.learningRateFunction.value
  {
    Config(o.layerNodeCounts, ResolveHyper(o),
           o.activationFunction, o.activationDerivativeFunction,
           OrElse(o.lossFunction, MeanSquaredLoss),
           OrElse(o.lossDerivativeFunction, SquaredLossDerivative),
           match o.weightDeltaFunction case Some(f) => PureRule(f) case None => VelocityRule,
           OrElse(o.biasDeltaFunction, SimpleBiasDelta),
           OrElse(o.learningRateFunction, SimpleLearningRate))
  }

  // ---------------------------------------------------------------- construction

  /** The init results for node j of layer i, in k order. */
  function InitCalls(init: WeightInitFn, i: nat, j: nat, n: nat): (r: seq<Option<real>>)
    ensures |r| == n
  {
    seq(n, k requires 0 <= k < n => init(i, j, k))
  }

  /** The weight row of node j of layer i: its non-null init values, pushed in k order. */
  function InitRow(init: WeightInitFn, i: nat, j: nat, n: nat): Row {
    Somes(InitCalls(init, i, j, n))
  }

  function InitLayer(init: WeightInitFn, i: nat, rows: nat, n: nat): (r: Layer)
    ensures |r| == rows
  {
    seq(rows, j requires 0 <= j < rows => InitRow(init, i, j, n))
  }

  function InitWeights(counts: seq<nat>, init: WeightInitFn): (w: Tensor)
    requires |counts| >= 2
  {
    seq(|counts| - 1, i requires 0 <= i < |counts| - 1 => InitLayer(init, i, counts[i], counts[i + 1]))
  }

  function ZeroLayer(layer: Layer): (r: Layer)
    ensures |r| == |layer|
  {
    seq(|layer|, j requires 0 <= j < |layer| => Zeros(|layer[j]|))
  }

  /** A zero velocity for every stored weight. */
  function ZerosLike(w: Tensor): (v: Tensor)
    ensures SameShape(v, w)
    ensures forall i, j, k :: 0 <= i < |v| && 0 <= j < |v[i]| && 0 <= k < |v[i][j]| ==> v[i][j][k] == 0.0
  {
    seq(|w|, i requires 0 <= i < |w| => ZeroLayer(w[i]))
  }

  function BiasRow(binit: BiasInitFn, i: nat, n: nat): (r: seq<real>)
    ensures |r| == n
  {
    seq(n, j requires 0 <= j < n => binit(i, j))
  }

  function InitBiases(counts: seq<nat>, binit: BiasInitFn): (b: Biases)
    requires |counts| >= 2
    ensures BiasShape(counts, b)
  {
    seq(|counts| - 1, i requires 0 <= i < |counts| - 1 => BiasRow(binit, i, counts[i + 1]))
  }

  /** The constructor's innermost loop: the weight row and velocity row of node j of layer i. */
  method BuildRow(init: WeightInitFn, i: nat, j: nat, n: nat) returns (row: Row, vrow: Row)
    ensures row == InitRow(init, i, j, n) && vrow == Zeros(|row|)
  {
    row, vrow := [], [];
    for k := 0 to n
      invariant row == Somes(InitCalls(init, i, j, k)) && vrow == Zeros(|row|)
    {
      var weightValue := init(i, j, k);
      assert InitCalls(init, i, j, k + 1) == InitCalls(init, i, j, k) + [weightValue];
      SomesAppend(InitCalls(init, i, j, k), [weightValue]);
      assert [weightValue][..0] == [];
      if weightValue.Some? {
        row := row + [weightValue.value];
        vrow := vrow + [0.0];
      }
    }
  }

  /** The rows of layer i, their velocities, and how many weights were kept. */
  method BuildLayer(init: WeightInitFn, i: nat, rows: nat, n: nat) returns (layer: Layer, vlayer: Layer, count: nat)
    ensures layer == InitLayer(init, i, rows, n) && vlayer == ZeroLayer(layer) && count == LayerCount(layer)
  {
    layer, vlayer, count := [], [], 0;
    for j := 0 to rows
      invariant layer == InitLayer(init, i, j, n) && vlayer == ZeroLayer(layer) && count == LayerCount(layer)
    {
      var row, vrow := BuildRow(init, i, j, n);
      assert (layer + [row])[..|layer|] == layer;
      layer := layer + [row];
      vlayer := vlayer + [vrow];
      count := count + |row|;
    }
  }

  method BuildBiasRow(binit: BiasInitFn, i: nat, n: nat) returns (r: seq<real>)
    ensures r == BiasRow(binit, i, n)
  {
    r := [];
    for j := 0 to n
      invariant r == BiasRow(binit, i, j)
    {
      r := r + [binit(i, j)];
    }
  }

  /** The constructor's second loop: every layer's weights, velocities and biases, and the
      number of weights kept. */
  method BuildNetwork(counts: seq<nat>, init: WeightInitFn, binit: BiasInitFn)
    returns (w: Tensor, v: Tensor, b: Biases, c: nat)
    requires |counts| >= 2
    ensures w == InitWeights(counts, init) && v == ZerosLike(w) && c == TotalCount(w)
    ensures b == InitBiases(counts, binit)
  {
    ghost var target, biasTarget := InitWeights(counts, init), InitBiases(counts, binit);
    w, v, b, c := [], [], [], 0;
    for i := 0 to |counts| - 1
      invariant w == target[..i] && b == biasTarget[..i]
      invariant v == ZerosLike(w) && c == TotalCount(w)
    {
      var lw, lv, lc := BuildLayer(init, i, counts[i], counts[i + 1]);
      var lb := BuildBiasRow(binit, i, counts[i + 1]);
      assert lw == target[i] && lb == biasTarget[i];
      ExtendCounts(target, i, w, v, c, lw, lv, lc);
      ExtendPrefix(biasTarget, i, b, lb);
      w, v, c := w + [lw], v + [lv], c + lc;
      b := b + [lb];
    }
    assert w == target;
    assert b == biasTarget;
  }

  /** One round of the constructor's second loop keeps the weights a prefix of the target,
      the velocities zero and the count right. */
  lemma ExtendCounts(target: Tensor, i: nat, w: Tensor, v: Tensor, c: nat, l: Layer, lv: Layer, lc: nat)
    requires i < |target| && w == target[..i] && l == target[i]
    requires v == ZerosLike(w) && c == TotalCount(w) && lv == ZeroLayer(l) && lc == LayerCount(l)
    ensures w + [l] == target[..i + 1]
    ensures v + [lv] == ZerosLike(w + [l]) && c + lc == TotalCount(w + [l])
  {
    assert (w + [l])[..|w|] == w;
  }

  lemma ExtendPrefix<T>(target: seq<T>, i: nat, p: seq<T>, x: T)
    requires i < |target| && p == target[..i] && x == target[i]
    ensures p + [x] == target[..i + 1]
  {
  }

  /** The constructor's first loop: `sum over 1 <= i < |counts| of counts[i - 1] * counts[i]`. */
  method MaxWeightCount(counts: seq<nat>) returns (m: nat)
    ensures m == MaxWeightsUpTo(counts, |counts|)
  {
    m := 0;
    var i := 1;
    while i < |counts|
      invariant 1 <= i && (|counts| >= 1 ==> i <= |counts|)
      invariant m == if |counts| == 0 then 0 else MaxWeightsUpTo(counts, i)
    {
      m := m + counts[i - 1] * counts[i];
      i := i + 1;
    }
  }

  /** The weighted sums of the next layer's `width` nodes after source nodes `0 .. n - 1`. */
  function PartialSums(prevOut: seq<real>, layer: Layer, width: nat, n: nat): (r: seq<real>)
    requires n <= |prevOut| && n <= |layer|
    ensures |r| == width
  {
    seq(width, k requires 0 <= k < width => WeightedSum(prevOut, layer, k, n))
  }

  /** `nextLayerWeightedSums` of `propagateForward`: the double loop over j and k. */
  method WeightedSums(prevOut: seq<real>, layer: Layer, width: nat) returns (sums: seq<real>)
    requires |layer| <= |prevOut|
    ensures sums == PartialSums(prevOut, layer, width, |layer|)
  {
    sums := seq(width, _ => 0.0);
    for j := 0 to |layer|
      invariant sums == PartialSums(prevOut, layer, width, j)
    {
      ghost var before := sums;
      for k := 0 to width
        invariant |sums| == width
        invariant forall k' :: 0 <= k' < k ==> sums[k'] == WeightedSum(prevOut, layer, k', j + 1)
        invariant forall k' :: k <= k' < width ==> sums[k'] == before[k']
      {
        sums := sums[k := sums[k] + prevOut[j] * Or0(layer[j], k)];
      }
    }
  }

  /** `v[i][j][k] := x` */
  function SetEntry(v: Tensor, i: nat, j: nat, k: nat, x: real): Tensor
    requires i < |v| && j < |v[i]| && k < |v[i][j]|
  {
    v[i := v[i][j := v[i][j][k := x]]]
  }

  /** `v[i][j] := row` */
  function SetRow(v: Tensor, i: nat, j: nat, row: Row): Tensor
    requires i < |v| && j < |v[i]|
  {
    v[i := v[i][j := row]]
  }

  lemma SetEntryOfSetRow(v: Tensor, i: nat, j: nat, row: Row, k: nat, x: real)
    requires i < |v| && j < |v[i]| && k < |row|
    ensures SetEntry(SetRow(v, i, j, row), i, j, k, x) == SetRow(v, i, j, row[k := x])
  {
    var u := SetRow(v, i, j, row);
    assert u[i][j := row[k := x]] == v[i][j := row[k := x]];
  }

  /** The velocity row of one node once the weight-delta calls for destinations below n are done. */
  function VelocitiesUpTo(cfg: Config, row: Row, vrow: Row, ctx: NodeContext, n: nat): (r: Row)
    requires |vrow| == |row|
    ensures |r| == |row|
  {
    var nv := RowVelocities(cfg, row, vrow, ctx);
    seq(|row|, k requires 0 <= k < |row| => if k < n then nv[k] else vrow[k])
  }

  // ---------------------------------------------------------------- appliers and batch sums

  /** `row[k] += (dr[k] || 0)`, divided by the batch size when scaled, for every k of `dr`. */
  method AddRow(row: Row, dr: seq<Option<real>>, s: Scale) returns (r: Row)
    requires |dr| <= |row| && (ScaleOk(s) || |dr| == 0)
    ensures r == RowPlus(row, dr, s)
  {
    r := row;
    for k := 0 to |dr|
      invariant |r| == |row|
      invariant forall k' :: 0 <= k' < |row| ==> r[k'] == if k' < k then row[k'] + Contribution(dr[k'], s) else row[k']
    {
      r := r[k := r[k] + Contribution(dr[k], s)];
    }
  }

  method AddLayer(layer: Layer, dl: seq<seq<Option<real>>>, s: Scale) returns (r: Layer)
    requires |dl| <= |layer| && (forall j :: 0 <= j < |dl| ==> |dl[j]| <= |layer[j]|)
    requires ScaleOk(s) || |dl| == 0
    ensures r == LayerPlus(layer, dl, s)
  {
    r := layer;
    for j := 0 to |dl|
      invariant |r| == |layer|
      invariant forall j' :: 0 <= j' < |layer| ==> r[j'] == if j' < j then RowPlus(layer[j'], dl[j'], s) else layer[j']
    {
      var row := AddRow(r[j], dl[j], s);
      r := r[j := row];
    }
  }

  /** The triple loop of `applyWeightDeltas` (`Unscaled`) and `applyWeightDeltasBatch`. */
  method AddWeights(w: Tensor, d: DeltaTensor, s: Scale) returns (r: Tensor)
    requires Fits(d, w) && (ScaleOk(s) || |d| == 0)
    ensures r == WeightsPlus(w, d, s)
  {
    r := w;
    for i := 0 to |d|
      invariant |r| == |w|
      invariant forall i' :: 0 <= i' < |w| ==> r[i'] == if i' < i then LayerPlus(w[i'], d[i'], s) else w[i']
    {
      var layer := AddLayer(r[i], d[i], s);
      r := r[i := layer];
    }
  }

  method AddBiasRow(row: seq<real>, dr: seq<real>, s: Scale) returns (r: seq<real>)
    requires |dr| <= |row| && (ScaleOk(s) || |dr| == 0)
    ensures r == BiasRowPlus(row, dr, s)
  {
    r := row;
    for j := 0 to |dr|
      invariant |r| == |row|
      invariant forall j' :: 0 <= j' < |row| ==> r[j'] == if j' < j then row[j'] + Contribution(Some(dr[j']), s) else row[j']
    {
      r := r[j := r[j] + Contribution(Some(dr[j]), s)];
    }
  }

  /** The double loop of `applyBiasDeltas` (`Unscaled`), `applyBiasDeltasBatch`, and the
      bias-delta sum of `trainBatch` (`Unscaled`). */
  method AddBiases(b: Biases, d: Biases, s: Scale) returns (r: Biases)
    requires FitsBiases(d, b) && (ScaleOk(s) || |d| == 0)
    ensures r == BiasesPlus(b, d, s)
  {
    r := b;
    for i := 0 to |d|
      invariant |r| == |b|
      invariant forall i' :: 0 <= i' < |b| ==> r[i'] == if i' < i then BiasRowPlus(b[i'], d[i'], s) else b[i']
    {
      var row := AddBiasRow(r[i], d[i], s);
      r := r[i := row];
    }
  }

  method SumRow(t: seq<Option<real>>, d: seq<Option<real>>) returns (r: seq<Option<real>>)
    requires |d| <= |t|
    ensures r == RowSum(t, d)
  {
    r := t;
    for k := 0 to |d|
      invariant |r| == |t|
      invariant forall k' :: 0 <= k' < |t| ==> r[k'] == if k' < k then EntrySum(t[k'], d[k']) else t[k']
    {
      r := r[k := EntrySum(r[k], d[k])];
    }
  }

  method SumLayer(t: seq<seq<Option<real>>>, d: seq<seq<Option<real>>>) returns (r: seq<seq<Option<real>>>)
    requires |d| <= |t| && forall j :: 0 <= j < |d| ==> |d[j]| <= |t[j]|
    ensures r == LayerSum(t, d)
  {
    r := t;
    for j := 0 to |d|
      invariant |r| == |t|
      invariant forall j' :: 0 <= j' < |t| ==> r[j'] == if j' < j then RowSum(t[j'], d[j']) else t[j']
    {
      var row := SumRow(r[j], d[j]);
      r := r[j := row];
    }
  }

  /** The weight-delta triple loop of `trainBatch`: `total[i][j][k] += d[i][j][k] || 0`. */
  method SumDeltas(t: DeltaTensor, d: DeltaTensor) returns (r: DeltaTensor)
    requires Fits(d, t)
    ensures r == DeltaSum(t, d)
  {
    r := t;
    for i := 0 to |d|
      invariant |r| == |t|
      invariant forall i' :: 0 <= i' < |t| ==> r[i'] == if i' < i then LayerSum(t[i'], d[i']) else t[i']
    {
      var layer := SumLayer(r[i], d[i]);
      r := r[i := layer];
    }
  }

  /** `trainBatch`'s totals after one more sample: the first sample's deltas are taken as they are. */
  method AddSampleDeltas(first: bool, totalWeightDeltas: DeltaTensor, totalBiasDeltas: Biases, sample: TrainResult)
    returns (weightDeltas: DeltaTensor, biasDeltas: Biases)
    requires !first ==> Fits(sample.weightDeltas, totalWeightDeltas) && FitsBiases(sample.biasDeltas, totalBiasDeltas)
    ensures first ==> weightDeltas == sample.weightDeltas && biasDeltas == sample.biasDeltas
    ensures !first ==> weightDeltas == DeltaSum(totalWeightDeltas, sample.weightDeltas)
    ensures !first ==> biasDeltas == BiasesPlus(totalBiasDeltas, sample.biasDeltas, Unscaled)
  {
    if first {
      weightDeltas, biasDeltas := sample.weightDeltas, sample.biasDeltas;
    } else {
      weightDeltas := SumDeltas(totalWeightDeltas, sample.weightDeltas);
      biasDeltas := AddBiases(totalBiasDeltas, sample.biasDeltas, Unscaled);
    }
  }

  /** One round of `trainBatch`'s loop once sample h has been trained and produced `sample`
      (its specification `o`): its loss, outputs and deltas added to the running totals, or the
      error it threw. `before` and `after` are the velocities around the sample. */
  method AbsorbSample(ghost cfg: Config, ghost w: Tensor, h: nat, ghost o: Result<SampleStep, TrainError>,
                      ghost before: Tensor, ghost after: Tensor,
                      totalWeightDeltas: DeltaTensor, totalBiasDeltas: Biases, totalLoss: real,
                      outputsList: seq<seq<real>>, sample: Result<TrainResult, TrainError>)
    returns (totalWeightDeltas': DeltaTensor, totalBiasDeltas': Biases,
             totalLoss': real, outputsList': seq<seq<real>>, error: Option<TrainError>)
    requires h > 0 ==> SameShape(totalWeightDeltas, w) && BiasDeltaShape(cfg, totalBiasDeltas)
    requires match o
      case Failure(e) => sample == Failure(e) && after == before
      case Success(s) => sample == Success(s.result) && after == s.velocities && SampleShapes(w, cfg, s)
    ensures Absorb(BatchAcc(totalWeightDeltas, totalBiasDeltas, before, totalLoss, outputsList, None), h, o) ==
      BatchAcc(totalWeightDeltas', totalBiasDeltas', after, totalLoss', outputsList', error)
    ensures error.None? ==> SameShape(totalWeightDeltas', w) && BiasDeltaShape(cfg, totalBiasDeltas')
  {
    if sample.Failure? {
      return totalWeightDeltas, totalBiasDeltas, totalLoss, outputsList, Some(sample.error);
    }
    if h > 0 {
      SameShapeFits(sample.value.weightDeltas, totalWeightDeltas, w);
    }
    totalLoss' := totalLoss + sample.value.loss;
    outputsList' := outputsList + [sample.value.outputs];
    error := None;
    totalWeightDeltas', totalBiasDeltas' := AddSampleDeltas(h == 0, totalWeightDeltas, totalBiasDeltas, sample.value);
  }

  /** What `train` returns. */
  datatype TrainOutput = TrainOutput(outputs: seq<real>, loss: real)

  /** What `trainBatch` returns. */
  datatype BatchOutput = BatchOutput(outputsList: seq<seq<real>>, loss: real)

  class ANN {
    const config: Config
    const layerCount: nat
    const maxWeightCount: nat
    const weightCount: nat
    var weights: Tensor
    var biases: Biases
    var velocities: Tensor
    var trainingSampleIndex: nat
    /** `activationDerivatives[i][j]`, reset for every sample. */
    var activationDerivatives: map<(nat, nat), real>

    /** The shapes fixed at construction. */
    ghost predicate Valid()
      reads this`weights, this`biases, this`velocities
    {
      layerCount == |config.layerNodeCounts| && StateOk(config, weights, biases, velocities)
    }

    /** `weightCount` is the number of stored weights and never exceeds `maxWeightCount`. */
    ghost predicate Counted()
      reads this`weights
    {
      layerCount == |config.layerNodeCounts| &&
      weightCount == TotalCount(weights) &&
      maxWeightCount == MaxWeightsUpTo(config.layerNodeCounts, layerCount) &&
      weightCount <= maxWeightCount
    }

    constructor (o: Options)
      requires |o.layerNodeCounts| >= 2
      ensures Valid() && Counted()
      ensures config == ResolveConfig(o) && layerCount == |o.layerNodeCounts|
      ensures weights == InitWeights(o.layerNodeCounts, o.weightInitFunction)
      ensures velocities == ZerosLike(weights)
      ensures biases == InitBiases(o.layerNodeCounts, OrElse(o.biasInitFunction, ZeroBiasInit))
      ensures weightCount == TotalCount(weights) && maxWeightCount == MaxWeightsUpTo(o.layerNodeCounts, |o.layerNodeCounts|)
      ensures trainingSampleIndex == 0 && activationDerivatives == map[]
    {
      var counts := o.layerNodeCounts;
      var m := MaxWeightCount(counts);
      var w, v, b, c := BuildNetwork(counts, o.weightInitFunction, OrElse(o.biasInitFunction, ZeroBiasInit));
      InitWeightsShape(counts, o.weightInitFunction);
      TotalCountBound(counts, w);
      maxWeightCount := m;
      config := ResolveConfig(o);
      layerCount := |counts|;
      weightCount := c;
      weights, velocities, biases := w, v, b;
      trainingSampleIndex := 0;
      activationDerivatives := map[];
    }

    /** The node inputs (weighted sum plus bias) and outputs of the next layer. */
    method ComputeLayer(sums: seq<real>, bias: seq<real>) returns (x: seq<real>, y: seq<real>)
      requires |sums| <= |bias|
      ensures |x| == |sums| && forall k :: 0 <= k < |sums| ==> x[k] == sums[k] + bias[k]
      ensures y == Activate(config, x)
    {
      x, y := [], [];
      for k := 0 to |sums|
        invariant |x| == k && forall k' :: 0 <= k' < k ==> x[k'] == sums[k'] + bias[k']
        invariant y == Activate(config, x)
      {
        var nodeInput := sums[k] + bias[k];
        x := x + [nodeInput];
        y := y + [config.activation(config.hyper, nodeInput)];
      }
    }

    /** `propagateForward(inputs)`: every layer's inputs and outputs, layer 0 being `inputs`. */
    method PropagateForward(inputs: seq<real>) returns (t: Trace)
      requires Valid() && |inputs| >= config.layerNodeCounts[0]
      ensures t == Forward(config, weights, biases, inputs)
    {
      var counts := config.layerNodeCounts;
      var layerInputs, layerOutputs := [inputs], [inputs];
      for i := 0 to |counts| - 1
        invariant Trace(layerInputs, layerOutputs) == ForwardTrace(config, weights, biases, inputs, i)
      {
        var sums := WeightedSums(layerOutputs[i], weights[i], counts[i + 1]);
        var x, y := ComputeLayer(sums, biases[i]);
        assert x == NodeInputs(layerOutputs[i], weights[i], biases[i], counts[i + 1]);
        layerInputs, layerOutputs := layerInputs + [x], layerOutputs + [y];
      }
      t := Trace(layerInputs, layerOutputs);
    }

    /** `run(inputs)`: the last layer's outputs. */
    method Run(inputs: seq<real>) returns (outputs: seq<real>)
      requires Valid() && |inputs| >= config.layerNodeCounts[0]
      ensures outputs == Forward(config, weights, biases, inputs).outputs[layerCount - 1]
    {
      var t := PropagateForward(inputs);
      outputs := t.outputs[|t.outputs| - 1];
    }

    /** Every cached activation derivative is the one of the current trace. */
    ghost predicate CacheMatches(t: Trace)
      reads this`activationDerivatives
    {
      forall key :: key in activationDerivatives ==>
        key.0 < |t.inputs| && key.0 < |t.outputs| &&
        activationDerivatives[key] == ActDeriv(config, t, key.0, key.1)
    }

    /** `simpleTrainInitFunction`: forget every cached derivative. */
    method TrainInit()
      modifies this`activationDerivatives
      ensures activationDerivatives == map[]
    {
      activationDerivatives := map[];
    }

    /** `simpleErrorInitFunction` for output node j: caches the activation derivative. */
    method ErrorInit(targets: seq<real>, t: Trace, j: nat) returns (error: real)
      requires Valid() && FullTrace(config, t) && CacheMatches(t)
      modifies this`activationDerivatives
      ensures error == config.lossDerivative(targets, t.inputs[layerCount - 1], t.outputs[layerCount - 1], j)
                       * ActDeriv(config, t, layerCount - 1, j)
      ensures activationDerivatives == old(activationDerivatives)[(layerCount - 1, j) := ActDeriv(config, t, layerCount - 1, j)]
      ensures Valid() && CacheMatches(t)
    {
      var last := layerCount - 1;
      var lossDerivative := config.lossDerivative(targets, t.inputs[last], t.outputs[last], j);
      var activationDerivative := config.activationDerivative(config.hyper, t.inputs[last], t.outputs[last], j);
      activationDerivatives := activationDerivatives[(last, j) := activationDerivative];
      error := lossDerivative * activationDerivative;
    }

    /** The output layer's errors, in node order. */
    method OutputLayerErrors(targets: seq<real>, t: Trace) returns (errors: seq<real>)
      requires Valid() && FullTrace(config, t) && CacheMatches(t)
      modifies this`activationDerivatives
      ensures errors == OutputErrors(config, t, targets)
      ensures Valid() && CacheMatches(t)
    {
      errors := [];
      var n := config.layerNodeCounts[layerCount - 1];
      for j := 0 to n
        invariant Valid() && CacheMatches(t)
        invariant errors == OutputErrors(config, t, targets)[..j]
      {
        var e := ErrorInit(targets, t, j);
        ghost var all := OutputErrors(config, t, targets);
        assert all[j] == e;
        assert all[..j + 1] == all[..j] + [e];
        errors := errors + [e];
      }
    }

    /** `simpleErrorDeltaFunction`: the derivative is recomputed when it is missing or 0. */
    method ErrorDelta(t: Trace, nextLayerErrors: seq<real>, currentWeight: real, i: nat, j: nat, k: nat) returns (delta: real)
      requires FullTrace(config, t) && i < |t.inputs| && k < |nextLayerErrors| && CacheMatches(t)
      modifies this`activationDerivatives
      ensures delta == nextLayerErrors[k] * currentWeight * ActDeriv(config, t, i, j)
      ensures activationDerivatives == old(activationDerivatives)[(i, j) := ActDeriv(config, t, i, j)]
      ensures CacheMatches(t)
    {
      if (i, j) !in activationDerivatives || activationDerivatives[(i, j)] == 0.0 {
        activationDerivatives := activationDerivatives[(i, j) := config.activationDerivative(config.hyper, t.inputs[i], t.outputs[i], j)];
      }
      var activationDerivative := activationDerivatives[(i, j)];
      delta := nextLayerErrors[k] * currentWeight * activationDerivative;
    }

    /** `velocityWeightDeltaFunction`: stores the new velocity of weight (i, j, k) and returns it. */
    method VelocityWeightDelta(ctx: NodeContext, i: nat, j: nat, k: nat) returns (delta: real)
      requires Valid() && i < |weights| && j < |weights[i]| && k < |weights[i][j]|
      modifies this`velocities
      ensures delta == VelocityValue(config.hyper, ctx.learningRate, Gradient(ctx, k), weights[i][j][k], old(velocities[i][j][k]))
      ensures velocities == SetEntry(old(velocities), i, j, k, delta)
      ensures Valid()
    {
      var gradient := Gradient(ctx, k);
      var weightDecay := config.hyper.weightDecayFactor * weights[i][j][k];
      delta := ctx.learningRate * (gradient - weightDecay) + config.hyper.momentum * velocities[i][j][k];
      velocities := SetEntry(velocities, i, j, k, delta);
    }

    /** `weightDeltaFunction` for weight (i, j, k): the default changes the velocity, a supplied one nothing. */
    method WeightDelta(ctx: NodeContext, i: nat, j: nat, k: nat) returns (delta: real)
      requires Valid() && i < |weights| && j < |weights[i]| && k < |weights[i][j]|
      modifies this`velocities
      ensures delta == WeightDeltaValue(config, ctx, k, weights[i][j][k], old(velocities[i][j][k]))
      ensures velocities == if config.weightDelta.VelocityRule? then SetEntry(old(velocities), i, j, k, delta) else old(velocities)
      ensures Valid()
    {
      match config.weightDelta
      case VelocityRule =>
        delta := VelocityWeightDelta(ctx, i, j, k);
      case PureRule(f) =>
        delta := f(config.hyper, ctx, k, weights[i][j][k]);
    }

    /** One round of the k loop of `trainSample`: a truthy weight (i, j, k) adds its error term
        (hidden layers only) and gets a weight delta; any other is skipped. */
    method VisitWeight(t: Trace, ctx: NodeContext, i: nat, j: nat, k: nat) returns (errorTerm: real, delta: Option<real>)
      requires Valid() && FullTrace(config, t) && CacheMatches(t)
      requires i < |weights| && j < |weights[i]| && k < |ctx.nextLayerErrors|
      modifies this`velocities, this`activationDerivatives
      ensures errorTerm == if i > 0 then ErrorTerm(weights[i][j], ctx.nextLayerErrors, ActDeriv(config, t, i, j), k) else 0.0
      ensures delta == if Present(weights[i][j], k)
        then Some(WeightDeltaValue(config, ctx, k, weights[i][j][k], old(velocities[i][j][k]))) else None
      ensures velocities == if Present(weights[i][j], k) && config.weightDelta.VelocityRule?
        then SetEntry(old(velocities), i, j, k, delta.value) else old(velocities)
      ensures Valid() && CacheMatches(t)
    {
      errorTerm, delta := 0.0, None;
      if Present(weights[i][j], k) {
        if i > 0 {
          errorTerm := ErrorDelta(t, ctx.nextLayerErrors, weights[i][j][k], i, j, k);
        }
        var d := WeightDelta(ctx, i, j, k);
        delta := Some(d);
      }
    }

    /** One round of the k loop of node (i, j), stated as the loop's invariant moving from k to k + 1. */
    method NodeStep(t: Trace, ctx: NodeContext, i: nat, j: nat, k: nat, ghost v0: Tensor, ghost vrow: Row,
                    deltas: seq<Option<real>>, error: real)
      returns (deltas': seq<Option<real>>, error': real)
      requires Valid() && FullTrace(config, t) && CacheMatches(t)
      requires i < |weights| && j < |weights[i]| && k < |ctx.nextLayerErrors|
      requires i < |v0| && j < |v0[i]| && |vrow| == |weights[i][j]|
      requires deltas == RowWeightDeltas(config, weights[i][j], vrow, ctx)[..if k <= |weights[i][j]| then k else |weights[i][j]|]
      requires i > 0 ==> error == ErrorSum(weights[i][j], ctx.nextLayerErrors, ActDeriv(config, t, i, j), k)
      requires i == 0 ==> error == 0.0
      requires velocities == SetRow(v0, i, j, VelocitiesUpTo(config, weights[i][j], vrow, ctx, k))
      modifies this`velocities, this`activationDerivatives
      ensures deltas' == RowWeightDeltas(config, weights[i][j], vrow, ctx)[..if k + 1 <= |weights[i][j]| then k + 1 else |weights[i][j]|]
      ensures i > 0 ==> error' == ErrorSum(weights[i][j], ctx.nextLayerErrors, ActDeriv(config, t, i, j), k + 1)
      ensures i == 0 ==> error' == 0.0
      ensures velocities == SetRow(v0, i, j, VelocitiesUpTo(config, weights[i][j], vrow, ctx, k + 1))
      ensures Valid() && CacheMatches(t)
    {
      var row := weights[i][j];
      ghost var target := RowWeightDeltas(config, row, vrow, ctx);
      ghost var before := VelocitiesUpTo(config, row, vrow, ctx, k);
      var e, d := VisitWeight(t, ctx, i, j, k);
      error' := error + e;
      deltas' := deltas;
      if k < |row| {
        assert target[..k + 1] == target[..k] + [d];
        deltas' := deltas + [d];
      }
      if Present(row, k) && config.weightDelta.VelocityRule? {
        assert VelocitiesUpTo(config, row, vrow, ctx, k + 1) == before[k := d.value];
        SetEntryOfSetRow(v0, i, j, before, k, d.value);
      } else {
        assert VelocitiesUpTo(config, row, vrow, ctx, k + 1) == before;
      }
    }

    /** The k loop of `trainSample` for source node j of layer i: its weight deltas, its error and,
        for a hidden node, its bias delta. */
    method NodeBackward(t: Trace, nextLayerErrors: seq<real>, i: nat, j: nat)
      returns (deltas: seq<Option<real>>, error: real, biasDelta: Option<real>)
      requires Valid() && FullTrace(config, t) && CacheMatches(t)
      requires i < |weights| && j < |weights[i]| && |nextLayerErrors| == config.layerNodeCounts[i + 1]
      modifies this`velocities, this`activationDerivatives
      ensures var ctx := NodeCtx(config, t, nextLayerErrors, trainingSampleIndex, i, j);
        deltas == RowWeightDeltas(config, weights[i][j], old(velocities[i][j]), ctx) &&
        error == NodeError(config, weights[i][j], nextLayerErrors, t, i, j) &&
        biasDelta == (if i > 0 then Some(config.biasDelta(ctx, error)) else None) &&
        velocities == SetRow(old(velocities), i, j, RowVelocities(config, weights[i][j], old(velocities[i][j]), ctx))
      ensures Valid() && CacheMatches(t)
    {
      var row := weights[i][j];
      ghost var v0 := velocities;
      ghost var vrow := velocities[i][j];
      var learningRate := config.learningRateFn(config.hyper.learningRate, trainingSampleIndex, i, j);
      var ctx := NodeContext(learningRate, t.inputs, t.outputs, nextLayerErrors, i, j);
      ghost var target := RowWeightDeltas(config, row, vrow, ctx);
      deltas, error := [], 0.0;
      var n := config.layerNodeCounts[i + 1];
      assert VelocitiesUpTo(config, row, vrow, ctx, 0) == vrow;
      assert v0[i][j := vrow] == v0[i];
      for k := 0 to n
        invariant Valid() && CacheMatches(t)
        invariant deltas == target[..if k <= |row| then k else |row|]
        invariant i > 0 ==> error == ErrorSum(row, nextLayerErrors, ActDeriv(config, t, i, j), k)
        invariant i == 0 ==> error == 0.0
        invariant velocities == SetRow(v0, i, j, VelocitiesUpTo(config, row, vrow, ctx, k))
      {
        deltas, error := NodeStep(t, ctx, i, j, k, v0, vrow, deltas, error);
      }
      assert VelocitiesUpTo(config, row, vrow, ctx, n) == RowVelocities(config, row, vrow, ctx);
      biasDelta := if i > 0 then Some(config.biasDelta(ctx, error)) else None;
    }

    /** The j loop of `trainSample` for layer i: weight deltas, errors and (hidden layers only)
        bias deltas of its nodes. */
    method LayerBackward(t: Trace, nextLayerErrors: seq<real>, i: nat)
      returns (deltas: seq<seq<Option<real>>>, errors: seq<real>, biasDeltas: seq<real>)
      requires Valid() && FullTrace(config, t) && CacheMatches(t)
      requires i < |weights| && |nextLayerErrors| == config.layerNodeCounts[i + 1]
      modifies this`velocities, this`activationDerivatives
      ensures deltas == LayerWeightDeltas(config, weights, old(velocities[i]), t, trainingSampleIndex, i, nextLayerErrors)
      ensures errors == LayerErrors(config, weights, t, i, nextLayerErrors)
      ensures biasDeltas == if i > 0 then LayerBiasDeltas(config, weights, t, trainingSampleIndex, i, nextLayerErrors) else []
      ensures velocities == old(velocities)[i := LayerVelocities(config, weights, old(velocities[i]), t, trainingSampleIndex, i, nextLayerErrors)]
      ensures Valid() && CacheMatches(t)
    {
      ghost var v0, vl := velocities, velocities[i];
      ghost var nl := vl;
      var index := trainingSampleIndex;
      var n := config.layerNodeCounts[i];
      deltas, errors, biasDeltas := [], [], [];
      assert v0[i := nl] == v0;
      for j := 0 to n
        invariant Valid() && CacheMatches(t)
        invariant |deltas| == j && forall j' :: 0 <= j' < j ==>
          deltas[j'] == RowWeightDeltas(config, weights[i][j'], vl[j'], NodeCtx(config, t, nextLayerErrors, index, i, j'))
        invariant |errors| == j && forall j' :: 0 <= j' < j ==>
          errors[j'] == NodeError(config, weights[i][j'], nextLayerErrors, t, i, j')
        invariant i == 0 ==> biasDeltas == []
        invariant i > 0 ==> |biasDeltas| == j && forall j' :: 0 <= j' < j ==>
          biasDeltas[j'] == config.biasDelta(NodeCtx(config, t, nextLayerErrors, index, i, j'), errors[j'])
        invariant velocities == v0[i := nl] && |nl| == |vl|
        invariant forall j' :: 0 <= j' < j ==>
          nl[j'] == RowVelocities(config, weights[i][j'], vl[j'], NodeCtx(config, t, nextLayerErrors, index, i, j'))
        invariant forall j' :: j <= j' < |vl| ==> nl[j'] == vl[j']
      {
        ghost var before := nl;
        var d, e, b := NodeBackward(t, nextLayerErrors, i, j);
        nl := nl[j := RowVelocities(config, weights[i][j], vl[j], NodeCtx(config, t, nextLayerErrors, index, i, j))];
        assert v0[i := before][i := before[j := nl[j]]] == v0[i := nl];
        deltas, errors := deltas + [d], errors + [e];
        if b.Some? {
          biasDeltas := biasDeltas + [b.value];
        }
      }
      assert nl == LayerVelocities(config, weights, vl, t, index, i, nextLayerErrors);
      assert deltas == LayerWeightDeltas(config, weights, vl, t, index, i, nextLayerErrors);
      assert errors == LayerErrors(config, weights, t, i, nextLayerErrors);
    }

    /** The backward half of `trainSample`: output errors, then the layers from last to first. */
    method BackPropagate(t: Trace, targetOutputs: seq<real>) returns (weightDeltas: DeltaTensor, biasDeltas: Biases)
      requires Valid() && FullTrace(config, t) && CacheMatches(t)
      modifies this`velocities, this`activationDerivatives
      ensures weightDeltas == WeightDeltas(config, weights, old(velocities), t, targetOutputs, trainingSampleIndex)
      ensures biasDeltas == BiasDeltas(config, weights, t, targetOutputs, trainingSampleIndex)
      ensures velocities == NewVelocities(config, weights, old(velocities), t, targetOutputs, trainingSampleIndex)
      ensures Valid() && CacheMatches(t)
    {
      var last := layerCount - 1;
      var outputErrors := OutputLayerErrors(targetOutputs, t);
      var errors := [outputErrors];
      ghost var v0 := velocities;
      var index := trainingSampleIndex;
      weightDeltas, biasDeltas := seq(last, _ => []), seq(last - 1, _ => []);
      var n := last;
      BackwardStart(config, weights, v0, t, targetOutputs, index);
      while n > 0
        invariant 0 <= n <= last
        invariant Valid() && CacheMatches(t)
        invariant errors == ErrorStack(config, weights, t, targetOutputs, n)
        invariant weightDeltas == DeltasAfter(config, weights, v0, t, targetOutputs, index, n)
        invariant biasDeltas == BiasDeltasAfter(config, weights, t, targetOutputs, index, n)
        invariant velocities == VelocitiesAfter(config, weights, v0, t, targetOutputs, index, n)
      {
        errors, weightDeltas, biasDeltas := BackwardLayer(t, targetOutputs, v0, n, errors, weightDeltas, biasDeltas);
        n := n - 1;
      }
      BackwardEnd(config, weights, v0, t, targetOutputs, index);
    }

    /** One round of the i loop of `trainSample`, for layer i = n - 1: its errors pushed, its
        weight deltas and (hidden layers only) bias deltas stored, its velocities updated. */
    method BackwardLayer(t: Trace, targetOutputs: seq<real>, ghost v0: Tensor, n: nat,
                         errors: seq<seq<real>>, weightDeltas: DeltaTensor, biasDeltas: Biases)
      returns (errors': seq<seq<real>>, weightDeltas': DeltaTensor, biasDeltas': Biases)
      requires Valid() && FullTrace(config, t) && CacheMatches(t)
      requires SameShape(v0, weights) && 0 < n <= |weights|
      requires errors == ErrorStack(config, weights, t, targetOutputs, n)
      requires weightDeltas == DeltasAfter(config, weights, v0, t, targetOutputs, trainingSampleIndex, n)
      requires biasDeltas == BiasDeltasAfter(config, weights, t, targetOutputs, trainingSampleIndex, n)
      requires velocities == VelocitiesAfter(config, weights, v0, t, targetOutputs, trainingSampleIndex, n)
      modifies this`velocities, this`activationDerivatives
      ensures Valid() && CacheMatches(t)
      ensures errors' == ErrorStack(config, weights, t, targetOutputs, n - 1)
      ensures weightDeltas' == DeltasAfter(config, weights, v0, t, targetOutputs, trainingSampleIndex, n - 1)
      ensures biasDeltas' == BiasDeltasAfter(config, weights, t, targetOutputs, trainingSampleIndex, n - 1)
      ensures velocities == VelocitiesAfter(config, weights, v0, t, targetOutputs, trainingSampleIndex, n - 1)
    {
      var i := n - 1;
      var nextLayerErrors := errors[|errors| - 1];
      ErrorStackStep(config, weights, t, targetOutputs, n);
      DeltasStep(config, weights, v0, t, targetOutputs, trainingSampleIndex, n);
      BiasDeltasStep(config, weights, t, targetOutputs, trainingSampleIndex, n);
      VelocitiesStep(config, weights, v0, t, targetOutputs, trainingSampleIndex, n);
      var deltas, layerErrors, layerBiasDeltas := LayerBackward(t, nextLayerErrors, i);
      weightDeltas' := weightDeltas[i := deltas];
      biasDeltas' := if i > 0 then biasDeltas[i - 1 := layerBiasDeltas] else biasDeltas;
      errors' := errors + [layerErrors];
    }

    /** `trainSample(inputs, targetOutputs)`: forward pass, length check, backward pass. */
    method TrainSample(inputs: seq<real>, targetOutputs: seq<real>) returns (r: Result<TrainResult, TrainError>)
      requires Valid() && |inputs| >= config.layerNodeCounts[0]
      modifies this`velocities, this`activationDerivatives
      ensures Valid()
      ensures match SampleOutcome(config, weights, biases, old(velocities), trainingSampleIndex, inputs, targetOutputs)
        case Failure(e) => r == Failure(e) && velocities == old(velocities) && activationDerivatives == map[]
        case Success(s) => r == Success(s.result) && velocities == s.velocities
    {
      TrainInit();
      var t := PropagateForward(inputs);
      var finalLayerOutputs := t.outputs[layerCount - 1];
      if |targetOutputs| != |finalLayerOutputs| {
        return Failure(OutputLengthMismatch(|targetOutputs|, |finalLayerOutputs|));
      }
      var weightDeltas, biasDeltas := BackPropagate(t, targetOutputs);
      r := Success(TrainResult(finalLayerOutputs, weightDeltas, biasDeltas, config.loss(targetOutputs, finalLayerOutputs)));
    }

    /** `applyWeightDeltas`: each delta added to its weight, a hole adding 0. */
    method ApplyWeightDeltas(d: DeltaTensor)
      requires Valid() && Counted() && Fits(d, weights)
      modifies this`weights
      ensures Valid() && Counted()
      ensures weights == WeightsPlus(old(weights), d, Unscaled)
    {
      var w := AddWeights(weights, d, Unscaled);
      ReshapeKeeps(config.layerNodeCounts, weights, w, velocities);
      weights := w;
    }

    /** `applyWeightDeltasBatch`: each delta divided by `batchSize` and added to its weight. */
    method ApplyWeightDeltasBatch(d: DeltaTensor, batchSize: nat)
      requires Valid() && Counted() && Fits(d, weights) && (batchSize > 0 || |d| == 0)
      modifies this`weights
      ensures Valid() && Counted()
      ensures weights == WeightsPlus(old(weights), d, DividedBy(batchSize))
    {
      var w := AddWeights(weights, d, DividedBy(batchSize));
      ReshapeKeeps(config.layerNodeCounts, weights, w, velocities);
      weights := w;
    }

    /** `applyBiasDeltas`: `biases[i][j] += d[i][j]`. */
    method ApplyBiasDeltas(d: Biases)
      requires Valid() && FitsBiases(d, biases)
      modifies this`biases
      ensures Valid()
      ensures biases == BiasesPlus(old(biases), d, Unscaled)
    {
      biases := AddBiases(biases, d, Unscaled);
    }

    /** `applyBiasDeltasBatch`: `biases[i][j] += d[i][j] / batchSize`. */
    method ApplyBiasDeltasBatch(d: Biases, batchSize: nat)
      requires Valid() && FitsBiases(d, biases) && (batchSize > 0 || |d| == 0)
      modifies this`biases
      ensures Valid()
      ensures biases == BiasesPlus(old(biases), d, DividedBy(batchSize))
    {
      biases := AddBiases(biases, d, DividedBy(batchSize));
    }

    /** `train(inputs, targetOutputs)`: one sample, its deltas applied at once. A length
        mismatch throws before anything but the derivative cache is touched. */
    method Train(inputs: seq<real>, targetOutputs: seq<real>) returns (r: Result<TrainOutput, TrainError>)
      requires Valid() && Counted() && |inputs| >= config.layerNodeCounts[0]
      modifies this`weights, this`biases, this`velocities, this`activationDerivatives, this`trainingSampleIndex
      ensures Valid() && Counted()
      ensures match SampleOutcome(config, old(weights), old(biases), old(velocities), old(trainingSampleIndex), inputs, targetOutputs)
        case Failure(e) =>
          r == Failure(e) && weights == old(weights) && biases == old(biases) &&
          velocities == old(velocities) && trainingSampleIndex == old(trainingSampleIndex)
        case Success(s) =>
          r == Success(TrainOutput(s.result.outputs, s.result.loss)) &&
          weights == WeightsPlus(old(weights), s.result.weightDeltas, Unscaled) &&
          biases == BiasesPlus(old(biases), s.result.biasDeltas, Unscaled) &&
          velocities == s.velocities && trainingSampleIndex == old(trainingSampleIndex) + 1
      ensures biases[|biases| - 1] == old(biases)[|biases| - 1]
    {
      ghost var outcome := SampleOutcome(config, weights, biases, velocities, trainingSampleIndex, inputs, targetOutputs);
      OutputBiasesUntouched(config, weights, biases, velocities, trainingSampleIndex, inputs, targetOutputs, Unscaled);
      var sample := TrainSample(inputs, targetOutputs);
      if sample.Failure? {
        r := Failure(sample.error);
        return;
      }
      SampleFits(config, weights, biases, outcome.value);
      ApplySample(sample.value);
      r := Success(TrainOutput(sample.value.outputs, sample.value.loss));
    }

    /** The end of `train`: the sample's deltas applied and the sample counted. */
    method ApplySample(sample: TrainResult)
      requires Valid() && Counted() && Fits(sample.weightDeltas, weights) && FitsBiases(sample.biasDeltas, biases)
      modifies this`weights, this`biases, this`trainingSampleIndex
      ensures Valid() && Counted()
      ensures weights == WeightsPlus(old(weights), sample.weightDeltas, Unscaled)
      ensures biases == BiasesPlus(old(biases), sample.biasDeltas, Unscaled)
      ensures trainingSampleIndex == old(trainingSampleIndex) + 1
    {
      ApplyWeightDeltas(sample.weightDeltas);
      ApplyBiasDeltas(sample.biasDeltas);
      trainingSampleIndex := trainingSampleIndex + 1;
    }

    /** One round of `trainBatch`'s loop: sample h trained against the current weights,
        its loss, outputs and deltas added to the running totals. */
    method BatchRound(list: seq<(seq<real>, seq<real>)>, h: nat,
                      totalWeightDeltas: DeltaTensor, totalBiasDeltas: Biases,
                      totalLoss: real, outputsList: seq<seq<real>>)
      returns (totalWeightDeltas': DeltaTensor, totalBiasDeltas': Biases,
               totalLoss': real, outputsList': seq<seq<real>>, error: Option<TrainError>)
      requires Valid() && InputsFit(config, list) && h < |list|
      requires h > 0 ==> SameShape(totalWeightDeltas, weights) && BiasDeltaShape(config, totalBiasDeltas)
      modifies this`velocities, this`activationDerivatives
      ensures Valid()
      ensures BatchFrom(config, weights, biases, trainingSampleIndex, list,
                        BatchAcc(totalWeightDeltas, totalBiasDeltas, old(velocities), totalLoss, outputsList, None), h) ==
        BatchFrom(config, weights, biases, trainingSampleIndex, list,
                  BatchAcc(totalWeightDeltas', totalBiasDeltas', velocities, totalLoss', outputsList', error), h + 1)
      ensures error.None? ==> SameShape(totalWeightDeltas', weights) && BiasDeltaShape(config, totalBiasDeltas')
    {
      ghost var acc := BatchAcc(totalWeightDeltas, totalBiasDeltas, velocities, totalLoss, outputsList, None);
      ghost var o := SampleOutcome(config, weights, biases, velocities, trainingSampleIndex, list[h].0, list[h].1);
      var sample := TrainSample(list[h].0, list[h].1);
      totalWeightDeltas', totalBiasDeltas', totalLoss', outputsList', error :=
        AbsorbSample(config, weights, h, o, acc.velocities, velocities,
                     totalWeightDeltas, totalBiasDeltas, totalLoss, outputsList, sample);
      BatchFromStep(config, weights, biases, trainingSampleIndex, list, acc, h,
                    BatchAcc(totalWeightDeltas', totalBiasDeltas', velocities, totalLoss', outputsList', error));
    }

    /** `trainBatch(trainingList)`: every sample trained against the same weights, their deltas
        summed and applied divided by the batch size. A sample that throws ends the batch with
        the weights and biases unchanged, but the velocities of the samples before it kept. */
    method TrainBatch(list: seq<(seq<real>, seq<real>)>) returns (r: Result<BatchOutput, TrainError>)
      requires Valid() && Counted() && InputsFit(config, list)
      modifies this`weights, this`biases, this`velocities, this`activationDerivatives, this`trainingSampleIndex
      ensures Valid() && Counted()
      ensures var acc := BatchFrom(config, old(weights), old(biases), old(trainingSampleIndex), list, BatchStart(old(velocities)), 0);
        match acc.error
        case Some(e) =>
          r == Failure(e) && weights == old(weights) && biases == old(biases) &&
          velocities == acc.velocities && trainingSampleIndex == old(trainingSampleIndex)
        case None =>
          r == Success(BatchOutput(acc.outputsList, MeanLoss(acc.totalLoss, |list|))) &&
          weights == WeightsPlus(old(weights), acc.weightDeltas, DividedBy(|list|)) &&
          biases == BiasesPlus(old(biases), acc.biasDeltas, DividedBy(|list|)) &&
          velocities == acc.velocities && trainingSampleIndex == old(trainingSampleIndex) + |list|
      ensures biases[|biases| - 1] == old(biases)[|biases| - 1]
    {
      BatchOutputBiasesUntouched(config, weights, biases, velocities, trainingSampleIndex, list, DividedBy(|list|));
      var totalWeightDeltas, totalBiasDeltas, totalLoss, outputsList, error := CollectBatch(list);
      if error.Some? {
        return Failure(error.value);
      }
      if |list| > 0 {
        SameShapeFits(totalWeightDeltas, weights, weights);
      }
      ApplyBatch(totalWeightDeltas, totalBiasDeltas, |list|);
      r := Success(BatchOutput(outputsList, MeanLoss(totalLoss, |list|)));
    }

    /** The end of `trainBatch`: the summed deltas applied divided by the batch size, and the
        samples counted. */
    method ApplyBatch(weightDeltas: DeltaTensor, biasDeltas: Biases, batchSize: nat)
      requires Valid() && Counted() && Fits(weightDeltas, weights) && FitsBiases(biasDeltas, biases)
      requires batchSize > 0 || (weightDeltas == [] && biasDeltas == [])
      modifies this`weights, this`biases, this`trainingSampleIndex
      ensures Valid() && Counted()
      ensures weights == WeightsPlus(old(weights), weightDeltas, DividedBy(batchSize))
      ensures biases == BiasesPlus(old(biases), biasDeltas, DividedBy(batchSize))
      ensures trainingSampleIndex == old(trainingSampleIndex) + batchSize
    {
      ApplyWeightDeltasBatch(weightDeltas, batchSize);
      ApplyBiasDeltasBatch(biasDeltas, batchSize);
      trainingSampleIndex := trainingSampleIndex + batchSize;
    }

    /** The sample loop of `trainBatch`, up to the first sample that throws. */
    method CollectBatch(list: seq<(seq<real>, seq<real>)>)
      returns (totalWeightDeltas: DeltaTensor, totalBiasDeltas: Biases,
               totalLoss: real, outputsList: seq<seq<real>>, error: Option<TrainError>)
      requires Valid() && InputsFit(config, list)
      modifies this`velocities, this`activationDerivatives
      ensures Valid()
      ensures BatchFrom(config, weights, biases, trainingSampleIndex, list, BatchStart(old(velocities)), 0) ==
        BatchAcc(totalWeightDeltas, totalBiasDeltas, velocities, totalLoss, outputsList, error)
      ensures error.None? && |list| > 0 ==> SameShape(totalWeightDeltas, weights) && BiasDeltaShape(config, totalBiasDeltas)
      ensures |list| == 0 ==> totalWeightDeltas == [] && totalBiasDeltas == []
    {
      outputsList, totalWeightDeltas, totalBiasDeltas, totalLoss, error := [], [], [], 0.0, None;
      ghost var final := BatchFrom(config, weights, biases, trainingSampleIndex, list, BatchStart(velocities), 0);
      for h := 0 to |list|
        invariant Valid() && error.None?
        invariant h > 0 ==> SameShape(totalWeightDeltas, weights) && BiasDeltaShape(config, totalBiasDeltas)
        invariant h == 0 ==> totalWeightDeltas == [] && totalBiasDeltas == []
        invariant BatchFrom(config, weights, biases, trainingSampleIndex, list,
                            BatchAcc(totalWeightDeltas, totalBiasDeltas, velocities, totalLoss, outputsList, None), h) == final
      {
        totalWeightDeltas, totalBiasDeltas, totalLoss, outputsList, error :=
          BatchRound(list, h, totalWeightDeltas, totalBiasDeltas, totalLoss, outputsList);
        if error.Some? {
          return;
        }
      }
    }

    /** `getWeights`: a copy of the weights; a sequence is a value, so later training leaves it as it is. */
    function GetWeights(): (w: Tensor)
      requires Valid() && Counted()
      reads this`weights, this`biases, this`velocities
      ensures WeightShape(config.layerNodeCounts, w) && TotalCount(w) == weightCount
      ensures SameShape(w, weights) && forall i, j, k :: 0 <= i < |w| && 0 <= j < |w[i]| && 0 <= k < |w[i][j]| ==> w[i][j][k] == weights[i][j][k]
    {
      weights
    }

    /** `getBiases`: a copy of the biases. */
    function GetBiases(): (b: Biases)
      requires Valid()
      reads this`weights, this`biases, this`velocities
      ensures BiasShape(config.layerNodeCounts, b)
      ensures forall i, j :: 0 <= i < |b| && 0 <= j < |b[i]| ==> b[i][j] == biases[i][j]
    {
      biases
    }
  }

  // ---------------------------------------------------------------- lemmas

  /** A sample's deltas fit the parameters they are applied to. */
  lemma SampleFits(cfg: Config, w: Tensor, b: Biases, s: SampleStep)
    requires SampleShapes(w, cfg, s) && BiasShape(cfg.layerNodeCounts, b) && |cfg.layerNodeCounts| >= 2
    ensures Fits(s.result.weightDeltas, w) && FitsBiases(s.result.biasDeltas, b)
  {
  }

  /** The weight deltas of `trainSample` once layers n.. have been done (the others still empty). */
  function DeltasAfter(cfg: Config, w: Tensor, v: Tensor, t: Trace, targets: seq<real>, index: nat, n: nat): DeltaTensor
    requires WeightShape(cfg.layerNodeCounts, w) && SameShape(v, w) && FullTrace(cfg, t)
  {
    seq(|w|, a requires 0 <= a < |w| =>
      if a < n then [] else LayerWeightDeltas(cfg, w, v[a], t, index, a, ErrorsAbove(cfg, w, t, targets, a)))
  }

  /** The bias deltas once layers n.. have been done. */
  function BiasDeltasAfter(cfg: Config, w: Tensor, t: Trace, targets: seq<real>, index: nat, n: nat): Biases
    requires WeightShape(cfg.layerNodeCounts, w) && FullTrace(cfg, t)
  {
    seq(|w| - 1, a requires 0 <= a < |w| - 1 =>
      if a + 1 < n then [] else LayerBiasDeltas(cfg, w, t, index, a + 1, ErrorsAbove(cfg, w, t, targets, a + 1)))
  }

  /** The velocities once layers n.. have been done. */
  function VelocitiesAfter(cfg: Config, w: Tensor, v: Tensor, t: Trace, targets: seq<real>, index: nat, n: nat): Tensor
    requires WeightShape(cfg.layerNodeCounts, w) && SameShape(v, w) && FullTrace(cfg, t)
  {
    seq(|w|, a requires 0 <= a < |w| =>
      if a < n then v[a] else LayerVelocities(cfg, w, v[a], t, index, a, ErrorsAbove(cfg, w, t, targets, a)))
  }

  /** `errors` of `trainSample` once the layers from n up have been done: the output layer's
      error vector first, then one per layer done, in the order they were pushed. */
  function ErrorStack(cfg: Config, w: Tensor, t: Trace, targets: seq<real>, n: nat): (r: seq<seq<real>>)
    requires WeightShape(cfg.layerNodeCounts, w) && FullTrace(cfg, t) && n < |cfg.layerNodeCounts|
    ensures |r| == |cfg.layerNodeCounts| - n
  {
    seq(|cfg.layerNodeCounts| - n, e requires 0 <= e < |cfg.layerNodeCounts| - n =>
      Errors(cfg, w, t, targets, |cfg.layerNodeCounts| - 1 - e))
  }

  /** The top of the stack is the error vector of layer n; doing layer n - 1 pushes its own. */
  lemma ErrorStackStep(cfg: Config, w: Tensor, t: Trace, targets: seq<real>, n: nat)
    requires WeightShape(cfg.layerNodeCounts, w) && FullTrace(cfg, t) && 0 < n < |cfg.layerNodeCounts|
    ensures var top := ErrorStack(cfg, w, t, targets, n)[|cfg.layerNodeCounts| - n - 1];
      top == Errors(cfg, w, t, targets, n) &&
      ErrorStack(cfg, w, t, targets, n - 1) == ErrorStack(cfg, w, t, targets, n) + [LayerErrors(cfg, w, t, n - 1, top)]
  {
    var before, after := ErrorStack(cfg, w, t, targets, n), ErrorStack(cfg, w, t, targets, n - 1);
    assert before[|before| - 1] == Errors(cfg, w, t, targets, n);
    assert after[|before|] == Errors(cfg, w, t, targets, n - 1);
    assert Errors(cfg, w, t, targets, n - 1) == LayerErrors(cfg, w, t, n - 1, Errors(cfg, w, t, targets, n));
    assert after == before + [after[|before|]];
  }

  lemma BackwardStart(cfg: Config, w: Tensor, v: Tensor, t: Trace, targets: seq<real>, index: nat)
    requires WeightShape(cfg.layerNodeCounts, w) && SameShape(v, w) && FullTrace(cfg, t)
    ensures DeltasAfter(cfg, w, v, t, targets, index, |w|) == seq(|w|, _ => [])
    ensures BiasDeltasAfter(cfg, w, t, targets, index, |w|) == seq(|w| - 1, _ => [])
    ensures VelocitiesAfter(cfg, w, v, t, targets, index, |w|) == v
    ensures ErrorStack(cfg, w, t, targets, |w|) == [OutputErrors(cfg, t, targets)]
  {
    assert ErrorStack(cfg, w, t, targets, |w|)[0] == Errors(cfg, w, t, targets, |w|);
  }

  /** Doing layer n - 1 sets its own weight deltas and nothing else. */
  lemma DeltasStep(cfg: Config, w: Tensor, v: Tensor, t: Trace, targets: seq<real>, index: nat, n: nat)
    requires WeightShape(cfg.layerNodeCounts, w) && SameShape(v, w) && FullTrace(cfg, t)
    requires 0 < n <= |w|
    ensures DeltasAfter(cfg, w, v, t, targets, index, n - 1) ==
      DeltasAfter(cfg, w, v, t, targets, index, n)[n - 1 := LayerWeightDeltas(cfg, w, v[n - 1], t, index, n - 1, ErrorsAbove(cfg, w, t, targets, n - 1))]
  {
  }

  /** ... its own bias deltas, for a hidden layer, and nothing else. */
  lemma BiasDeltasStep(cfg: Config, w: Tensor, t: Trace, targets: seq<real>, index: nat, n: nat)
    requires WeightShape(cfg.layerNodeCounts, w) && FullTrace(cfg, t)
    requires 0 < n <= |w|
    ensures BiasDeltasAfter(cfg, w, t, targets, index, n - 1) ==
      if n - 1 > 0 then BiasDeltasAfter(cfg, w, t, targets, index, n)[n - 2 := LayerBiasDeltas(cfg, w, t, index, n - 1, ErrorsAbove(cfg, w, t, targets, n - 1))]
      else BiasDeltasAfter(cfg, w, t, targets, index, n)
  {
  }

  /** ... and its own velocities, which were still the starting ones. */
  lemma VelocitiesStep(cfg: Config, w: Tensor, v: Tensor, t: Trace, targets: seq<real>, index: nat, n: nat)
    requires WeightShape(cfg.layerNodeCounts, w) && SameShape(v, w) && FullTrace(cfg, t)
    requires 0 < n <= |w|
    ensures VelocitiesAfter(cfg, w, v, t, targets, index, n)[n - 1] == v[n - 1]
    ensures VelocitiesAfter(cfg, w, v, t, targets, index, n - 1) ==
      VelocitiesAfter(cfg, w, v, t, targets, index, n)[n - 1 := LayerVelocities(cfg, w, v[n - 1], t, index, n - 1, ErrorsAbove(cfg, w, t, targets, n - 1))]
  {
  }

  /** With every layer done, the loop has computed the whole-network functions. */
  lemma BackwardEnd(cfg: Config, w: Tensor, v: Tensor, t: Trace, targets: seq<real>, index: nat)
    requires WeightShape(cfg.layerNodeCounts, w) && SameShape(v, w) && FullTrace(cfg, t)
    ensures DeltasAfter(cfg, w, v, t, targets, index, 0) == WeightDeltas(cfg, w, v, t, targets, index)
    ensures BiasDeltasAfter(cfg, w, t, targets, index, 0) == BiasDeltas(cfg, w, t, targets, index)
    ensures VelocitiesAfter(cfg, w, v, t, targets, index, 0) == NewVelocities(cfg, w, v, t, targets, index)
  {
  }

  /** The constructed shapes: one layer per transition, `counts[i]` rows in layer i, no row
      longer than the next layer. */
  lemma InitWeightsShape(counts: seq<nat>, init: WeightInitFn)
    requires |counts| >= 2
    ensures WeightShape(counts, InitWeights(counts, init))
  {
    var w := InitWeights(counts, init);
    forall i, j | 0 <= i < |w| && 0 <= j < |w[i]| ensures |w[i][j]| <= counts[i + 1] {
      assert w[i][j] == Somes(InitCalls(init, i, j, counts[i + 1]));
    }
  }

  /** A weight value is stored for node (i, j) exactly when some destination's init returned it. */
  lemma InitRowMembers(init: WeightInitFn, i: nat, j: nat, n: nat, x: real)
    ensures x in InitRow(init, i, j, n) <==> exists k :: 0 <= k < n && init(i, j, k) == Some(x)
  {
    SomesMembers(InitCalls(init, i, j, n), x);
    if exists k :: 0 <= k < n && init(i, j, k) == Some(x) {
      var k :| 0 <= k < n && init(i, j, k) == Some(x);
      assert InitCalls(init, i, j, n)[k] == Some(x);
    }
  }

  /** The default bias init gives every node a bias of 0. */
  lemma ZeroBiasInitGivesZeros(counts: seq<nat>)
    requires |counts| >= 2
    ensures forall i, j :: 0 <= i < |counts| - 1 && 0 <= j < counts[i + 1] ==> InitBiases(counts, ZeroBiasInit)[i][j] == 0.0
  {
    var b := InitBiases(counts, ZeroBiasInit);
    forall i, j | 0 <= i < |counts| - 1 && 0 <= j < counts[i + 1] ensures b[i][j] == 0.0 {
      assert b[i] == BiasRow(ZeroBiasInit, i, counts[i + 1]);
    }
  }

  /** The destinations of node (i, j) below n whose init is not null. */
  function NonNullInits(init: WeightInitFn, i: nat, j: nat, n: nat): set<nat> {
    set k: nat | k < n && init(i, j, k).Some?
  }

  /** Node (i, j) stores one weight per destination whose init is not null. */
  lemma {:induction false} InitRowLength(init: WeightInitFn, i: nat, j: nat, n: nat)
    ensures |InitRow(init, i, j, n)| == |NonNullInits(init, i, j, n)|
  {
    if n == 0 {
      assert NonNullInits(init, i, j, 0) == {};
    } else {
      InitRowLength(init, i, j, n - 1);
      var calls := InitCalls(init, i, j, n);
      assert calls[..n - 1] == InitCalls(init, i, j, n - 1);
      assert calls[n - 1] == init(i, j, n - 1);
      NonNullInitsStep(init, i, j, n);
    }
  }

  lemma NonNullInitsStep(init: WeightInitFn, i: nat, j: nat, n: nat)
    requires n > 0
    ensures n - 1 !in NonNullInits(init, i, j, n - 1)
    ensures NonNullInits(init, i, j, n) ==
      NonNullInits(init, i, j, n - 1) + if init(i, j, n - 1).Some? then {n - 1} else {}
  {
  }

  /** An init that never returns null gives full rows with each value at its own k. */
  lemma InitRowDense(init: WeightInitFn, i: nat, j: nat, n: nat)
    requires forall k :: 0 <= k < n ==> init(i, j, k).Some?
    ensures |InitRow(init, i, j, n)| == n
    ensures forall k :: 0 <= k < n ==> InitRow(init, i, j, n)[k] == init(i, j, k).value
  {
    SomesDense(InitCalls(init, i, j, n));
  }

  /** The stored weight count never exceeds `maxWeightCount`. */
  lemma InitWeightCountBound(counts: seq<nat>, init: WeightInitFn)
    requires |counts| >= 2
    ensures TotalCount(InitWeights(counts, init)) <= MaxWeightsUpTo(counts, |counts|)
  {
    InitWeightsShape(counts, init);
    TotalCountBound(counts, InitWeights(counts, init));
  }
}
