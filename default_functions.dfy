/**
 * The network's hyperparameters, the call signatures of its pluggable functions,
 * and the default implementations that are plain arithmetic (the static
 * functions of the `ANN` class). The statics read `this.maxSafeOutputSize`,
 * `this.activationLeakFactor`, `this.weightDecayFactor` and `this.momentum`;
 * here those values arrive explicitly as a `Hyper` record.
 */
module DefaultFunctions {
  import opened Wrappers
  import opened Tensors

  datatype Hyper = Hyper(
    learningRate: real,
    weightDecayFactor: real,
    activationLeakFactor: real,
    momentum: real,
    maxSafeOutputSize: real)

  /** What the backward pass hands to the learning-rate, weight-delta and bias-delta
      functions for source node j of layer i. */
  datatype NodeContext = NodeContext(
    learningRate: real,
    layerInputs: seq<seq<real>>,
    layerOutputs: seq<seq<real>>,
    nextLayerErrors: seq<real>,
    i: nat,
    j: nat)

  /** `activationFunction(input)` */
  type ActivationFn = (Hyper, real) -> real
  /** `activationDerivativeFunction({currentLayerInputs, currentLayerOutputs, j})` */
  type ActivationDerivativeFn = (Hyper, seq<real>, seq<real>, nat) -> real
  /** `lossFunction({targetOutputs, outputs})` */
  type LossFn = (seq<real>, seq<real>) -> real
  /** `lossDerivativeFunction({targetOutputs, currentLayerInputs, currentLayerOutputs, j})` */
  type LossDerivativeFn = (seq<real>, seq<real>, seq<real>, nat) -> real
  /** A weight-delta function that changes no state: context, destination k, current weight. */
  type WeightDeltaFn = (Hyper, NodeContext, nat, real) -> real
  /** `biasDeltaFunction({..., currentNodeError, ...})` */
  type BiasDeltaFn = (NodeContext, real) -> real
  /** `learningRateFunction({learningRate, trainingSampleIndex, i, j})` */
  type LearningRateFn = (real, nat, nat, nat) -> real
  /** `weightInitFunction({i, j, k})`; `None` is a null result. */
  type WeightInitFn = (nat, nat, nat) -> Option<real>
  /** `biasInitFunction({i, j})` */
  type BiasInitFn = (nat, nat) -> real

  const DefaultLearningRate: real := 0.0001
  const DefaultMaxSafeOutputSize: real := 34359738368.0  // 2 ** 35
  const DefaultWeightDecayFactor: real := 0.000001
  const DefaultActivationLeakFactor: real := 0.01
  const DefaultMomentum: real := 0.9

  /** `if (v == null) v = d`: only an absent value is replaced. */
  function NullOr(v: Option<real>, d: real): (r: real)
    ensures v.None? ==> r == d
    ensures v.Some? ==> r == v.value
    ensures v == Some(0.0) ==> r == 0.0 && (d != 0.0 ==> r != FalsyOr(v, d))
  {
    match v
    case None => d
    case Some(x) => x
  }

  /** `v || d`: an absent value and also an explicit 0 are replaced. */
  function FalsyOr(v: Option<real>, d: real): (r: real)
    ensures d != 0.0 ==> r != 0.0
    ensures v.Some? && v.value != 0.0 ==> r == v.value
    ensures v.None? || v.value == 0.0 ==> r == d
  {
    match v
    case Some(x) => if x != 0.0 then x else d
    case None => d
  }

  function Min(a: real, b: real): real { if a <= b then a else b }
  function Max(a: real, b: real): real { if a >= b then a else b }

  /** `Math.min(Math.max(input, 0), maxSafeOutputSize)` */
  function ReluActivation(h: Hyper, input: real): (r: real)
    ensures r <= h.maxSafeOutputSize
    ensures 0.0 <= h.maxSafeOutputSize ==> 0.0 <= r
    ensures 0.0 <= input <= h.maxSafeOutputSize ==> r == input
    ensures input <= 0.0 <= h.maxSafeOutputSize ==> r == 0.0
    ensures h.maxSafeOutputSize <= input ==> r == h.maxSafeOutputSize
  {
    Min(Max(input, 0.0), h.maxSafeOutputSize)
  }

  /** 1 for a positive input, else 0 (an index past the inputs reads `undefined`, which is not positive). */
  function ReluDerivative(h: Hyper, inputs: seq<real>, outputs: seq<real>, j: nat): (r: real)
    ensures r == 1.0 <==> j < |inputs| && inputs[j] > 0.0
    ensures r == 0.0 <==> !(j < |inputs| && inputs[j] > 0.0)
  {
    if j < |inputs| && inputs[j] > 0.0 then 1.0 else 0.0
  }

  /** `Math.min(Math.max(input, input * activationLeakFactor), maxSafeOutputSize)` */
  function LeakyReluActivation(h: Hyper, input: real): (r: real)
    ensures r <= h.maxSafeOutputSize
    ensures h.maxSafeOutputSize <= input ==> r == h.maxSafeOutputSize
    ensures 0.0 <= input <= h.maxSafeOutputSize && h.activationLeakFactor <= 1.0 ==> r == input
    ensures input <= 0.0 <= h.maxSafeOutputSize && 0.0 <= h.activationLeakFactor <= 1.0 ==>
      r == input * h.activationLeakFactor
  {
    var leaked := input * h.activationLeakFactor;
    assert 0.0 <= input && h.activationLeakFactor <= 1.0 ==> leaked <= input by {
      if 0.0 <= input && h.activationLeakFactor <= 1.0 {
        MulNonNegative(input, 1.0 - h.activationLeakFactor);
      }
    }
    assert input <= 0.0 && h.activationLeakFactor <= 1.0 ==> input <= leaked by {
      if input <= 0.0 && h.activationLeakFactor <= 1.0 {
        MulNonNegative(-input, 1.0 - h.activationLeakFactor);
      }
    }
    assert input <= 0.0 && 0.0 <= h.activationLeakFactor ==> leaked <= 0.0 by {
      if input <= 0.0 && 0.0 <= h.activationLeakFactor {
        MulNonNegative(-input, h.activationLeakFactor);
      }
    }
    Min(Max(input, leaked), h.maxSafeOutputSize)
  }

  lemma MulNonNegative(a: real, b: real)
    requires 0.0 <= a && 0.0 <= b
    ensures 0.0 <= a * b
  {
  }

  /** 1 for a positive input, else the leak factor. */
  function LeakyReluDerivative(h: Hyper, inputs: seq<real>, outputs: seq<real>, j: nat): (r: real)
    ensures j < |inputs| && inputs[j] > 0.0 ==> r == 1.0
    ensures !(j < |inputs| && inputs[j] > 0.0) ==> r == h.activationLeakFactor
  {
    if j < |inputs| && inputs[j] > 0.0 then 1.0 else h.activationLeakFactor
  }

  function Square(x: real): (r: real)
    ensures r >= 0.0
  {
    x * x
  }

  /** `sum over i < n of (targetOutputs[i] - (outputs[i] || 0)) ** 2` */
  function SquaredErrorSum(targets: seq<real>, outputs: seq<real>, n: nat): (r: real)
    requires n <= |targets|
    ensures r >= 0.0
  {
    if n == 0 then 0.0
    else SquaredErrorSum(targets, outputs, n - 1) + Square(targets[n - 1] - Or0(outputs, n - 1))
  }

  /** `meanSquaredLossFunction`; for an empty target vector JavaScript divides 0 by 0. */
  function MeanSquaredLoss(targets: seq<real>, outputs: seq<real>): (r: real)
    ensures r >= 0.0
  {
    if |targets| == 0 then 0.0
    else SquaredErrorSum(targets, outputs, |targets|) / (|targets| as real)
  }

  /** `2 * (targetOutputs[j] - currentLayerOutputs[j])` */
  function SquaredLossDerivative(targets: seq<real>, inputs: seq<real>, outputs: seq<real>, j: nat): (r: real)
    ensures j < |targets| && j < |outputs| ==> (r == 0.0 <==> targets[j] == outputs[j])
    ensures j < |targets| && j < |outputs| ==> (r > 0.0 <==> targets[j] > outputs[j])
  {
    if j < |targets| && j < |outputs| then 2.0 * (targets[j] - outputs[j]) else 0.0
  }

  /** `nextLayerErrors[k] * layerOutputs[i][j]` */
  function Gradient(ctx: NodeContext, k: nat): real {
    Or0(ctx.nextLayerErrors, k) * (if ctx.i < |ctx.layerOutputs| then Or0(ctx.layerOutputs[ctx.i], ctx.j) else 0.0)
  }

  /** `learningRate * (gradient - weightDecayFactor * weight)` */
  function DecayedStep(h: Hyper, learningRate: real, gradient: real, weight: real): real {
    learningRate * (gradient - h.weightDecayFactor * weight)
  }

  /** `simpleWeightDeltaFunction` */
  function SimpleWeightDelta(h: Hyper, ctx: NodeContext, k: nat, weight: real): real {
    DecayedStep(h, ctx.learningRate, Gradient(ctx, k), weight)
  }

  /** The new velocity `velocityWeightDeltaFunction` stores and returns. */
  function VelocityValue(h: Hyper, learningRate: real, gradient: real, weight: real, velocity: real): (r: real)
    ensures velocity == 0.0 || h.momentum == 0.0 ==> r == DecayedStep(h, learningRate, gradient, weight)
    ensures r - DecayedStep(h, learningRate, gradient, weight) == h.momentum * velocity
  {
    DecayedStep(h, learningRate, gradient, weight) + h.momentum * velocity
  }

  /** `simpleBiasDeltaFunction` */
  function SimpleBiasDelta(ctx: NodeContext, currentNodeError: real): real {
    ctx.learningRate * currentNodeError
  }

  /** `simpleLearningRateFunction` */
  function SimpleLearningRate(learningRate: real, trainingSampleIndex: nat, i: nat, j: nat): real {
    learningRate
  }

  /** `zeroBiasInitFunction` */
  function ZeroBiasInit(i: nat, j: nat): real {
    0.0
  }

  // ---------------------------------------------------------------- lemmas

  /** The simple weight delta is the velocity rule's delta taken from rest. */
  lemma SimpleWeightDeltaFromRest(h: Hyper, ctx: NodeContext, k: nat, weight: real)
    ensures SimpleWeightDelta(h, ctx, k, weight) == VelocityValue(h, ctx.learningRate, Gradient(ctx, k), weight, 0.0)
  {
  }

  /** The simple learning rate ignores the sample index and the node. */
  lemma SimpleLearningRateConstant(learningRate: real, s1: nat, i1: nat, j1: nat, s2: nat, i2: nat, j2: nat)
    ensures SimpleLearningRate(learningRate, s1, i1, j1) == SimpleLearningRate(learningRate, s2, i2, j2) == learningRate
  {
  }

  /** ReLU's derivative is its slope on each side of 0, below the clamp. */
  lemma ReluSlope(h: Hyper, x: real, y: real)
    requires 0.0 <= h.maxSafeOutputSize
    requires (0.0 < x <= h.maxSafeOutputSize && 0.0 < y <= h.maxSafeOutputSize) || (x <= 0.0 && y <= 0.0)
    ensures ReluActivation(h, y) - ReluActivation(h, x) == ReluDerivative(h, [x], [], 0) * (y - x)
  {
  }

  /** Leaky ReLU's derivative is its slope on each side of 0, below the clamp. */
  lemma LeakyReluSlope(h: Hyper, x: real, y: real)
    requires 0.0 <= h.maxSafeOutputSize && 0.0 <= h.activationLeakFactor <= 1.0
    requires (0.0 < x <= h.maxSafeOutputSize && 0.0 < y <= h.maxSafeOutputSize) || (x <= 0.0 && y <= 0.0)
    ensures LeakyReluActivation(h, y) - LeakyReluActivation(h, x) == LeakyReluDerivative(h, [x], [], 0) * (y - x)
  {
    if x <= 0.0 {
      assert y * h.activationLeakFactor - x * h.activationLeakFactor == h.activationLeakFactor * (y - x);
    }
  }

  /** The loss derivative is minus the slope of the squared error in the output:
      `(t - (o + e))^2 = (t - o)^2 - e * d + e^2` with `d = 2 (t - o)`. */
  lemma SquaredLossDerivativeIsSlope(t: real, o: real, e: real)
    ensures Square(t - (o + e)) == Square(t - o) - e * SquaredLossDerivative([t], [], [o], 0) + e * e
  {
    assert (t - (o + e)) * (t - (o + e)) == (t - o) * (t - o) - 2.0 * e * (t - o) + e * e;
  }

  lemma {:induction false} SquaredErrorSumZero(targets: seq<real>, outputs: seq<real>, n: nat)
    requires n <= |targets|
    requires forall i :: 0 <= i < n ==> Or0(outputs, i) == targets[i]
    ensures SquaredErrorSum(targets, outputs, n) == 0.0
  {
    if n > 0 {
      SquaredErrorSumZero(targets, outputs, n - 1);
    }
  }

  /** The loss is 0 when every output equals its target. */
  lemma MeanSquaredLossAtTarget(targets: seq<real>, outputs: seq<real>)
    requires |outputs| >= |targets|
    requires forall i :: 0 <= i < |targets| ==> outputs[i] == targets[i]
    ensures MeanSquaredLoss(targets, outputs) == 0.0
  {
    SquaredErrorSumZero(targets, outputs, |targets|);
  }

  /** With momentum, two equal non-zero steps from rest give a second delta of larger magnitude. */
  lemma MomentumAccumulates(h: Hyper, learningRate: real, gradient: real, weight: real)
    requires h.momentum > 0.0 && DecayedStep(h, learningRate, gradient, weight) != 0.0
    ensures var first := VelocityValue(h, learningRate, gradient, weight, 0.0);
      var second := VelocityValue(h, learningRate, gradient, weight, first);
      first == DecayedStep(h, learningRate, gradient, weight) &&
      (if second >= 0.0 then second else -second) > (if first >= 0.0 then first else -first)
  {
    var s := DecayedStep(h, learningRate, gradient, weight);
    assert VelocityValue(h, learningRate, gradient, weight, 0.0) == s;
    assert VelocityValue(h, learningRate, gradient, weight, s) == s + h.momentum * s;
    if s > 0.0 {
      assert h.momentum * s > 0.0;
    } else {
      assert h.momentum * s < 0.0;
    }
  }
}
