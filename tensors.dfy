/**
 * The nested arrays the network keeps its parameters in, and the element-wise
 * operations the appliers and the batch aggregator perform on them.
 *
 * Weights are indexed `[i][j][k]`: layer transition i, source node j, position k.
 * A weight row is compacted: it holds only the values the init function did not
 * return null for, so it may be shorter than the next layer; a position past its
 * end is a missing weight.
 */
module Tensors {
  import opened Wrappers

  type Row = seq<real>
  type Layer = seq<Row>
  type Tensor = seq<Layer>
  type Biases = seq<seq<real>>
  /** Weight deltas: `None` where the source leaves a hole in its delta array. */
  type DeltaTensor = seq<seq<seq<Option<real>>>>

  /** The JavaScript `s[k] || 0` on an array of numbers. */
  function Or0(s: seq<real>, k: nat): (r: real)
    ensures k >= |s| ==> r == 0.0
    ensures k < |s| ==> r == s[k]
  {
    if k < |s| then s[k] else 0.0
  }

  /** The JavaScript truthiness of `row[k]`: the slot exists and is not zero. */
  predicate Present(row: Row, k: nat): (b: bool)
    ensures b <==> Or0(row, k) != 0.0
  {
    k < |row| && row[k] != 0.0
  }

  /** The JavaScript `d || 0` on one entry of a delta array. */
  function DeltaValue(d: Option<real>): (r: real)
    ensures d.None? ==> r == 0.0
    ensures d.Some? ==> r == d.value
  {
    match d
    case Some(x) => x
    case None => 0.0
  }

  /** Shape fixed at construction: one layer per transition, `counts[i]` rows in layer i,
      rows no longer than the next layer. */
  predicate WeightShape(counts: seq<nat>, w: Tensor) {
    |counts| >= 2 && |w| == |counts| - 1 &&
    (forall i :: 0 <= i < |w| ==> |w[i]| == counts[i]) &&
    (forall i, j :: 0 <= i < |w| && 0 <= j < |w[i]| ==> |w[i][j]| <= counts[i + 1])
  }

  /** `biases[i]` belongs to layer i + 1. */
  predicate BiasShape(counts: seq<nat>, b: Biases) {
    |b| == |counts| - 1 && forall i :: 0 <= i < |b| ==> |b[i]| == counts[i + 1]
  }

  predicate SameShape<T, U>(a: seq<seq<seq<T>>>, b: seq<seq<seq<U>>>) {
    |a| == |b| &&
    (forall i :: 0 <= i < |a| ==> |a[i]| == |b[i]|) &&
    (forall i, j :: 0 <= i < |a| && 0 <= j < |a[i]| ==> |a[i][j]| == |b[i][j]|)
  }

  /** Every index the loops over `d` visit is an index of `w`. */
  predicate Fits<T, U>(d: seq<seq<seq<T>>>, w: seq<seq<seq<U>>>) {
    |d| <= |w| &&
    (forall i :: 0 <= i < |d| ==> |d[i]| <= |w[i]|) &&
    (forall i, j :: 0 <= i < |d| && 0 <= j < |d[i]| ==> |d[i][j]| <= |w[i][j]|)
  }

  predicate FitsBiases(d: Biases, b: Biases) {
    |d| <= |b| && forall i :: 0 <= i < |d| ==> |d[i]| <= |b[i]|
  }

  /** How a delta is added: as it is (`applyWeightDeltas`) or divided by the batch size
      (`applyWeightDeltasBatch`). */
  datatype Scale = Unscaled | DividedBy(batchSize: nat)

  predicate ScaleOk(s: Scale) {
    s.DividedBy? ==> s.batchSize > 0
  }

  function Contribution(d: Option<real>, s: Scale): real
    requires ScaleOk(s)
  {
    match s
    case Unscaled => DeltaValue(d)
    case DividedBy(n) => DeltaValue(d) / (n as real)
  }

  /** Deltas past the end of a row have nowhere to go and are left out; the appliers are only
      given deltas of the weights' own shape. */
  function RowPlus(row: Row, dr: seq<Option<real>>, s: Scale): (r: Row)
    requires ScaleOk(s) || |dr| == 0
    ensures |r| == |row|
  {
    seq(|row|, k requires 0 <= k < |row| =>
      if k < |dr| then row[k] + Contribution(dr[k], s) else row[k])
  }

  function LayerPlus(layer: Layer, dl: seq<seq<Option<real>>>, s: Scale): (r: Layer)
    requires ScaleOk(s) || |dl| == 0
    ensures |r| == |layer|
  {
    seq(|layer|, j requires 0 <= j < |layer| =>
      if j < |dl| then RowPlus(layer[j], dl[j], s) else layer[j])
  }

  /** The weights after every delta of `d` is added at its own index; a hole adds 0. */
  function WeightsPlus(w: Tensor, d: DeltaTensor, s: Scale): (r: Tensor)
    requires ScaleOk(s) || |d| == 0
    ensures SameShape(r, w)
    ensures forall i, j, k :: 0 <= i < |w| && 0 <= j < |w[i]| && 0 <= k < |w[i][j]| ==>
      r[i][j][k] == if i < |d| && j < |d[i]| && k < |d[i][j]| then w[i][j][k] + Contribution(d[i][j][k], s) else w[i][j][k]
  {
    seq(|w|, i requires 0 <= i < |w| =>
      if i < |d| then LayerPlus(w[i], d[i], s) else w[i])
  }

  function BiasRowPlus(row: seq<real>, dr: seq<real>, s: Scale): (r: seq<real>)
    requires ScaleOk(s) || |dr| == 0
    ensures |r| == |row|
  {
    seq(|row|, j requires 0 <= j < |row| => if j < |dr| then row[j] + Contribution(Some(dr[j]), s) else row[j])
  }

  /** The biases after every delta of `d` is added at its own index. Also the
      element-wise sum `trainBatch` forms of bias deltas (with `Unscaled`). */
  function BiasesPlus(b: Biases, d: Biases, s: Scale): (r: Biases)
    requires ScaleOk(s) || |d| == 0
    ensures |r| == |b| && forall i :: 0 <= i < |b| ==> |r[i]| == |b[i]|
    ensures forall i, j :: 0 <= i < |b| && 0 <= j < |b[i]| ==>
      r[i][j] == if i < |d| && j < |d[i]| then b[i][j] + Contribution(Some(d[i][j]), s) else b[i][j]
  {
    seq(|b|, i requires 0 <= i < |b| => if i < |d| then BiasRowPlus(b[i], d[i], s) else b[i])
  }

  /** `total += d || 0` on one entry: a hole in the running total stays a hole
      (JavaScript computes `undefined + x`, NaN, which the applier reads as 0). */
  function EntrySum(total: Option<real>, d: Option<real>): Option<real> {
    match total
    case None => None
    case Some(x) => Some(x + DeltaValue(d))
  }

  function RowSum(t: seq<Option<real>>, d: seq<Option<real>>): (r: seq<Option<real>>)
    ensures |r| == |t|
  {
    seq(|t|, k requires 0 <= k < |t| => if k < |d| then EntrySum(t[k], d[k]) else t[k])
  }

  function LayerSum(t: seq<seq<Option<real>>>, d: seq<seq<Option<real>>>): (r: seq<seq<Option<real>>>)
    ensures |r| == |t|
  {
    seq(|t|, j requires 0 <= j < |t| => if j < |d| then RowSum(t[j], d[j]) else t[j])
  }

  /** The element-wise sum `trainBatch` forms of two weight-delta tensors. */
  function DeltaSum(t: DeltaTensor, d: DeltaTensor): (r: DeltaTensor)
    ensures SameShape(r, t)
    ensures forall i, j, k :: 0 <= i < |t| && 0 <= j < |t[i]| && 0 <= k < |t[i][j]| ==>
      r[i][j][k] == if i < |d| && j < |d[i]| && k < |d[i][j]| then EntrySum(t[i][j][k], d[i][j][k]) else t[i][j][k]
  {
    seq(|t|, i requires 0 <= i < |t| => if i < |d| then LayerSum(t[i], d[i]) else t[i])
  }

  /** The non-null values of `s`, in order. */
  function Somes<T>(s: seq<Option<T>>): (r: seq<T>)
    ensures |r| <= |s|
  {
    if |s| == 0 then []
    else Somes(s[..|s| - 1]) + match s[|s| - 1] case Some(x) => [x] case None => []
  }

  function Zeros(n: nat): (r: Row)
    ensures |r| == n && forall k :: 0 <= k < n ==> r[k] == 0.0
  {
    seq(n, _ => 0.0)
  }

  /** Number of weights stored in one layer. */
  function LayerCount(layer: Layer): nat {
    if |layer| == 0 then 0 else LayerCount(layer[..|layer| - 1]) + |layer[|layer| - 1]|
  }

  /** Number of weights stored in the tensor. */
  function TotalCount(w: Tensor): nat {
    if |w| == 0 then 0 else TotalCount(w[..|w| - 1]) + LayerCount(w[|w| - 1])
  }

  /** `sum over 1 <= i < n of counts[i - 1] * counts[i]`: the constructor's first loop after n - 1 rounds. */
  function MaxWeightsUpTo(counts: seq<nat>, n: nat): nat
    requires n <= |counts|
  {
    if n <= 1 then 0 else MaxWeightsUpTo(counts, n - 1) + counts[n - 2] * counts[n - 1]
  }

  // ---------------------------------------------------------------- lemmas

  /** A row of all-present init values keeps every value at its own position k. */
  lemma {:induction false} SomesDense<T>(s: seq<Option<T>>)
    requires forall k :: 0 <= k < |s| ==> s[k].Some?
    ensures |Somes(s)| == |s|
    ensures forall k :: 0 <= k < |s| ==> Somes(s)[k] == s[k].value
  {
    if |s| > 0 {
      SomesDense(s[..|s| - 1]);
    }
  }

  /** Compaction distributes over concatenation: the values of a prefix come first. */
  lemma {:induction false} SomesAppend<T>(a: seq<Option<T>>, b: seq<Option<T>>)
    ensures Somes(a + b) == Somes(a) + Somes(b)
    decreases |b|
  {
    if |b| == 0 {
      assert a + b == a;
    } else {
      assert (a + b)[..|a + b| - 1] == a + b[..|b| - 1];
      SomesAppend(a, b[..|b| - 1]);
    }
  }

  /** A value is kept exactly when some position holds it. */
  lemma {:induction false} SomesMembers<T>(s: seq<Option<T>>, x: T)
    ensures x in Somes(s) <==> exists k :: 0 <= k < |s| && s[k] == Some(x)
  {
    if |s| > 0 {
      SomesMembers(s[..|s| - 1], x);
      var last := s[|s| - 1];
      if x in Somes(s[..|s| - 1]) {
        var k :| 0 <= k < |s| - 1 && s[..|s| - 1][k] == Some(x);
        assert s[k] == Some(x);
      }
      if exists k :: 0 <= k < |s| && s[k] == Some(x) {
        var k :| 0 <= k < |s| && s[k] == Some(x);
        if k < |s| - 1 {
          assert s[..|s| - 1][k] == Some(x);
        }
      }
    }
  }

  lemma {:induction false} LayerCountBound(layer: Layer, bound: nat)
    requires forall j :: 0 <= j < |layer| ==> |layer[j]| <= bound
    ensures LayerCount(layer) <= |layer| * bound
  {
    if |layer| > 0 {
      var init := layer[..|layer| - 1];
      LayerCountBound(init, bound);
      assert (|layer| - 1) * bound + bound == |layer| * bound;
    }
  }

  /** The stored weight count never exceeds the sum of size[i-1]*size[i]. */
  lemma {:induction false} TotalCountBound(counts: seq<nat>, w: Tensor)
    requires WeightShape(counts, w)
    ensures TotalCount(w) <= MaxWeightsUpTo(counts, |counts|)
  {
    TotalCountPrefixBound(counts, w, |w|);
    assert w[..|w|] == w;
  }

  lemma {:induction false} TotalCountPrefixBound(counts: seq<nat>, w: Tensor, m: nat)
    requires WeightShape(counts, w) && m <= |w|
    ensures TotalCount(w[..m]) <= MaxWeightsUpTo(counts, m + 1)
  {
    if m > 0 {
      TotalCountPrefixBound(counts, w, m - 1);
      assert w[..m][..m - 1] == w[..m - 1];
      LayerCountBound(w[m - 1], counts[m]);
    }
  }

  lemma {:induction false} LayerCountSameShape(a: Layer, b: Layer)
    requires |a| == |b| && forall j :: 0 <= j < |a| ==> |a[j]| == |b[j]|
    ensures LayerCount(a) == LayerCount(b)
  {
    if |a| > 0 {
      LayerCountSameShape(a[..|a| - 1], b[..|b| - 1]);
    }
  }

  /** Tensors of the same shape store the same number of weights. */
  lemma {:induction false} TotalCountSameShape(a: Tensor, b: Tensor)
    requires SameShape(a, b)
    ensures TotalCount(a) == TotalCount(b)
  {
    if |a| > 0 {
      var a', b' := a[..|a| - 1], b[..|b| - 1];
      assert SameShape(a', b') by {
        forall i | 0 <= i < |a'| ensures |a'[i]| == |b'[i]| && forall j :: 0 <= j < |a'[i]| ==> |a'[i][j]| == |b'[i][j]| {
          assert a'[i] == a[i] && b'[i] == b[i];
        }
      }
      TotalCountSameShape(a', b');
      LayerCountSameShape(a[|a| - 1], b[|b| - 1]);
    }
  }

  /** Values may change, shapes do not: a tensor shaped like the weights keeps every
      shape fact and the weight count. */
  lemma ReshapeKeeps(counts: seq<nat>, w: Tensor, w': Tensor, v: Tensor)
    requires WeightShape(counts, w) && SameShape(w', w) && SameShape(v, w)
    ensures WeightShape(counts, w') && SameShape(v, w') && TotalCount(w') == TotalCount(w)
  {
    TotalCountSameShape(w', w);
  }

  /** A batch of one adds the same amounts as the single-sample appliers. */
  lemma DivideByOne(w: Tensor, d: DeltaTensor, b: Biases, bd: Biases)
    ensures WeightsPlus(w, d, DividedBy(1)) == WeightsPlus(w, d, Unscaled)
    ensures BiasesPlus(b, bd, DividedBy(1)) == BiasesPlus(b, bd, Unscaled)
  {
    var wb, wu := WeightsPlus(w, d, DividedBy(1)), WeightsPlus(w, d, Unscaled);
    forall i | 0 <= i < |w| ensures wb[i] == wu[i] {
      forall j | 0 <= j < |w[i]| ensures wb[i][j] == wu[i][j] {
        assert forall k :: 0 <= k < |w[i][j]| ==> wb[i][j][k] == wu[i][j][k];
      }
    }
    var bb, bu := BiasesPlus(b, bd, DividedBy(1)), BiasesPlus(b, bd, Unscaled);
    forall i | 0 <= i < |b| ensures bb[i] == bu[i] {
      assert forall j :: 0 <= j < |b[i]| ==> bb[i][j] == bu[i][j];
    }
  }

  /** Adding deltas keeps every shape the network maintains. */
  lemma PlusKeepsShape(counts: seq<nat>, w: Tensor, d: DeltaTensor, b: Biases, bd: Biases, s: Scale)
    requires WeightShape(counts, w) && BiasShape(counts, b) && ScaleOk(s)
    ensures WeightShape(counts, WeightsPlus(w, d, s))
    ensures BiasShape(counts, BiasesPlus(b, bd, s))
  {
  }
}
