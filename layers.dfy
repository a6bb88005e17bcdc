/** A linear (affine) layer: weights of shape (inDim + 1) x outDim whose last row is the bias,
    followed by an activation applied entry by entry, with its derivative for backpropagation. */
module Layers {
  import opened Matrices

  /** The activation of a plain layer: the identity. */
  function PlainActivate(f: real): real { f }

  /** The derivative of the plain activation: constantly one. */
  function PlainDifferentiate(f: real): real { 1.0 }

  class LinearLayer {
    /** The only state the layer changes, and only in UpdateWeights. */
    var weights: Matrix
    const inDim: nat
    const outDim: nat
    /** The two hooks a concrete layer supplies; `differentiate` is meant to be the derivative of `activate`. */
    const activate: real -> real
    const differentiate: real -> real

    /** `w` has the weight shape of this layer: one row per input plus the bias row, one column per output. */
    predicate WeightShape(w: Matrix) {
      IsMatrix(w, inDim + 1, outDim)
    }

    /** The weight matrix keeps the shape fixed at construction. */
    ghost predicate Valid()
      reads this
    {
      WeightShape(weights)
    }

    /** The activation pair is the identity and its derivative, as in a plain layer. */
    ghost predicate IsPlain() {
      activate == PlainActivate && differentiate == PlainDifferentiate
    }

    /** A layer with caller-chosen activation hooks; the initial weights replace the seeded random ones. */
    constructor (inDim: nat, outDim: nat, initialWeights: Matrix,
                 activate: real -> real, differentiate: real -> real)
      requires IsMatrix(initialWeights, inDim + 1, outDim)
      ensures Valid() && weights == initialWeights
      ensures this.inDim == inDim && this.outDim == outDim
      ensures this.activate == activate && this.differentiate == differentiate
    {
      this.inDim := inDim;
      this.outDim := outDim;
      this.activate := activate;
      this.differentiate := differentiate;
      weights := initialWeights;
    }

    /** The plain layer: identity activation with derivative one. */
    constructor Plain(inDim: nat, outDim: nat, initialWeights: Matrix)
      requires IsMatrix(initialWeights, inDim + 1, outDim)
      ensures Valid() && IsPlain() && weights == initialWeights
      ensures this.inDim == inDim && this.outDim == outDim
    {
      this.inDim := inDim;
      this.outDim := outDim;
      activate := PlainActivate;
      differentiate := PlainDifferentiate;
      weights := initialWeights;
    }

    /** Appends the bias column: the inputs unchanged, then a one. */
    function AugmentOne(x: Matrix): (aug: Matrix)
      requires IsMatrix(x, |x|, inDim)
      ensures IsMatrix(aug, |x|, inDim + 1)
    {
      seq(|x|, i requires 0 <= i < |x| => x[i] + [1.0])
    }

    /** Each augmented row is the input row followed by a one. */
    lemma AugmentOneEntries(x: Matrix)
      requires IsMatrix(x, |x|, inDim)
      ensures forall i :: 0 <= i < |x| ==> AugmentOne(x)[i][..inDim] == x[i] && AugmentOne(x)[i][inDim] == 1.0
    {
      var aug := AugmentOne(x);
      forall i | 0 <= i < |x| ensures aug[i][..inDim] == x[i] && aug[i][inDim] == 1.0 {
        assert aug[i] == x[i] + [1.0];
      }
    }

    /** Forward step with the layer holding weights `w`: the signals are the affine image of the
        inputs (the bias is the last weight row), the outputs are the activation of the signals. */
    function FeedForward(w: Matrix, x: Matrix): (so: (Matrix, Matrix))
      requires WeightShape(w) && IsMatrix(x, |x|, inDim)
      ensures IsMatrix(so.0, |x|, outDim) && IsMatrix(so.1, |x|, outDim)
    {
      var aug := AugmentOne(x);
      var signals := MatMul(aug, w, outDim);
      (signals, Map(activate, signals))
    }

    /** Signal (i, j) is input row i against the non-bias part of weight column j, plus bias j;
        output (i, j) is the activation of signal (i, j). */
    lemma FeedForwardEntries(w: Matrix, x: Matrix)
      requires WeightShape(w) && IsMatrix(x, |x|, inDim)
      ensures forall i, j :: 0 <= i < |x| && 0 <= j < outDim ==>
                FeedForward(w, x).0[i][j] == Dot(x[i], Column(w[..inDim], j)) + w[inDim][j]
      ensures forall i, j :: 0 <= i < |x| && 0 <= j < outDim ==> FeedForward(w, x).1[i][j] == activate(FeedForward(w, x).0[i][j])
    {
      var aug := AugmentOne(x);
      var signals := MatMul(aug, w, outDim);
      AffineWithBias(w, x, aug, signals);
    }

    /** Each entry of `aug · w` splits into the input part and the bias. */
    lemma AffineWithBias(w: Matrix, x: Matrix, aug: Matrix, signals: Matrix)
      requires WeightShape(w) && IsMatrix(x, |x|, inDim)
      requires aug == AugmentOne(x) && signals == MatMul(aug, w, outDim)
      ensures forall i, j :: 0 <= i < |x| && 0 <= j < outDim ==>
                signals[i][j] == Dot(x[i], Column(w[..inDim], j)) + w[inDim][j]
    {
      forall i, j | 0 <= i < |x| && 0 <= j < outDim
        ensures signals[i][j] == Dot(x[i], Column(w[..inDim], j)) + w[inDim][j]
      {
        assert aug[i] == x[i] + [1.0];
        assert Column(w, j) == Column(w[..inDim], j) + [w[inDim][j]];
        DotAppend(x[i], Column(w[..inDim], j), 1.0, w[inDim][j]);
      }
    }

    /** The gradient handed to the preceding layer: the gradient times the transposed non-bias
        weight rows. */
    function TransformGradient(w: Matrix, g: Matrix): (t: Matrix)
      requires WeightShape(w) && IsMatrix(g, |g|, outDim)
      ensures IsMatrix(t, |g|, inDim)
    {
      MatMul(g, Transpose(w[..inDim], outDim), inDim)
    }

    /** Entry (i, k) of the transformed gradient pairs row i of the gradient with weight row k. */
    lemma TransformGradientEntries(w: Matrix, g: Matrix)
      requires WeightShape(w) && IsMatrix(g, |g|, outDim)
      ensures forall i, k :: 0 <= i < |g| && 0 <= k < inDim ==> TransformGradient(w, g)[i][k] == Dot(g[i], w[k])
    {
      var unbiased := w[..inDim];
      forall k | 0 <= k < inDim ensures Column(Transpose(unbiased, outDim), k) == w[k] {
        ColumnOfTranspose(unbiased, outDim, k);
      }
    }

    /** Output-layer backward step: the loss gradient corrected by the activation derivative,
        and that corrected gradient transformed for the preceding layer. */
    function SeedBackProp(w: Matrix, signals: Matrix, g: Matrix): (gt: (Matrix, Matrix))
      requires WeightShape(w) && IsMatrix(signals, |signals|, outDim) && IsMatrix(g, |signals|, outDim)
      ensures IsMatrix(gt.0, |signals|, outDim) && IsMatrix(gt.1, |signals|, inDim)
    {
      var diffSignals := Map(differentiate, signals);
      var corrected := Hadamard(diffSignals, g);
      (corrected, TransformGradient(w, corrected))
    }

    /** The seeded gradient is, entry by entry, the derivative at the signal times the loss gradient,
        and what goes back pairs each of its rows with each non-bias weight row. */
    lemma SeedBackPropEntries(w: Matrix, signals: Matrix, g: Matrix)
      requires WeightShape(w) && IsMatrix(signals, |signals|, outDim) && IsMatrix(g, |signals|, outDim)
      ensures forall i, j :: 0 <= i < |signals| && 0 <= j < outDim ==>
                SeedBackProp(w, signals, g).0[i][j] == differentiate(signals[i][j]) * g[i][j]
      ensures forall i, k :: 0 <= i < |signals| && 0 <= k < inDim ==>
                SeedBackProp(w, signals, g).1[i][k] == Dot(SeedBackProp(w, signals, g).0[i], w[k])
    {
      TransformGradientEntries(w, SeedBackProp(w, signals, g).0);
    }

    /** Hidden-layer backward step, as written: the local gradient is the derivative times the
        incoming gradient, but what is handed to the preceding layer is the transformed derivative
        alone. */
    function BackPropagate(w: Matrix, signals: Matrix, tg: Matrix): (gt: (Matrix, Matrix))
      requires WeightShape(w) && IsMatrix(signals, |signals|, outDim) && IsMatrix(tg, |signals|, outDim)
      ensures IsMatrix(gt.0, |signals|, outDim) && IsMatrix(gt.1, |signals|, inDim)
    {
      var diffSignals := Map(differentiate, signals);
      var gradient := Hadamard(diffSignals, tg);
      (gradient, TransformGradient(w, diffSignals))
    }

    /** The local gradient is, entry by entry, the derivative at the signal times the incoming
        gradient; what is handed back pairs the derivatives with each non-bias weight row, so it does
        not depend on the incoming gradient `tg` at all. */
    lemma BackPropagateEntries(w: Matrix, signals: Matrix, tg: Matrix)
      requires WeightShape(w) && IsMatrix(signals, |signals|, outDim) && IsMatrix(tg, |signals|, outDim)
      ensures forall i, j :: 0 <= i < |signals| && 0 <= j < outDim ==>
                BackPropagate(w, signals, tg).0[i][j] == differentiate(signals[i][j]) * tg[i][j]
      ensures forall i, k :: 0 <= i < |signals| && 0 <= k < inDim ==>
                BackPropagate(w, signals, tg).1[i][k] == Dot(Map(differentiate, signals)[i], w[k])
    {
      TransformGradientEntries(w, Map(differentiate, signals));
    }

    /** The weights after one gradient-descent step from `w`: `w` minus `lr` times the transposed
        augmented inputs multiplied by the gradient. */
    function StepFrom(w: Matrix, x: Matrix, g: Matrix, lr: real): (w': Matrix)
      requires WeightShape(w) && IsMatrix(x, |x|, inDim) && IsMatrix(g, |x|, outDim)
      ensures WeightShape(w')
    {
      var aug := AugmentOne(x);
      var step := MatMul(Transpose(aug, inDim + 1), g, outDim);
      SubScaled(w, lr, step)
    }

    /** One step moves the non-bias weight (k, c) by `lr` times the correlation of input column k
        with gradient column c. */
    lemma StepWeightAt(w: Matrix, x: Matrix, g: Matrix, lr: real, k: nat, c: nat)
      requires WeightShape(w) && IsMatrix(x, |x|, inDim) && IsMatrix(g, |x|, outDim)
      requires k < inDim && c < outDim
      ensures StepFrom(w, x, g, lr)[k][c] == w[k][c] - lr * Dot(Column(x, k), Column(g, c))
    {
      var aug := AugmentOne(x);
      var t := Transpose(aug, inDim + 1);
      assert t[k] == Column(x, k) by {
        assert forall i :: 0 <= i < |x| ==> aug[i][k] == aug[i][..inDim][k] == x[i][k];
      }
      var step := MatMul(t, g, outDim);
      assert step[k][c] == Dot(Column(x, k), Column(g, c));
    }

    /** One step moves the bias weight of column c by `lr` times the sum of gradient column c. */
    lemma StepBiasAt(w: Matrix, x: Matrix, g: Matrix, lr: real, c: nat)
      requires WeightShape(w) && IsMatrix(x, |x|, inDim) && IsMatrix(g, |x|, outDim)
      requires c < outDim
      ensures StepFrom(w, x, g, lr)[inDim][c] == w[inDim][c] - lr * Sum(Column(g, c))
    {
      var aug := AugmentOne(x);
      var t := Transpose(aug, inDim + 1);
      DotOnes(t[inDim], Column(g, c));
      var step := MatMul(t, g, outDim);
      assert step[inDim][c] == Sum(Column(g, c));
    }

    /** Updates the weights in place by one gradient-descent step; nothing else changes. */
    method UpdateWeights(x: Matrix, g: Matrix, lr: real)
      requires Valid() && IsMatrix(x, |x|, inDim) && IsMatrix(g, |x|, outDim)
      modifies this`weights
      ensures Valid()
      ensures weights == StepFrom(old(weights), x, g, lr)
    {
      var aug := AugmentOne(x);
      var step := MatMul(Transpose(aug, inDim + 1), g, outDim);
      weights := SubScaled(weights, lr, step);
    }

    /** A step with learning rate zero leaves the weights as they were. */
    lemma StepFromZeroRate(w: Matrix, x: Matrix, g: Matrix)
      requires WeightShape(w) && IsMatrix(x, |x|, inDim) && IsMatrix(g, |x|, outDim)
      ensures StepFrom(w, x, g, 0.0) == w
    {
      var w' := StepFrom(w, x, g, 0.0);
      forall k | 0 <= k < inDim + 1 ensures w'[k] == w[k] {
        forall c | 0 <= c < outDim ensures w'[k][c] == w[k][c] {
          if k < inDim {
            StepWeightAt(w, x, g, 0.0, k, c);
          } else {
            StepBiasAt(w, x, g, 0.0, c);
          }
        }
      }
    }

    /** In a plain layer the outputs are the signals themselves. */
    lemma PlainFeedForward(w: Matrix, x: Matrix)
      requires WeightShape(w) && IsPlain() && IsMatrix(x, |x|, inDim)
      ensures FeedForward(w, x).1 == FeedForward(w, x).0
    {
      var so := FeedForward(w, x);
      FeedForwardEntries(w, x);
      forall i | 0 <= i < |x| ensures so.1[i] == so.0[i] {
        assert forall j :: 0 <= j < outDim ==> so.1[i][j] == so.0[i][j];
      }
    }

    /** In a plain layer the output-layer backward step passes the loss gradient through unchanged. */
    lemma PlainSeedBackProp(w: Matrix, signals: Matrix, g: Matrix)
      requires WeightShape(w) && IsPlain() && IsMatrix(signals, |signals|, outDim) && IsMatrix(g, |signals|, outDim)
      ensures SeedBackProp(w, signals, g).0 == g
    {
      var gt := SeedBackProp(w, signals, g);
      SeedBackPropEntries(w, signals, g);
      forall i | 0 <= i < |signals| ensures gt.0[i] == g[i] {
        forall j | 0 <= j < outDim ensures gt.0[i][j] == g[i][j] {
          assert differentiate(signals[i][j]) == 1.0;
        }
      }
    }

    /** In a plain layer the hidden backward step with weights `w` keeps the incoming gradient as its own, and hands the
        preceding layer, in every row, the sums of the non-bias weight rows, whatever it received. */
    lemma PlainBackPropagate(w: Matrix, signals: Matrix, tg: Matrix)
      requires WeightShape(w) && IsPlain() && IsMatrix(signals, |signals|, outDim) && IsMatrix(tg, |signals|, outDim)
      ensures BackPropagate(w, signals, tg).0 == tg
      ensures forall i, k :: 0 <= i < |signals| && 0 <= k < inDim ==> BackPropagate(w, signals, tg).1[i][k] == Sum(w[k])
    {
      var gt := BackPropagate(w, signals, tg);
      BackPropagateEntries(w, signals, tg);
      var diffSignals := Map(differentiate, signals);
      forall i | 0 <= i < |signals| ensures gt.0[i] == tg[i] {
        forall j | 0 <= j < outDim ensures gt.0[i][j] == tg[i][j] {
          assert differentiate(signals[i][j]) == 1.0;
        }
      }
      forall i, k | 0 <= i < |signals| && 0 <= k < inDim ensures gt.1[i][k] == Sum(w[k]) {
        forall j | 0 <= j < outDim ensures diffSignals[i][j] == 1.0 {
          assert differentiate(signals[i][j]) == 1.0;
        }
        DotOnes(diffSignals[i], w[k]);
      }
    }
  }
}
