/** A feedforward network: an ordered pipeline of hidden layers (appended and removed at the tail)
    followed by one fixed output layer, trained by a forward pass, a loss evaluation, a backward pass
    and a weight-update pass. */
module Net {
  import opened Matrices
  import opened Results
  import opened Layers
  import Labels

  /** Cross-entropy and misclassification rate. */
  datatype Loss = Loss(crossEntropy: real, misclassification: real)

  /** The loss evaluation: given the output layer's outputs and the labels, the loss and the gradient
      of the loss with respect to the outputs, of the same shape as the outputs. */
  type Evaluator = f: (Matrix, Labels.LabelMatrix) -> (Loss, Matrix) | forall o, l :: SameShape(f(o, l).1, o)
    witness (o: Matrix, l: Labels.LabelMatrix) => (Loss(0.0, 0.0), o)

  const NegativeRateMessage := "received negative value for learning rate @lr"

  /** Every layer keeps its weight shape. */
  ghost predicate LayersValid(ls: seq<LinearLayer>)
    reads ls
  {
    forall i :: 0 <= i < |ls| ==> ls[i].Valid()
  }

  /** No layer object occurs twice: the last one is not among the others, which are distinct. */
  predicate Distinct(ls: seq<LinearLayer>)
    decreases |ls|
  {
    |ls| == 0 || (ls[|ls| - 1] !in ls[..|ls| - 1] && Distinct(ls[..|ls| - 1]))
  }

  /** In a distinct pipeline, different positions hold different layers. */
  lemma {:induction false} DistinctAt(ls: seq<LinearLayer>, i: nat, j: nat)
    requires Distinct(ls) && i < j < |ls|
    ensures ls[i] != ls[j]
    decreases |ls|
  {
    var front := ls[..|ls| - 1];
    if j < |ls| - 1 {
      DistinctAt(front, i, j);
      assert front[i] == ls[i] && front[j] == ls[j];
    } else {
      assert front[i] == ls[i];
    }
  }

  /** A pipeline with one more layer is distinct exactly when the pipeline is and the layer is new. */
  lemma {:induction false} DistinctAppend(ls: seq<LinearLayer>, last: LinearLayer)
    ensures Distinct(ls + [last]) <==> Distinct(ls) && last !in ls
  {
    assert (ls + [last])[..|ls|] == ls;
  }

  /** One call of a pipeline whose layers are all different: layer `k` takes one gradient-descent
      step, to `target`, and every other layer keeps its weights. */
  method StepLayer(ls: seq<LinearLayer>, k: nat, x: Matrix, g: Matrix, lr: real, ghost target: Matrix)
    requires Distinct(ls) && LayersValid(ls) && k < |ls|
    requires IsMatrix(x, |x|, ls[k].inDim) && IsMatrix(g, |x|, ls[k].outDim)
    requires target == ls[k].StepFrom(ls[k].weights, x, g, lr)
    modifies ls[k]
    ensures LayersValid(ls)
    ensures ls[k].weights == target
    ensures forall j :: 0 <= j < |ls| && j != k ==> ls[j].weights == old(ls[j].weights)
  {
    forall j | 0 <= j < |ls| && j != k ensures ls[j] != ls[k] {
      if j < k {
        DistinctAt(ls, j, k);
      } else {
        DistinctAt(ls, k, j);
      }
    }
    ls[k].UpdateWeights(x, g, lr);
  }

  /** Each layer's input width is the previous layer's output width. */
  predicate Chained(ls: seq<LinearLayer>) {
    forall i :: 0 < i < |ls| ==> LinkedAt(ls, i)
  }

  /** Layer `i` takes the output width of layer `i - 1`. */
  predicate LinkedAt(ls: seq<LinearLayer>, i: nat)
    requires 0 < i < |ls|
  {
    ls[i - 1].outDim == ls[i].inDim
  }

  /** A pipeline followed by one more layer is chained exactly when the pipeline is and the
      extra layer takes the pipeline's last output width. */
  lemma {:induction false} ChainedAppend(ls: seq<LinearLayer>, last: LinearLayer)
    ensures Chained(ls + [last]) <==> Chained(ls) && (|ls| > 0 ==> ls[|ls| - 1].outDim == last.inDim)
  {
    var all := ls + [last];
    if Chained(all) {
      forall i | 0 < i < |ls| ensures LinkedAt(ls, i) {
        assert LinkedAt(all, i) && all[i - 1] == ls[i - 1] && all[i] == ls[i];
      }
      if |ls| > 0 {
        assert LinkedAt(all, |ls|) && all[|ls| - 1] == ls[|ls| - 1] && all[|ls|] == last;
      }
    } else {
      var i :| 0 < i < |all| && !LinkedAt(all, i);
      assert i < |ls| ==> all[i - 1] == ls[i - 1] && all[i] == ls[i] && !LinkedAt(ls, i);
    }
  }

  /** Weights `ws` fit the layers `ls`: weight matrix `i` has the shape of layer `i`. */
  predicate WeightsFit(ls: seq<LinearLayer>, ws: seq<Matrix>) {
    |ls| <= |ws| && forall i :: 0 <= i < |ls| ==> ls[i].WeightShape(ws[i])
  }

  /** The current weights of each layer. */
  function WeightsOf(ls: seq<LinearLayer>): (ws: seq<Matrix>)
    reads ls
    ensures |ws| == |ls| && forall j {:trigger ws[j]} :: 0 <= j < |ls| ==> ws[j] == ls[j].weights
    decreases |ls|
  {
    if |ls| == 0 then [] else WeightsOf(ls[..|ls| - 1]) + [ls[|ls| - 1].weights]
  }

  /** The input the update pass gives layer `j`: `first` (the network's stored default inputs) for the
      first layer, otherwise the output recorded for the layer before it. */
  function LayerInput(first: Matrix, outputs: seq<Matrix>, j: nat): Matrix
    requires j <= |outputs|
  {
    if j == 0 then first else outputs[j - 1]
  }

  /** Layers `0` to `|outputs|` of `ls` exist and each can be handed its input and the gradient
      counted from the back of the gradient list, each of that layer's widths. */
  predicate StepsFit(ls: seq<LinearLayer>, first: Matrix, outputs: seq<Matrix>, gradients: seq<Matrix>) {
    && |outputs| < |ls| && |outputs| < |gradients|
    && forall j :: 0 <= j <= |outputs| ==>
         && IsMatrix(LayerInput(first, outputs, j), |LayerInput(first, outputs, j)|, ls[j].inDim)
         && IsMatrix(gradients[|gradients| - 1 - j], |LayerInput(first, outputs, j)|, ls[j].outDim)
  }

  /** One gradient-descent step for each layer `j` of `ls` up to the number of outputs, from weights
      `ws[j]`, on that layer's input and gradient. */
  function Steps(ls: seq<LinearLayer>, ws: seq<Matrix>, first: Matrix, outputs: seq<Matrix>, gradients: seq<Matrix>,
                 lr: real, n: nat): (ts: seq<Matrix>)
    requires WeightsFit(ls, ws) && StepsFit(ls, first, outputs, gradients) && n <= |outputs| + 1
    ensures |ts| == n
    decreases n
  {
    if n == 0 then []
    else
      Steps(ls, ws, first, outputs, gradients, lr, n - 1)
      + [ls[n - 1].StepFrom(ws[n - 1], LayerInput(first, outputs, n - 1), gradients[|gradients| - 1 - (n - 1)], lr)]
  }

  /** Step `j` of the first `n` is layer `j`'s step on its own input and gradient. */
  lemma {:induction false} StepsAt(ls: seq<LinearLayer>, ws: seq<Matrix>, first: Matrix, outputs: seq<Matrix>,
                                   gradients: seq<Matrix>, lr: real, n: nat, j: nat)
    requires WeightsFit(ls, ws) && StepsFit(ls, first, outputs, gradients) && j < n <= |outputs| + 1
    ensures Steps(ls, ws, first, outputs, gradients, lr, n)[j]
            == ls[j].StepFrom(ws[j], LayerInput(first, outputs, j), gradients[|gradients| - 1 - j], lr)
    decreases n
  {
    if j < n - 1 {
      StepsAt(ls, ws, first, outputs, gradients, lr, n - 1, j);
      var before := Steps(ls, ws, first, outputs, gradients, lr, n - 1);
      assert Steps(ls, ws, first, outputs, gradients, lr, n)[j] == before[j];
    }
  }

  /** Every step of the first `n`, at once. */
  lemma StepsAll(ls: seq<LinearLayer>, ws: seq<Matrix>, first: Matrix, outputs: seq<Matrix>,
                 gradients: seq<Matrix>, lr: real, n: nat)
    requires WeightsFit(ls, ws) && StepsFit(ls, first, outputs, gradients) && n <= |outputs| + 1
    ensures forall j {:trigger Steps(ls, ws, first, outputs, gradients, lr, n)[j]} :: 0 <= j < n ==>
              Steps(ls, ws, first, outputs, gradients, lr, n)[j]
              == ls[j].StepFrom(ws[j], LayerInput(first, outputs, j), gradients[|gradients| - 1 - j], lr)
  {
    forall j | 0 <= j < n
      ensures Steps(ls, ws, first, outputs, gradients, lr, n)[j]
              == ls[j].StepFrom(ws[j], LayerInput(first, outputs, j), gradients[|gradients| - 1 - j], lr)
    {
      StepsAt(ls, ws, first, outputs, gradients, lr, n, j);
    }
  }

  /** The calls of the update pass: layer 0 gets `first` and the last gradient, layer `j` the output
      of layer `j - 1` and the gradient `j` places from the back; layers beyond the given outputs are
      left alone. */
  method StepLayers(ls: seq<LinearLayer>, first: Matrix, outputs: seq<Matrix>, gradients: seq<Matrix>, lr: real,
                    ghost ws: seq<Matrix>, ghost targets: seq<Matrix>)
    requires Distinct(ls) && LayersValid(ls) && StepsFit(ls, first, outputs, gradients)
    requires |ws| == |ls| && forall j {:trigger ws[j]} :: 0 <= j < |ls| ==> ls[j].weights == ws[j]
    requires |targets| == |outputs| + 1
    requires forall j {:trigger targets[j]} :: 0 <= j <= |outputs| ==>
               targets[j] == ls[j].StepFrom(ws[j], LayerInput(first, outputs, j), gradients[|gradients| - 1 - j], lr)
    modifies ls
    ensures LayersValid(ls)
    ensures forall j :: 0 <= j <= |outputs| ==> ls[j].weights == targets[j]
    ensures forall j :: |outputs| < j < |ls| ==> ls[j].weights == ws[j]
  {
    assert LayerInput(first, outputs, 0) == first && gradients[|gradients| - 1 - 0] == gradients[|gradients| - 1];
    assert targets[0] == ls[0].StepFrom(ls[0].weights, first, gradients[|gradients| - 1], lr);
    StepLayer(ls, 0, first, gradients[|gradients| - 1], lr, targets[0]);
    var i := 0;
    while i < |outputs|
      invariant 0 <= i <= |outputs|
      invariant LayersValid(ls)
      invariant forall j :: i < j < |ls| ==> ls[j].weights == ws[j]
      invariant forall j :: 0 <= j <= i ==> ls[j].weights == targets[j]
    {
      var g := gradients[|gradients| - 2 - i];
      assert LayerInput(first, outputs, i + 1) == outputs[i] && gradients[|gradients| - 1 - (i + 1)] == g;
      assert targets[i + 1] == ls[i + 1].StepFrom(ls[i + 1].weights, outputs[i], g, lr);
      StepLayer(ls, i + 1, outputs[i], g, lr, targets[i + 1]);
      i := i + 1;
    }
  }

  /** Layers whose weights are, position by position, those of `ts` have the weights `ts`. */
  lemma WeightsAre(ls: seq<LinearLayer>, ts: seq<Matrix>)
    requires |ts| == |ls| && forall j :: 0 <= j < |ls| ==> ls[j].weights == ts[j]
    ensures WeightsOf(ls) == ts
  {
  }

  /** The signal fed to the layer after the recorded ones: the last recorded signal, or the
      network input when nothing was recorded. */
  function LastSignal(pairs: seq<(Matrix, Matrix)>, x: Matrix): Matrix {
    if |pairs| == 0 then x else pairs[|pairs| - 1].0
  }

  /** The (signal, output) pairs recorded by the forward pass over `ls` holding weights `ws` from
      input `x`: one per layer, in insertion order; each layer after the first is fed the previous
      layer's signal. */
  function ForwardPairs(ls: seq<LinearLayer>, ws: seq<Matrix>, x: Matrix): (pairs: seq<(Matrix, Matrix)>)
    requires WeightsFit(ls, ws) && Chained(ls)
    requires |ls| > 0 ==> IsMatrix(x, |x|, ls[0].inDim)
    ensures |pairs| == |ls|
    ensures forall i {:trigger pairs[i]} :: 0 <= i < |ls| ==>
              IsMatrix(pairs[i].0, |x|, ls[i].outDim) && IsMatrix(pairs[i].1, |x|, ls[i].outDim)
  {
    ForwardUpToShapes(ls, ws, x, |ls|);
    ForwardUpTo(ls, ws, x, |ls|)
  }

  /** The (signal, output) pair layer `i` records: its forward step on the network input for the
      first layer, on the previous layer's signal for every later one. */
  function ForwardAt(ls: seq<LinearLayer>, ws: seq<Matrix>, x: Matrix, i: nat): (pair: (Matrix, Matrix))
    requires WeightsFit(ls, ws) && Chained(ls) && i < |ls|
    requires IsMatrix(x, |x|, ls[0].inDim)
    ensures IsMatrix(pair.0, |x|, ls[i].outDim) && IsMatrix(pair.1, |x|, ls[i].outDim)
    decreases i
  {
    if i == 0 then ls[0].FeedForward(ws[0], x)
    else
      assert LinkedAt(ls, i);
      ls[i].FeedForward(ws[i], ForwardAt(ls, ws, x, i - 1).0)
  }

  /** The pairs the forward pass records for the first `n` layers of `ls`. */
  function ForwardUpTo(ls: seq<LinearLayer>, ws: seq<Matrix>, x: Matrix, n: nat): (pairs: seq<(Matrix, Matrix)>)
    requires WeightsFit(ls, ws) && Chained(ls) && n <= |ls|
    requires |ls| > 0 ==> IsMatrix(x, |x|, ls[0].inDim)
    ensures |pairs| == n
    decreases n
  {
    if n == 0 then [] else ForwardUpTo(ls, ws, x, n - 1) + [ForwardAt(ls, ws, x, n - 1)]
  }

  /** The forward pass records, for layer `i`, exactly what that layer's forward step makes of the
      network input (for the first layer) or of the previous layer's signal, not its output. */
  lemma ForwardPairsAt(ls: seq<LinearLayer>, ws: seq<Matrix>, x: Matrix, i: nat)
    requires WeightsFit(ls, ws) && Chained(ls)
    requires |ls| > 0 ==> IsMatrix(x, |x|, ls[0].inDim)
    requires i < |ls|
    ensures i == 0 ==> ForwardPairs(ls, ws, x)[i] == ls[i].FeedForward(ws[i], x)
    ensures 0 < i ==> IsMatrix(ForwardPairs(ls, ws, x)[i - 1].0, |x|, ls[i].inDim)
    ensures 0 < i ==> ForwardPairs(ls, ws, x)[i] == ls[i].FeedForward(ws[i], ForwardPairs(ls, ws, x)[i - 1].0)
  {
    ForwardUpToAt(ls, ws, x, |ls|, i);
    if 0 < i {
      ForwardUpToAt(ls, ws, x, |ls|, i - 1);
      assert LinkedAt(ls, i);
    }
  }

  /** Pair `i` of the first `n` layers is the one layer `i` records, however many layers follow. */
  lemma {:induction false} ForwardUpToAt(ls: seq<LinearLayer>, ws: seq<Matrix>, x: Matrix, n: nat, i: nat)
    requires WeightsFit(ls, ws) && Chained(ls) && n <= |ls|
    requires |ls| > 0 ==> IsMatrix(x, |x|, ls[0].inDim)
    requires i < n
    ensures ForwardUpTo(ls, ws, x, n)[i] == ForwardAt(ls, ws, x, i)
    decreases n
  {
    if i < n - 1 {
      ForwardUpToAt(ls, ws, x, n - 1, i);
    }
  }

  /** Every recorded pair has the rows of `x` and its layer's output width. */
  lemma ForwardUpToShapes(ls: seq<LinearLayer>, ws: seq<Matrix>, x: Matrix, n: nat)
    requires WeightsFit(ls, ws) && Chained(ls) && n <= |ls|
    requires |ls| > 0 ==> IsMatrix(x, |x|, ls[0].inDim)
    ensures forall i {:trigger ForwardUpTo(ls, ws, x, n)[i]} :: 0 <= i < n ==>
              IsMatrix(ForwardUpTo(ls, ws, x, n)[i].0, |x|, ls[i].outDim)
              && IsMatrix(ForwardUpTo(ls, ws, x, n)[i].1, |x|, ls[i].outDim)
  {
    forall i | 0 <= i < n
      ensures IsMatrix(ForwardUpTo(ls, ws, x, n)[i].0, |x|, ls[i].outDim)
      ensures IsMatrix(ForwardUpTo(ls, ws, x, n)[i].1, |x|, ls[i].outDim)
    {
      ForwardUpToAt(ls, ws, x, n, i);
    }
  }

  /** Runs the layers of `ls` forward in insertion order, each fed the previous layer's signal (the
      input `x` for the first), and records one (signal, output) pair per layer. */
  method RunForward(ls: seq<LinearLayer>, ghost ws: seq<Matrix>, x: Matrix) returns (pairs: seq<(Matrix, Matrix)>, nextInputs: Matrix)
    requires WeightsFit(ls, ws) && Chained(ls) && (|ls| > 0 ==> IsMatrix(x, |x|, ls[0].inDim))
    requires forall j :: 0 <= j < |ls| ==> ws[j] == ls[j].weights
    ensures pairs == ForwardPairs(ls, ws, x)
    ensures nextInputs == LastSignal(pairs, x)
  {
    nextInputs := x;
    pairs := [];
    var i := 0;
    while i < |ls|
      invariant 0 <= i <= |ls|
      invariant pairs == ForwardUpTo(ls, ws, x, i)
      invariant nextInputs == if i == 0 then x else ForwardAt(ls, ws, x, i - 1).0
    {
      var layer := ls[i];
      assert i > 0 ==> LinkedAt(ls, i);
      var so := layer.FeedForward(layer.weights, nextInputs);
      nextInputs := so.0;
      pairs := pairs + [so];
      i := i + 1;
    }
    assert 0 < |ls| ==> pairs[|ls| - 1] == ForwardAt(ls, ws, x, |ls| - 1);
  }

  /** The activated outputs recorded by the forward pass, in order, as the update pass takes them. */
  function Outputs(pairs: seq<(Matrix, Matrix)>): seq<Matrix> {
    seq(|pairs|, k requires 0 <= k < |pairs| => pairs[k].1)
  }

  /** The recorded signals have, row for row, the layers' output widths. */
  predicate SignalsFit(ls: seq<LinearLayer>, pairs: seq<(Matrix, Matrix)>, rows: nat) {
    |pairs| == |ls| && forall j :: 0 <= j < |ls| ==> IsMatrix(pairs[j].0, rows, ls[j].outDim)
  }

  /** The state of the backward pass over the hidden layers `ls` holding weights `ws` once layers
      `|ls| - 1` down to `i` are done, starting from the transformed gradient `t0` of the output layer:
      the local gradients collected so far (latest layer first) and the transformed gradient that goes
      on to layer `i - 1`. */
  function Backward(ls: seq<LinearLayer>, ws: seq<Matrix>, pairs: seq<(Matrix, Matrix)>, t0: Matrix, i: nat): (st: (seq<Matrix>, Matrix))
    requires WeightsFit(ls, ws) && Chained(ls) && SignalsFit(ls, pairs, |t0|) && i <= |ls|
    requires |ls| > 0 ==> IsMatrix(t0, |t0|, ls[|ls| - 1].outDim)
    ensures |st.0| == |ls| - i
    ensures forall k :: 0 <= k < |st.0| ==> IsMatrix(st.0[k], |t0|, ls[|ls| - 1 - k].outDim)
    ensures i < |ls| ==> IsMatrix(st.1, |t0|, ls[i].inDim)
    ensures 0 < i ==> IsMatrix(st.1, |t0|, ls[i - 1].outDim)
    ensures i == |ls| ==> st.1 == t0
    decreases |ls| - i
  {
    if i == |ls| then ([], t0)
    else
      assert 0 < i ==> LinkedAt(ls, i);
      var later := Backward(ls, ws, pairs, t0, i + 1);
      var gt := ls[i].BackPropagate(ws[i], pairs[i].0, later.1);
      (later.0 + [gt.0], gt.1)
  }

  /** In the backward state at `i`, the entry for hidden layer `j >= i` sits at position `|ls| - 1 - j`
      and is that layer's own local gradient, computed from its recorded signal and the transformed
      gradient of the layer after it. */
  lemma {:induction false} BackwardAt(ls: seq<LinearLayer>, ws: seq<Matrix>, pairs: seq<(Matrix, Matrix)>, t0: Matrix, i: nat, j: nat)
    requires WeightsFit(ls, ws) && Chained(ls) && SignalsFit(ls, pairs, |t0|)
    requires |ls| > 0 ==> IsMatrix(t0, |t0|, ls[|ls| - 1].outDim)
    requires i <= j < |ls|
    ensures Backward(ls, ws, pairs, t0, i).0[|ls| - 1 - j]
            == ls[j].BackPropagate(ws[j], pairs[j].0, Backward(ls, ws, pairs, t0, j + 1).1).0
    decreases j - i
  {
    var later := Backward(ls, ws, pairs, t0, i + 1);
    var gt := ls[i].BackPropagate(ws[i], pairs[i].0, later.1);
    assert Backward(ls, ws, pairs, t0, i).0 == later.0 + [gt.0];
    if i < j {
      BackwardAt(ls, ws, pairs, t0, i + 1, j);
      assert (later.0 + [gt.0])[|ls| - 1 - j] == later.0[|ls| - 1 - j];
    }
  }

  /** The network: hidden layers held by reference in three parallel pipelines (forward, backward
      and update steps, each entry standing for the closure that captures that layer), the output
      layer, the default training data, the loss evaluation of the multi-class network and the
      loss it last stored. */
  class FeedFwdNN {
    const inputs: Matrix
    const oneHotLabels: Labels.LabelMatrix
    const output: LinearLayer
    const evaluate: Evaluator
    var feedforwardFuncs: seq<LinearLayer>
    var backpropFuncs: seq<LinearLayer>
    var updateFuncs: seq<LinearLayer>
    var loss: Loss

    /** The three pipelines agree and every layer keeps its weight shape: all that running the
        network needs. */
    ghost predicate Shaped()
      reads this`feedforwardFuncs, this`backpropFuncs, this`updateFuncs, feedforwardFuncs, output
    {
      && backpropFuncs == feedforwardFuncs && updateFuncs == feedforwardFuncs
      && LayersValid(feedforwardFuncs) && output.Valid()
    }

    /** Shaped, and no layer is held twice, so that updating one layer leaves the others alone. */
    ghost predicate Valid()
      reads this`feedforwardFuncs, this`backpropFuncs, this`updateFuncs, feedforwardFuncs, output
    {
      Shaped() && Distinct(feedforwardFuncs) && output !in feedforwardFuncs
    }

    /** A network with no hidden layers and an output layer that is trained in place. */
    constructor MultiClassNN(inputs: Matrix, oneHotLabels: Labels.LabelMatrix, output: LinearLayer, evaluate: Evaluator)
      requires output.Valid()
      ensures Valid()
      ensures this.inputs == inputs && this.oneHotLabels == oneHotLabels
      ensures this.output == output && this.evaluate == evaluate
      ensures feedforwardFuncs == [] && loss == Loss(0.0, 0.0)
    {
      this.inputs := inputs;
      this.oneHotLabels := oneHotLabels;
      this.output := output;
      this.evaluate := evaluate;
      feedforwardFuncs := [];
      backpropFuncs := [];
      updateFuncs := [];
      loss := Loss(0.0, 0.0);
    }

    /** All layers in order, the output layer last. */
    function AllLayers(): seq<LinearLayer>
      reads this`feedforwardFuncs
    {
      feedforwardFuncs + [output]
    }

    /** The layers are wired and `x` has the first layer's input width. */
    predicate Fits(x: Matrix)
      reads this`feedforwardFuncs
    {
      Wired() && IsMatrix(x, |x|, AllLayers()[0].inDim)
    }

    /** Every layer takes its predecessor's output width. */
    predicate Wired()
      reads this`feedforwardFuncs
    {
      && Chained(feedforwardFuncs)
      && (|feedforwardFuncs| > 0 ==> feedforwardFuncs[|feedforwardFuncs| - 1].outDim == output.inDim)
    }

    /** Weights `ws` fit all layers, the output layer's being the last. */
    predicate Weighted(ws: seq<Matrix>)
      reads this`feedforwardFuncs
    {
      |ws| == |AllLayers()| && WeightsFit(feedforwardFuncs, ws) && output.WeightShape(ws[|feedforwardFuncs|])
    }

    /** When the network is shaped, its current weights fit it. */
    lemma CurrentWeighted()
      requires Shaped()
      ensures Weighted(WeightsOf(AllLayers()))
    {
      var ws := WeightsOf(AllLayers());
      assert forall j :: 0 <= j < |feedforwardFuncs| ==> AllLayers()[j] == feedforwardFuncs[j];
    }

    /** Appends one layer to each of the three pipelines. */
    method PushLayer(layer: LinearLayer)
      requires Valid() && layer.Valid() && layer !in AllLayers()
      modifies this`feedforwardFuncs, this`backpropFuncs, this`updateFuncs
      ensures Valid()
      ensures feedforwardFuncs == old(feedforwardFuncs) + [layer]
      ensures backpropFuncs == old(backpropFuncs) + [layer]
      ensures updateFuncs == old(updateFuncs) + [layer]
    {
      DistinctAppend(feedforwardFuncs, layer);
      feedforwardFuncs := feedforwardFuncs + [layer];
      backpropFuncs := backpropFuncs + [layer];
      updateFuncs := updateFuncs + [layer];
    }

    /** Removes the last layer from each of the three pipelines. */
    method PopLayer()
      requires Valid() && |feedforwardFuncs| > 0
      modifies this`feedforwardFuncs, this`backpropFuncs, this`updateFuncs
      ensures Valid()
      ensures feedforwardFuncs == old(feedforwardFuncs)[..|old(feedforwardFuncs)| - 1]
      ensures backpropFuncs == old(backpropFuncs)[..|old(backpropFuncs)| - 1]
      ensures updateFuncs == old(updateFuncs)[..|old(updateFuncs)| - 1]
    {
      feedforwardFuncs := feedforwardFuncs[..|feedforwardFuncs| - 1];
      backpropFuncs := backpropFuncs[..|backpropFuncs| - 1];
      updateFuncs := updateFuncs[..|updateFuncs| - 1];
    }

    /** Pushing a layer and popping it again restores the pipelines. */
    method PushThenPop(layer: LinearLayer)
      requires Valid() && layer.Valid() && layer !in AllLayers()
      modifies this`feedforwardFuncs, this`backpropFuncs, this`updateFuncs
      ensures Valid()
      ensures feedforwardFuncs == old(feedforwardFuncs)
      ensures backpropFuncs == old(backpropFuncs)
      ensures updateFuncs == old(updateFuncs)
    {
      PushLayer(layer);
      PopLayer();
    }

    /** With weights `ws`, the output layer's (signals, outputs), fed the last hidden signal. */
    function OutputPass(ws: seq<Matrix>, x: Matrix): (so: (Matrix, Matrix))
      reads this`feedforwardFuncs
      requires Weighted(ws) && Fits(x)
      ensures IsMatrix(so.0, |x|, output.outDim) && IsMatrix(so.1, |x|, output.outDim)
    {
      var pairs := ForwardPairs(feedforwardFuncs, ws, x);
      output.FeedForward(ws[|feedforwardFuncs|], LastSignal(pairs, x))
    }

    /** With weights `ws`, the loss and the loss gradient for input `x` and labels `labels`. */
    function Evaluation(ws: seq<Matrix>, x: Matrix, labels: Labels.LabelMatrix): (Loss, Matrix)
      reads this`feedforwardFuncs
      requires Weighted(ws) && Fits(x)
    {
      evaluate(OutputPass(ws, x).1, labels)
    }

    /** The hidden part of the forward pass: each hidden layer in insertion order, fed the previous
        layer's signal (the network input for the first), one recorded pair per layer. */
    method HiddenForward(x: Matrix) returns (pairs: seq<(Matrix, Matrix)>, nextInputs: Matrix)
      requires Shaped() && Fits(x)
      ensures old(Valid()) ==> Valid()
      ensures WeightsOf(AllLayers()) == old(WeightsOf(AllLayers())) && Weighted(WeightsOf(AllLayers()))
      ensures pairs == ForwardPairs(feedforwardFuncs, WeightsOf(AllLayers()), x)
      ensures nextInputs == LastSignal(pairs, x)
      ensures IsMatrix(nextInputs, |x|, output.inDim)
    {
      CurrentWeighted();
      ghost var ws := WeightsOf(AllLayers());
      assert forall j :: 0 <= j < |feedforwardFuncs| ==> ws[j] == feedforwardFuncs[j].weights by {
        assert forall j :: 0 <= j < |feedforwardFuncs| ==> AllLayers()[j] == feedforwardFuncs[j];
      }
      pairs, nextInputs := RunForward(feedforwardFuncs, ws, x);
      if |pairs| > 0 {
        assert feedforwardFuncs[|pairs| - 1].outDim == output.inDim;
      }
    }

    /** Runs every layer forward: the hidden layers, then the output layer fed the last hidden signal,
        whose outputs are evaluated; stores the loss only when asked to. */
    method FwdPass(x: Matrix, labels: Labels.LabelMatrix, updateLoss: bool)
      returns (pairs: seq<(Matrix, Matrix)>, finalSignals: Matrix, preGradient: Matrix, entropy: Loss)
      requires Shaped() && Fits(x)
      modifies this`loss
      ensures old(Valid()) ==> Valid()
      ensures Weighted(WeightsOf(AllLayers()))
      ensures pairs == ForwardPairs(feedforwardFuncs, WeightsOf(AllLayers()), x)
      ensures finalSignals == OutputPass(WeightsOf(AllLayers()), x).0
      ensures (entropy, preGradient) == Evaluation(WeightsOf(AllLayers()), x, labels)
      ensures loss == if updateLoss then entropy else old(loss)
    {
      var nextInputs;
      pairs, nextInputs := HiddenForward(x);
      ghost var ws := WeightsOf(AllLayers());
      assert ws[|feedforwardFuncs|] == output.weights;
      var final := output.FeedForward(output.weights, nextInputs);
      assert final == OutputPass(ws, x);
      finalSignals := final.0;
      var entropyGradient := evaluate(final.1, labels);
      if updateLoss {
        StoreLoss(entropyGradient.0);
      }
      preGradient := entropyGradient.1;
      entropy := entropyGradient.0;
      assert WeightsOf(AllLayers()) == ws;
    }

    /** Stores the loss; nothing else changes. */
    method StoreLoss(l: Loss)
      modifies this`loss
      ensures loss == l
      ensures old(Valid()) ==> Valid()
      ensures feedforwardFuncs == old(feedforwardFuncs) && WeightsOf(AllLayers()) == old(WeightsOf(AllLayers()))
    {
      loss := l;
    }

    /** With weights `ws`, the gradients of the backward pass: the output layer's first, then the
        hidden layers from the last to the first, each of its layer's output width. */
    function Gradients(ws: seq<Matrix>, pairs: seq<(Matrix, Matrix)>, finalSignals: Matrix, preGradient: Matrix): (gs: seq<Matrix>)
      reads this`feedforwardFuncs
      requires Weighted(ws) && Wired() && SignalsFit(feedforwardFuncs, pairs, |finalSignals|)
      requires IsMatrix(finalSignals, |finalSignals|, output.outDim) && IsMatrix(preGradient, |finalSignals|, output.outDim)
      ensures |gs| == |feedforwardFuncs| + 1
      ensures forall j :: 0 <= j <= |feedforwardFuncs| ==> IsMatrix(gs[|feedforwardFuncs| - j], |finalSignals|, AllLayers()[j].outDim)
    {
      var seed := output.SeedBackProp(ws[|feedforwardFuncs|], finalSignals, preGradient);
      [seed.0] + Backward(feedforwardFuncs, ws, pairs, seed.1, 0).0
    }

    /** Position 0 of the gradients comes from the output layer's seeding step; position `H - j`
        (H hidden layers) is hidden layer `j`'s own gradient, computed from its recorded signal and
        the transformed gradient of the layer after it. */
    lemma {:induction false} GradientOfLayer(ws: seq<Matrix>, pairs: seq<(Matrix, Matrix)>, finalSignals: Matrix, preGradient: Matrix, j: nat)
      requires Weighted(ws) && Wired() && SignalsFit(feedforwardFuncs, pairs, |finalSignals|)
      requires IsMatrix(finalSignals, |finalSignals|, output.outDim) && IsMatrix(preGradient, |finalSignals|, output.outDim)
      requires j < |feedforwardFuncs|
      ensures Gradients(ws, pairs, finalSignals, preGradient)[0]
              == output.SeedBackProp(ws[|feedforwardFuncs|], finalSignals, preGradient).0
      ensures Gradients(ws, pairs, finalSignals, preGradient)[|feedforwardFuncs| - j]
              == feedforwardFuncs[j].BackPropagate(ws[j], pairs[j].0,
                   Backward(feedforwardFuncs, ws, pairs,
                     output.SeedBackProp(ws[|feedforwardFuncs|], finalSignals, preGradient).1, j + 1).1).0
    {
      var seed := output.SeedBackProp(ws[|feedforwardFuncs|], finalSignals, preGradient);
      BackwardAt(feedforwardFuncs, ws, pairs, seed.1, 0, j);
    }

    /** Runs every layer backward: the output layer's seeding step on the final signals and the loss
        gradient, then the hidden layers from the last to the first, each given its own recorded
        signal and the transformed gradient handed back by the layer after it. */
    method BwdPass(pairs: seq<(Matrix, Matrix)>, finalSignals: Matrix, preGradient: Matrix) returns (gradients: seq<Matrix>)
      requires Shaped() && Wired() && SignalsFit(feedforwardFuncs, pairs, |finalSignals|)
      requires IsMatrix(finalSignals, |finalSignals|, output.outDim) && IsMatrix(preGradient, |finalSignals|, output.outDim)
      ensures old(Valid()) ==> Valid()
      ensures WeightsOf(AllLayers()) == old(WeightsOf(AllLayers())) && Weighted(WeightsOf(AllLayers()))
      ensures gradients == Gradients(WeightsOf(AllLayers()), pairs, finalSignals, preGradient)
    {
      CurrentWeighted();
      ghost var ws := WeightsOf(AllLayers());
      var signals := finalSignals;
      var gradientTgradient := output.SeedBackProp(output.weights, signals, preGradient);
      ghost var seed := gradientTgradient;
      assert seed == output.SeedBackProp(ws[|feedforwardFuncs|], finalSignals, preGradient);
      var gradient := gradientTgradient.0;
      var tgradient := gradientTgradient.1;
      gradients := [gradient];
      var i := |pairs|;
      while i > 0
        invariant 0 <= i <= |feedforwardFuncs|
        invariant gradients == [seed.0] + Backward(feedforwardFuncs, ws, pairs, seed.1, i).0
        invariant tgradient == Backward(feedforwardFuncs, ws, pairs, seed.1, i).1
      {
        assert ws[i - 1] == backpropFuncs[i - 1].weights;
        signals := pairs[i - 1].0;
        gradientTgradient := backpropFuncs[i - 1].BackPropagate(backpropFuncs[i - 1].weights, signals, tgradient);
        gradient := gradientTgradient.0;
        tgradient := gradientTgradient.1;
        gradients := gradients + [gradient];
        i := i - 1;
      }
    }

    /** Conversely, agreeing pipelines whose layers, the output layer included, are distinct and
        keep their shapes make the network valid. */
    lemma {:induction false} ValidFromLayers()
      requires backpropFuncs == feedforwardFuncs && updateFuncs == feedforwardFuncs
      requires Distinct(AllLayers()) && LayersValid(AllLayers())
      ensures Valid()
    {
      var all := AllLayers();
      assert forall j :: 0 <= j < |feedforwardFuncs| ==> all[j] == feedforwardFuncs[j];
      assert all[|feedforwardFuncs|] == output;
      DistinctAppend(feedforwardFuncs, output);
    }

    /** Under Valid, all layers, the output layer included, are distinct and keep their shapes. */
    lemma {:induction false} AllLayersValid()
      requires Valid()
      ensures Distinct(AllLayers()) && LayersValid(AllLayers())
    {
      var all := AllLayers();
      assert forall j :: 0 <= j < |feedforwardFuncs| ==> all[j] == feedforwardFuncs[j];
      assert all[|feedforwardFuncs|] == output;
      DistinctAppend(feedforwardFuncs, output);
    }

    /** The update pass can hand every layer it updates, one more than there are outputs, its input
        and its gradient. */
    predicate UpdateFits(outputs: seq<Matrix>, gradients: seq<Matrix>)
      reads this`feedforwardFuncs
    {
      StepsFit(AllLayers(), inputs, outputs, gradients)
    }

    /** The weights each updated layer `j` is to have after the update pass, starting from weights
        `ws`: one gradient-descent step from `ws[j]` on its input and its gradient. */
    function UpdateTargets(ws: seq<Matrix>, outputs: seq<Matrix>, gradients: seq<Matrix>, lr: real): (ts: seq<Matrix>)
      reads this`feedforwardFuncs
      requires Weighted(ws) && UpdateFits(outputs, gradients)
      ensures |ts| == |outputs| + 1
      ensures forall j {:trigger ts[j]} :: 0 <= j <= |outputs| ==>
                ts[j] == AllLayers()[j].StepFrom(ws[j], LayerInput(inputs, outputs, j), gradients[|gradients| - 1 - j], lr)
    {
      LayersWeightsFit(ws);
      StepsAll(AllLayers(), ws, inputs, outputs, gradients, lr, |outputs| + 1);
      Steps(AllLayers(), ws, inputs, outputs, gradients, lr, |outputs| + 1)
    }

    /** Weights that fit the network fit its pipeline of all layers. */
    lemma LayersWeightsFit(ws: seq<Matrix>)
      requires Weighted(ws)
      ensures WeightsFit(AllLayers(), ws)
    {
      assert forall j :: 0 <= j < |feedforwardFuncs| ==> AllLayers()[j] == feedforwardFuncs[j];
    }

    /** Updates the layers' weights: with a negative learning rate it fails before touching anything;
        otherwise the output layer is appended to the update pipeline for the duration of the calls,
        the layers given inputs take their steps and the others keep their weights. */
    method UpdateNetwork(outputs: seq<Matrix>, gradients: seq<Matrix>, lr: real) returns (outcome: Outcome)
      requires Valid() && (lr >= 0.0 ==> UpdateFits(outputs, gradients))
      modifies this`updateFuncs, AllLayers()
      ensures Valid()
      ensures updateFuncs == old(updateFuncs) && feedforwardFuncs == old(feedforwardFuncs) && loss == old(loss)
      ensures outcome == if lr < 0.0 then Fail(InvalidArgument(NegativeRateMessage)) else Pass
      ensures lr < 0.0 ==> WeightsOf(AllLayers()) == old(WeightsOf(AllLayers()))
      ensures lr >= 0.0 ==> Weighted(old(WeightsOf(AllLayers()))) && forall j :: 0 <= j <= |outputs| ==>
                AllLayers()[j].weights == UpdateTargets(old(WeightsOf(AllLayers())), outputs, gradients, lr)[j]
      ensures lr >= 0.0 ==> forall j :: |outputs| < j < |AllLayers()| ==> AllLayers()[j].weights == old(WeightsOf(AllLayers()))[j]
    {
      if lr < 0.0 {
        return Fail(InvalidArgument(NegativeRateMessage));
      }
      UpdateLayers(outputs, gradients, lr);
      return Pass;
    }

    /** The update pass proper: the output layer is appended to the update pipeline for the duration
        of the calls, the layers given inputs take their steps and the others keep their weights. */
    method UpdateLayers(outputs: seq<Matrix>, gradients: seq<Matrix>, lr: real)
      requires Valid() && UpdateFits(outputs, gradients)
      modifies this`updateFuncs, AllLayers()
      ensures Valid()
      ensures updateFuncs == old(updateFuncs) && feedforwardFuncs == old(feedforwardFuncs) && loss == old(loss)
      ensures Weighted(old(WeightsOf(AllLayers()))) && forall j :: 0 <= j <= |outputs| ==>
                AllLayers()[j].weights == UpdateTargets(old(WeightsOf(AllLayers())), outputs, gradients, lr)[j]
      ensures forall j :: |outputs| < j < |AllLayers()| ==> AllLayers()[j].weights == old(WeightsOf(AllLayers()))[j]
    {
      ghost var ff := feedforwardFuncs;
      ghost var ls := AllLayers();
      ghost var ws := WeightsOf(ls);
      AllLayersValid();
      CurrentWeighted();
      ghost var targets := UpdateTargets(ws, outputs, gradients, lr);
      var pipeline := updateFuncs + [output];
      updateFuncs := pipeline;
      assert pipeline == ls;
      StepLayers(pipeline, inputs, outputs, gradients, lr, ws, targets);
      updateFuncs := pipeline[..|pipeline| - 1];
      assert feedforwardFuncs == ff && updateFuncs == ff;
      assert AllLayers() == ls;
      ValidFromLayers();
    }

    /** With weights `ws`, the gradients a training step on `x` and `labels` computes, one per layer,
        the output layer's first. */
    function TrainGradients(ws: seq<Matrix>, x: Matrix, labels: Labels.LabelMatrix): (gs: seq<Matrix>)
      reads this`feedforwardFuncs
      requires Weighted(ws) && Fits(x)
      ensures |gs| == |feedforwardFuncs| + 1
      ensures forall j :: 0 <= j <= |feedforwardFuncs| ==> IsMatrix(gs[|feedforwardFuncs| - j], |x|, AllLayers()[j].outDim)
    {
      var o := OutputPass(ws, x);
      var e := Evaluation(ws, x, labels);
      assert SameShape(e.1, o.1);
      Gradients(ws, ForwardPairs(feedforwardFuncs, ws, x), o.0, e.1)
    }

    /** A training step on `x` can hand every layer its input and its gradient, provided the stored
        default inputs have the rows of `x` and the first layer's input width. */
    lemma {:induction false} TrainFits(ws: seq<Matrix>, x: Matrix, labels: Labels.LabelMatrix)
      requires Weighted(ws) && Fits(x) && IsMatrix(inputs, |x|, AllLayers()[0].inDim)
      ensures UpdateFits(Outputs(ForwardPairs(feedforwardFuncs, ws, x)), TrainGradients(ws, x, labels))
    {
      var outs := Outputs(ForwardPairs(feedforwardFuncs, ws, x));
      var gs := TrainGradients(ws, x, labels);
      forall j | 0 <= j <= |outs|
        ensures IsMatrix(LayerInput(inputs, outs, j), |x|, AllLayers()[j].inDim)
        ensures IsMatrix(gs[|feedforwardFuncs| - j], |x|, AllLayers()[j].outDim)
      {
        TrainGradientShape(ws, x, labels, j);
        if 0 < j {
          TrainInputShape(ws, x, j);
        }
      }
      UpdateFitsIntro(outs, gs, |x|);
    }

    /** Inputs and gradients of the right widths, all with the same rows, fit the update pass. */
    lemma {:induction false} UpdateFitsIntro(outs: seq<Matrix>, gs: seq<Matrix>, rows: nat)
      requires |outs| == |feedforwardFuncs| && |gs| == |feedforwardFuncs| + 1
      requires forall j :: 0 <= j <= |outs| ==> IsMatrix(LayerInput(inputs, outs, j), rows, AllLayers()[j].inDim)
      requires forall j :: 0 <= j <= |outs| ==> IsMatrix(gs[|feedforwardFuncs| - j], rows, AllLayers()[j].outDim)
      ensures UpdateFits(outs, gs)
    {
    }

    /** The gradient a training step lists for layer `j` has the rows of `x` and that layer's output width. */
    lemma {:induction false} TrainGradientShape(ws: seq<Matrix>, x: Matrix, labels: Labels.LabelMatrix, j: nat)
      requires Weighted(ws) && Fits(x) && j <= |feedforwardFuncs|
      ensures IsMatrix(TrainGradients(ws, x, labels)[|feedforwardFuncs| - j], |x|, AllLayers()[j].outDim)
    {
    }

    /** The output recorded for layer `j - 1` has the rows of `x` and the input width of layer `j`. */
    lemma {:induction false} TrainInputShape(ws: seq<Matrix>, x: Matrix, j: nat)
      requires Weighted(ws) && Fits(x) && 0 < j <= |feedforwardFuncs|
      ensures IsMatrix(ForwardPairs(feedforwardFuncs, ws, x)[j - 1].1, |x|, AllLayers()[j].inDim)
    {
      assert j < |feedforwardFuncs| ==> LinkedAt(feedforwardFuncs, j);
      assert AllLayers()[j - 1] == feedforwardFuncs[j - 1];
    }

    /** The weights a training step with rate `lr` gives each layer, starting from weights `ws`. */
    function TrainTargets(ws: seq<Matrix>, x: Matrix, labels: Labels.LabelMatrix, lr: real): (ts: seq<Matrix>)
      reads this`feedforwardFuncs
      requires Weighted(ws) && Fits(x) && IsMatrix(inputs, |x|, AllLayers()[0].inDim)
      ensures |ts| == |AllLayers()|
    {
      TrainFits(ws, x, labels);
      UpdateTargets(ws, Outputs(ForwardPairs(feedforwardFuncs, ws, x)), TrainGradients(ws, x, labels), lr)
    }

    /** The input a training step on `x` gives layer `j` in its update: the stored default inputs for
        the first layer (not `x`), otherwise the activated output of the layer before it. */
    function TrainInput(ws: seq<Matrix>, x: Matrix, j: nat): Matrix
      reads this`feedforwardFuncs
      requires Weighted(ws) && Fits(x) && j <= |feedforwardFuncs|
    {
      if j == 0 then inputs else ForwardPairs(feedforwardFuncs, ws, x)[j - 1].1
    }

    /** Layer `j`'s weights after a training step from weights `ws`: one gradient-descent step from
        `ws[j]` on its training input and on the gradient the backward pass lists for it. */
    lemma {:induction false} TrainTargetAt(ws: seq<Matrix>, x: Matrix, labels: Labels.LabelMatrix, lr: real, j: nat)
      requires Weighted(ws) && Fits(x) && IsMatrix(inputs, |x|, AllLayers()[0].inDim) && j <= |feedforwardFuncs|
      ensures IsMatrix(TrainInput(ws, x, j), |x|, AllLayers()[j].inDim) && AllLayers()[j].WeightShape(ws[j])
      ensures IsMatrix(TrainGradients(ws, x, labels)[|feedforwardFuncs| - j], |x|, AllLayers()[j].outDim)
      ensures TrainTargets(ws, x, labels, lr)[j]
              == AllLayers()[j].StepFrom(ws[j], TrainInput(ws, x, j), TrainGradients(ws, x, labels)[|feedforwardFuncs| - j], lr)
    {
      TrainFits(ws, x, labels);
      TrainGradientShape(ws, x, labels, j);
      TrainInputIsLayerInput(ws, x, j);
      var gs := TrainGradients(ws, x, labels);
      assert |gs| - 1 - j == |feedforwardFuncs| - j;
      assert TrainTargets(ws, x, labels, lr) == UpdateTargets(ws, Outputs(ForwardPairs(feedforwardFuncs, ws, x)), gs, lr);
    }

    /** The training input of layer `j` is what the update pass hands that layer. */
    lemma TrainInputIsLayerInput(ws: seq<Matrix>, x: Matrix, j: nat)
      requires Weighted(ws) && Fits(x) && j <= |feedforwardFuncs|
      ensures TrainInput(ws, x, j) == LayerInput(inputs, Outputs(ForwardPairs(feedforwardFuncs, ws, x)), j)
    {
      var pairs := ForwardPairs(feedforwardFuncs, ws, x);
      if 0 < j {
        assert Outputs(pairs)[j - 1] == pairs[j - 1].1;
      }
    }

    /** With weights `ws`, the output layer's seeding step in a training step on `x` and `labels`:
        its own gradient and the transformed gradient it hands back to the last hidden layer. */
    function TrainSeed(ws: seq<Matrix>, x: Matrix, labels: Labels.LabelMatrix): (seed: (Matrix, Matrix))
      reads this`feedforwardFuncs
      requires Weighted(ws) && Fits(x)
      ensures IsMatrix(seed.0, |x|, output.outDim) && IsMatrix(seed.1, |x|, output.inDim)
    {
      var o := OutputPass(ws, x);
      var e := Evaluation(ws, x, labels);
      assert SameShape(e.1, o.1);
      output.SeedBackProp(ws[|feedforwardFuncs|], o.0, e.1)
    }

    /** The gradient layer `j` computes for itself in a training step from weights `ws`: the output
        layer's seeding gradient, or hidden layer `j`'s backward step on its own recorded signal and
        on the transformed gradient handed back by the layer after it. */
    function OwnGradient(ws: seq<Matrix>, x: Matrix, labels: Labels.LabelMatrix, j: nat): (g: Matrix)
      reads this`feedforwardFuncs
      requires Weighted(ws) && Fits(x) && j <= |feedforwardFuncs|
      ensures IsMatrix(g, |x|, AllLayers()[j].outDim)
    {
      var seed := TrainSeed(ws, x, labels);
      if j == |feedforwardFuncs| then seed.0
      else
        var pairs := ForwardPairs(feedforwardFuncs, ws, x);
        assert |feedforwardFuncs| > 0 && feedforwardFuncs[|feedforwardFuncs| - 1].outDim == output.inDim;
        feedforwardFuncs[j].BackPropagate(ws[j], pairs[j].0, Backward(feedforwardFuncs, ws, pairs, seed.1, j + 1).1).0
    }

    /** The gradient a training step from weights `ws` lists for layer `j` (at position `H - j`, H
        hidden layers) is the one that layer computes for itself. */
    lemma {:induction false} TrainGradientAt(ws: seq<Matrix>, x: Matrix, labels: Labels.LabelMatrix, j: nat)
      requires Weighted(ws) && Fits(x) && j <= |feedforwardFuncs|
      ensures TrainGradients(ws, x, labels)[|feedforwardFuncs| - j] == OwnGradient(ws, x, labels, j)
    {
      var o := OutputPass(ws, x);
      var e := Evaluation(ws, x, labels);
      assert SameShape(e.1, o.1);
      var pairs := ForwardPairs(feedforwardFuncs, ws, x);
      if j < |feedforwardFuncs| {
        GradientOfLayer(ws, pairs, o.0, e.1, j);
      } else {
        var seed := output.SeedBackProp(ws[|feedforwardFuncs|], o.0, e.1);
        assert Gradients(ws, pairs, o.0, e.1)[0] == seed.0;
      }
    }

    /** In a training step from weights `ws` every layer takes one gradient-descent step on its own
        training input and on the gradient it computed itself in the backward pass. */
    lemma {:induction false} TrainStepsEachLayer(ws: seq<Matrix>, x: Matrix, labels: Labels.LabelMatrix, lr: real, j: nat)
      requires Weighted(ws) && Fits(x) && IsMatrix(inputs, |x|, AllLayers()[0].inDim) && j <= |feedforwardFuncs|
      ensures IsMatrix(TrainInput(ws, x, j), |x|, AllLayers()[j].inDim)
      ensures TrainTargets(ws, x, labels, lr)[j]
              == AllLayers()[j].StepFrom(ws[j], TrainInput(ws, x, j), OwnGradient(ws, x, labels, j), lr)
    {
      TrainTargetAt(ws, x, labels, lr, j);
      TrainGradientAt(ws, x, labels, j);
    }

    /** Collects the output half of each recorded pair, in order. */
    method CollectOutputs(pairs: seq<(Matrix, Matrix)>) returns (outputs: seq<Matrix>)
      ensures old(Valid()) ==> Valid()
      ensures WeightsOf(AllLayers()) == old(WeightsOf(AllLayers()))
      ensures outputs == Outputs(pairs)
    {
      outputs := [];
      var i := 0;
      while i < |pairs|
        invariant 0 <= i <= |pairs| && |outputs| == i
        invariant forall k :: 0 <= k < i ==> outputs[k] == pairs[k].1
      {
        outputs := outputs + [pairs[i].1];
        i := i + 1;
      }
      assert outputs == Outputs(pairs);
    }

    /** The forward and backward passes of a training step, storing the loss, and the outputs
        collected from the recorded pairs in order. */
    method TrainPasses(ghost ws: seq<Matrix>, x: Matrix, labels: Labels.LabelMatrix) returns (outputs: seq<Matrix>, gradients: seq<Matrix>)
      requires Valid() && Fits(x) && ws == WeightsOf(AllLayers())
      modifies this`loss
      ensures Valid() && feedforwardFuncs == old(feedforwardFuncs) && WeightsOf(AllLayers()) == ws && Weighted(ws)
      ensures loss == Evaluation(ws, x, labels).0
      ensures outputs == Outputs(ForwardPairs(feedforwardFuncs, ws, x))
      ensures gradients == TrainGradients(ws, x, labels)
    {
      var pairs, finalSignals, preGradient, entropy := FwdPass(x, labels, true);
      assert WeightsOf(AllLayers()) == ws;
      ghost var o := OutputPass(ws, x);
      ghost var e := Evaluation(ws, x, labels);
      assert SameShape(e.1, o.1);
      assert pairs == ForwardPairs(feedforwardFuncs, ws, x);
      assert finalSignals == o.0 && preGradient == e.1;
      gradients := BwdPass(pairs, finalSignals, preGradient);
      assert WeightsOf(AllLayers()) == ws;
      assert TrainGradients(ws, x, labels) == Gradients(ws, pairs, o.0, e.1);
      outputs := CollectOutputs(pairs);
      assert WeightsOf(AllLayers()) == ws;
    }

    /** The update pass of a training step, after the forward and backward passes on `x` from
        weights `ws`: it fails on a negative learning rate with every weight kept, and otherwise
        leaves every layer at its training target. */
    method UpdateAfterPasses(ghost ws: seq<Matrix>, x: Matrix, labels: Labels.LabelMatrix,
                             outputs: seq<Matrix>, gradients: seq<Matrix>, lr: real) returns (outcome: Outcome)
      requires Valid() && Fits(x) && (lr >= 0.0 ==> IsMatrix(inputs, |x|, AllLayers()[0].inDim))
      requires ws == WeightsOf(AllLayers()) && Weighted(ws)
      requires outputs == Outputs(ForwardPairs(feedforwardFuncs, ws, x)) && gradients == TrainGradients(ws, x, labels)
      modifies this`updateFuncs, AllLayers()
      ensures Valid() && feedforwardFuncs == old(feedforwardFuncs) && loss == old(loss)
      ensures outcome == if lr < 0.0 then Fail(InvalidArgument(NegativeRateMessage)) else Pass
      ensures lr < 0.0 ==> WeightsOf(AllLayers()) == ws
      ensures lr >= 0.0 ==> WeightsOf(AllLayers()) == TrainTargets(ws, x, labels, lr)
    {
      if lr >= 0.0 {
        TrainFits(ws, x, labels);
      }
      outcome := UpdateNetwork(outputs, gradients, lr);
      if outcome.Fail? {
        assert WeightsOf(AllLayers()) == ws;
        return;
      }
      ghost var ts := TrainTargets(ws, x, labels, lr);
      assert ts == UpdateTargets(ws, outputs, gradients, lr);
      WeightsAre(AllLayers(), ts);
    }

    /** A training step: the forward pass (storing the loss), the backward pass, and the update pass
        on the collected outputs. A negative learning rate fails after the loss is stored and before
        any weight changes; otherwise every layer takes its gradient-descent step and the stored
        loss is returned. */
    method Train(lr: real, x: Matrix, labels: Labels.LabelMatrix) returns (result: Result<Loss>)
      requires Valid() && Fits(x) && (lr >= 0.0 ==> IsMatrix(inputs, |x|, AllLayers()[0].inDim))
      modifies this`loss, this`updateFuncs, AllLayers()
      ensures Valid() && feedforwardFuncs == old(feedforwardFuncs) && Weighted(old(WeightsOf(AllLayers())))
      ensures loss == Evaluation(old(WeightsOf(AllLayers())), x, labels).0
      ensures result == if lr < 0.0 then Failure(InvalidArgument(NegativeRateMessage)) else Success(loss)
      ensures lr < 0.0 ==> WeightsOf(AllLayers()) == old(WeightsOf(AllLayers()))
      ensures lr >= 0.0 ==> WeightsOf(AllLayers()) == TrainTargets(old(WeightsOf(AllLayers())), x, labels, lr)
    {
      ghost var ws := WeightsOf(AllLayers());
      var outputs, gradients := TrainPasses(ws, x, labels);
      var outcome := UpdateAfterPasses(ws, x, labels, outputs, gradients, lr);
      if outcome.Fail? {
        return Failure(outcome.error);
      }
      return Success(loss);
    }

    /** A training step on the stored default inputs and labels. */
    method TrainOnDefaults(lr: real) returns (result: Result<Loss>)
      requires Valid() && Fits(inputs)
      modifies this`loss, this`updateFuncs, AllLayers()
      ensures Valid() && feedforwardFuncs == old(feedforwardFuncs) && Weighted(old(WeightsOf(AllLayers())))
      ensures loss == Evaluation(old(WeightsOf(AllLayers())), inputs, oneHotLabels).0
      ensures result == if lr < 0.0 then Failure(InvalidArgument(NegativeRateMessage)) else Success(loss)
      ensures lr < 0.0 ==> WeightsOf(AllLayers()) == old(WeightsOf(AllLayers()))
      ensures lr >= 0.0 ==> WeightsOf(AllLayers()) == TrainTargets(old(WeightsOf(AllLayers())), inputs, oneHotLabels, lr)
    {
      result := Train(lr, inputs, oneHotLabels);
    }

    /** Evaluates the network on `x` and `labels` without storing the loss or touching any weight. */
    method Test(x: Matrix, labels: Labels.LabelMatrix) returns (entropy: Loss)
      requires Valid() && Fits(x)
      modifies this`loss
      ensures loss == old(loss) && Weighted(WeightsOf(AllLayers()))
      ensures entropy == Evaluation(WeightsOf(AllLayers()), x, labels).0
    {
      var pairs, finalSignals, preGradient;
      pairs, finalSignals, preGradient, entropy := FwdPass(x, labels, false);
    }
  }
}
