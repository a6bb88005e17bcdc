# Neural-network-from-scratch, modelled in Dafny

This project models the core of a small C++ library for training feedforward neural networks on
dense matrices. It covers four parts:

- **Layer.** A linear layer holds a weight matrix of shape `(inDim + 1) x outDim`, whose last row is
  the bias. It has a forward step (augment the inputs with a column of ones, multiply, activate), a
  backward step for hidden layers, a seeding backward step for the output layer, and an in-place
  gradient-descent update. A plain layer is one whose activation is the identity.
- **Network.** The network keeps three parallel pipelines of hidden layers, one each for the forward,
  backward and update steps; each entry stands for a closure capturing a layer by reference. It also
  has a fixed output layer, stored default data and a stored loss. A training step runs a forward
  pass, evaluates the loss, runs a backward pass and then an update pass.
- **Labels.** A codec converts between class indices and one-hot boolean matrices.
- **Reader.** A table reader uses a row buffer that doubles when full.

Modules:

| file | module | models |
|---|---|---|
| `matrices.dfy` | `Matrices` | the dense-matrix primitives the code is written against (product, transpose, elementwise maps), over `real` |
| `results.dfy` | `Results` | `std::invalid_argument` as `Error`, plus `Result`/`Outcome` for the error paths |
| `layers.dfy` | `Layers` | `include/layers.h`: class `LinearLayer`, with `Plain` as `PlainLinearLayer` |
| `net.dfy` | `Net` | `include/net.h`: class `FeedFwdNN`, which includes the `MultiClassNN` constructor |
| `labels.dfy` | `Labels` | `include/labels.h` |
| `input.dfy` | `Input` | `input.h` |

The layer's pure computations are functions that take the weights as an explicit argument. Only
`UpdateWeights` changes the layer. Each network operation is a method. It is proved against
specification functions (`ForwardPairs`, `Gradients`, `UpdateTargets`, `TrainTargets`).

### Behaviour of the code worth knowing

- **The hidden-layer backward step ignores its incoming gradient when handing back.** The output
  layer's `seedBackProp` applies the chain rule (`include/layers.h:54-55`): it multiplies the
  derivatives by the loss gradient and then transforms that product. A hidden layer's
  `backPropagate` computes the same product as its own gradient (`include/layers.h:42`). But it hands
  back `transformGradient(diff_signals)` (`include/layers.h:43`), the derivatives alone times `Wᵗ`.
  So the gradient a hidden layer receives never reaches the layer before it. The model follows the
  code (`BackPropagate`); `BackPropagateEntries` and `PlainBackPropagate` prove what this means.
- **The first layer is updated on the stored default inputs.** The doc comment of `train` describes
  `curr_inputs` as "Inputs to train on" (`include/net.h:37`) and says the call "Will update weights
  of every constituent layer" (`include/net.h:34`). The first layer's update, however, gets the
  network's stored `inputs` (`include/net.h:191`), not `curr_inputs`. The model does the same
  (`LayerInput`, `TrainInput`). As a result, a training step requires the stored inputs to have the
  rows of the training batch.
- **A negative learning rate fails late.** A `train` with a negative learning rate first runs the
  forward and backward passes and stores the new loss. Only then does it throw, before any weight
  changes (`include/net.h:42-50` together with `185-187`). `Train` states exactly this.

## Model

| member | source | states |
|---|---|---|
| `Layers.LinearLayer.constructor` | include/layers.h:72-78 | a layer starts with the given dimensions and activation pair and with weights of shape `(inDim + 1) x outDim` |
| `Layers.LinearLayer.Plain` | include/layers.h:117-129 | the plain layer has the identity activation and the constant-one derivative |
| `Layers.LinearLayer.AugmentOne` | include/layers.h:86-97 | the augmented batch has the batch's rows and one column more than the layer's input width |
| `Layers.LinearLayer.FeedForward` | include/layers.h:25-34 | the signals and the outputs both have the batch's rows and the layer's output width |
| `Layers.LinearLayer.TransformGradient` | include/layers.h:81-83 | the gradient handed back has the gradient's rows and the layer's input width (the bias row is dropped) |
| `Layers.LinearLayer.SeedBackProp` | include/layers.h:50-59 | the corrected gradient has the signals' shape; what goes back has the layer's input width |
| `Layers.LinearLayer.BackPropagate` | include/layers.h:37-46 | the local gradient has the signals' shape; what goes back has the layer's input width |
| `Layers.LinearLayer.StepFrom` | include/layers.h:62-66 | a gradient-descent step keeps the weight shape `(inDim + 1) x outDim` |
| `Layers.LinearLayer.AugmentOneEntries` | include/layers.h:86-97 | each augmented row is the input row followed by a single `1` |
| `Layers.LinearLayer.FeedForwardEntries` | include/layers.h:25-34 | signal `(i, j)` is input row `i` against the non-bias part of weight column `j`, plus bias `j`; output `(i, j)` is the activation of that signal |
| `Layers.LinearLayer.AffineWithBias` | include/layers.h:26-28 | the product of the augmented inputs and the weights splits into the input part and the bias row |
| `Layers.LinearLayer.TransformGradientEntries` | include/layers.h:81-83 | entry `(i, k)` of the gradient handed back is gradient row `i` against weight row `k`; the bias row is never used |
| `Layers.LinearLayer.SeedBackPropEntries` | include/layers.h:50-59 | the output layer's gradient is the derivative at the signal times the loss gradient, entry by entry; what it hands back is that gradient against each non-bias weight row |
| `Layers.LinearLayer.BackPropagateEntries` | include/layers.h:37-46 | a hidden layer's gradient is the derivative times the incoming gradient; what it hands back is built from the derivatives alone and does not depend on the incoming gradient |
| `Layers.LinearLayer.StepWeightAt` | include/layers.h:62-66 | one update moves non-bias weight `(k, c)` by `lr` times the correlation of input column `k` with gradient column `c` |
| `Layers.LinearLayer.StepBiasAt` | include/layers.h:62-66 | one update moves the bias of column `c` by `lr` times the sum of gradient column `c` |
| `Layers.LinearLayer.StepFromZeroRate` | include/layers.h:62-66 | an update with learning rate zero leaves the weights unchanged |
| `Layers.LinearLayer.UpdateWeights` | include/layers.h:62-69 | the weights become one gradient-descent step from the old weights and keep their shape; nothing else in the layer changes |
| `Layers.LinearLayer.PlainFeedForward` | include/layers.h:122-124 | in a plain layer the outputs equal the signals |
| `Layers.LinearLayer.PlainSeedBackProp` | include/layers.h:126-128 | in a plain output layer the seeded gradient is the loss gradient itself |
| `Layers.LinearLayer.PlainBackPropagate` | include/layers.h:37-46 | in a plain hidden layer the local gradient is the incoming one; every row handed back holds the sums of the non-bias weight rows, whatever came in |
| `Labels.ToIndices` | include/labels.h:21-31 | decoding gives one index per row, with no check that the row is one-hot; what each index is, `OneHotRowIndex`, `AllFalseRowDecodesToZero` and `SeveralTruesOutOfRange` state |
| `Labels.OneHotRowIndex` | include/labels.h:21-31 | multiplying a one-hot row by the index vector `0 .. n-1` gives the column of its true entry (for the index vector, see `Labels.ToIndices` under Left out) |
| `Labels.AllFalseRowDecodesToZero` | include/labels.h:21-31 | a row with no true entry decodes to class `0`, without any error |
| `Labels.SeveralTruesOutOfRange` | include/labels.h:21-31 | a row with several true entries decodes to the sum of their columns, which can fall outside the class range |
| `Labels.MinCoeff` | include/labels.h:45 | the result is an entry of the vector and no entry is smaller |
| `Labels.MaxCoeff` | include/labels.h:48 | the result is an entry of the vector and no entry is larger |
| `Labels.ToOneHot` | include/labels.h:44-65 | a negative index fails with the first message; otherwise an index not below `numClasses` fails with the second message; otherwise the result is the one-hot matrix of the indices |
| `Labels.OneHotRows` | include/labels.h:52-62 | each row of the one-hot matrix has exactly one true entry, at its index |
| `Labels.WriteRow` | include/labels.h:59-60 | the write for row `r` sets entry `(r, v[r])` and leaves every other row unchanged |
| `Labels.ApplyWritesAt` | include/labels.h:57-62 | after the per-row writes performed in any order, entry `(r, c)` is set exactly when row `r` was written and `c` is its index |
| `Labels.AnyOrderYieldsOneHot` | include/labels.h:57-62 | any order of the per-row writes that covers every row yields the one-hot matrix, so the parallel fan-out cannot affect the result |
| `Labels.IndicesRoundTrip` | include/labels.h:21-65 | decoding the one-hot encoding of valid indices gives the indices back |
| `Labels.OneHotRoundTrip` | include/labels.h:21-65 | the indices of a one-hot matrix are valid, and encoding them gives the matrix back |
| `Input.AddRow` | input.h:12-18 | a full buffer is replaced by a fresh one with twice the rows and the same columns, holding the old rows; a buffer that is not full is kept |
| `Input.ReadData` | input.h:31-67 | the table has one row per line (one row for empty input); its width is the first line's length; each row is that many leading values of its line |
| `Net.FeedFwdNN.MultiClassNN` | include/net.h:111-128 | a new network stores its default data, output layer and evaluation, has empty pipelines and is valid |
| `Net.FeedFwdNN.PushLayer` | include/net.h:84-95 | the layer is appended to each of the three pipelines, and the network stays valid |
| `Net.FeedFwdNN.PopLayer` | include/net.h:97-101 | the last layer is removed from each of the three pipelines, and the network stays valid |
| `Net.FeedFwdNN.PushThenPop` | include/net.h:84-101 | pushing a layer and then popping it restores all three pipelines |
| `Net.DistinctAppend` | include/net.h:84-95 | appending a layer keeps the pipeline free of repeated layers exactly when the layer is new |
| `Net.ChainedAppend` | include/net.h:84-95 | appending a layer keeps the widths chained exactly when the layer takes the last output width |
| `Net.ForwardPairs` | include/net.h:137-142 | the forward pass records one (signal, output) pair per hidden layer, each with the batch's rows and its layer's output width |
| `Net.RunForward` | include/net.h:137-142 | the hidden loop records exactly the forward pairs and leaves the last signal as the next input |
| `Net.ForwardUpToAt` | include/net.h:137-142 | running more layers does not change the pairs already recorded |
| `Net.ForwardPairsAt` | include/net.h:137-142 | each hidden layer records its forward step on the previous layer's signal (not its output), and the first layer records its step on the network input |
| `Net.FeedFwdNN.HiddenForward` | include/net.h:137-142 | the hidden part of the forward pass changes no weight and ends on a signal of the output layer's input width |
| `Net.FeedFwdNN.FwdPass` | include/net.h:131-155 | the forward pass returns the recorded pairs, the output layer's signals and the evaluated loss and gradient; the loss is stored exactly when asked to; no weight changes |
| `Net.FeedFwdNN.StoreLoss` | include/net.h:149-151 | storing the loss changes nothing else |
| `Net.Backward` | include/net.h:170-178 | partway through the backward loop, one gradient per finished hidden layer, latest first, each of its layer's output width; the gradient handed on has the width the next layer down expects |
| `Net.BackwardAt` | include/net.h:170-178 | in the backward pass, hidden layer `j` contributes its own gradient, from its own recorded signal and the gradient handed back by layer `j + 1` |
| `Net.FeedFwdNN.GradientOfLayer` | include/net.h:163-178 | the gradient list starts with the output layer's seeded gradient; hidden layer `j`'s gradient sits `j` places from the end |
| `Net.FeedFwdNN.Gradients` | include/net.h:163-178 | one gradient per layer; the gradient for layer `j` sits `j` places from the end and has that layer's output width (which gradient it is, `GradientOfLayer` states) |
| `Net.FeedFwdNN.BwdPass` | include/net.h:159-181 | the backward pass returns exactly the specified gradient list and changes no weight |
| `Net.FeedFwdNN.UpdateTargets` | include/net.h:191-194 | the target of each updated layer `j` is one gradient-descent step from its weights, on its input and on the gradient `j` places from the back of the list |
| `Net.StepLayer` | include/net.h:191-193 | with distinct layers, one update call moves only its own layer's weights |
| `Net.StepsAt` | include/net.h:191-194 | layer `j` is given its input and the gradient `j` places from the back of the list, so forward-ordered outputs pair with reverse-ordered gradients |
| `Net.StepLayers` | include/net.h:191-194 | the update loop moves each of layers `0 .. |outputs|` to its step target and leaves the rest unchanged |
| `Net.FeedFwdNN.UpdateLayers` | include/net.h:189-196 | the output layer is appended for the calls and removed again; each updated layer reaches its target; the pipelines and the loss are unchanged |
| `Net.FeedFwdNN.UpdateNetwork` | include/net.h:184-197 | a negative rate fails with the source's message and changes no weight; otherwise every layer reaches its target |
| `Net.FeedFwdNN.CollectOutputs` | include/net.h:45-48 | the outputs are the second halves of the recorded pairs, in order |
| `Net.FeedFwdNN.TrainPasses` | include/net.h:42-48 | the forward and backward passes of a training step store the loss and return the outputs and gradients of the current weights |
| `Net.FeedFwdNN.UpdateAfterPasses` | include/net.h:50 | after the passes, a negative rate keeps every weight; otherwise the weights become the training targets |
| `Net.FeedFwdNN.TrainTargets` | include/net.h:41-53 | a training step gives every layer, the output layer included, one new weight matrix |
| `Net.FeedFwdNN.OwnGradient` | include/net.h:163-178 | the gradient layer `j` computes for itself has the batch's rows and that layer's output width |
| `Net.FeedFwdNN.TrainTargetAt` | include/net.h:41-53 | in a training step, each layer steps from its weights on its training input and on the gradient listed for it |
| `Net.FeedFwdNN.TrainGradientAt` | include/net.h:43 | the gradient listed for layer `j` is the one that layer computes for itself in the backward pass |
| `Net.FeedFwdNN.TrainStepsEachLayer` | include/net.h:41-53 | every layer, the output layer included, takes one gradient-descent step on its own input and its own gradient |
| `Net.FeedFwdNN.Train` | include/net.h:41-53 | the loss of the old weights is stored; a negative rate fails with every weight kept; otherwise every layer reaches its training target and the stored loss is returned |
| `Net.FeedFwdNN.TrainOnDefaults` | include/net.h:56-58 | a training step on the stored default inputs and labels |
| `Net.FeedFwdNN.Test` | include/net.h:67-71 | evaluates the current weights on the data without storing the loss |

## Left out

- The softmax cross-entropy loss (`MultiClassNN::evaluate`, include/loss.h) is not part of this model. The evaluation is a constructor parameter. The only assumption about it is that its gradient has the shape of the outputs.
- `float` arithmetic is modelled as exact `real` arithmetic: no rounding, infinities or NaN.
- The seeded random initial weights and `max_weight` are left out, because they come from the C library's random generator. A layer's initial weights are a constructor argument.
- The per-row parallel fan-out of `_toOneHotLabels` (utilities/paral.h) becomes sequential per-row writes. `AnyOrderYieldsOneHot` proves that their order does not matter; thread scheduling itself is not modelled.
- Reading and splitting lines from a `std::istream` is not modelled. The reader receives the lines already split into values.
- `Input.ReadData` requires each later line to hold at least as many values as the first line. What a short line leaves behind (the previous row's values, or a value from a failed extraction) depends on the stream library and is not modelled.
- `Labels.ToOneHot` requires a non-empty index vector. Eigen's `minCoeff` on an empty vector is undefined behaviour.
- `Labels.ToIndices` and `Labels.ToOneHot` take the index vectors to be `0 .. n-1`: the column vector that `_toIndicesLabels` multiplies by, and the row range over which `_toOneHotLabels` fans out. The code builds them with `setLinSpaced(0, n)` (`include/labels.h:26` and `utilities/paral.h:12`). Going by Eigen's documented rule for integer linear spacing (not checked here), that call gives `0 .. n-1` only for `n >= 3`. For `n == 2` it gives `[0, 2]`, and for `n == 1` it gives `[1]`. So for one or two classes a decode can differ, and for one or two rows the encode would write out of bounds and leave a row unset. The code's 32-bit `int` arithmetic is also unbounded `int` here: the row sums of `_toIndicesLabels` and the `(int)num_classes` cast of `include/labels.h:48`.
- `Net.FeedFwdNN.PopLayer` requires a non-empty pipeline. `pop_back` on an empty vector is undefined behaviour.
- `Net.FeedFwdNN.PushLayer` requires the layer to be new to the network. A layer pushed twice would be updated twice through aliased references, and the model keeps every layer distinct.
- `Net.FeedFwdNN.Train` requires the batch and the layers to have matching widths, and, for a non-negative rate, the stored inputs to have the rows of the batch. The C++ leaves these unchecked: a mismatch fails inside Eigen's assertions.
- Class hierarchy and closures are simplified:
  - The CRTP (Curiously Recurring Template Pattern) base classes are collapsed: `MultiClassNN` is the constructor of `FeedFwdNN`, and `PlainLinearLayer` is the `Plain` constructor of `LinearLayer`.
  - Each `std::function` closure is represented by the layer it captures.
- The `Array`/`Matrix` flavours of Eigen types, and the public wrappers that only choose one (`toIndicesLabels`, `toOneHotLabels`), are a single matrix type here.
- The constructor's `static_assert` (a compile-time check) and the driver in mlp.cpp are not part of this model.
