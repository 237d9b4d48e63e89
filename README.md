# dubiousdl training engine in Dafny

This project models the fixed-shape training engine of dubiousdl, a small Java library for
fully connected neural networks (package `com.dubiouscandle.dubiousdl`). It covers six classes:

- **Matrix** (`matrix.dfy`, with the value view `Dense.Mat` in `dense.dfy`): a row-major float buffer with fixed physical
  `rows`/`cols` and an O(1) `transposed` flag. On top of it sit bounds-checked `get`/`set`, `dot`,
  `hadamardProduct`, `addBroadcasted`, `sumOfCols`, `clear`, scaling, shifting, `set(Matrix)` and
  the copy helpers.
- **ActivationFunction** (`activation.dfy`): the nine element-wise activations and their
  derivatives, the checked `get`/`deriv` loops, and the in-place `softmax`.
- **LossFunction** (`loss.dfy`): softmax cross-entropy and binary cross-entropy per example, and
  the batch wrappers `getError` and `getLoss`.
- **Model** (`model.dfy`): the network constructor, the batch-width resizing copy, and
  `forwardPropagate`, which computes `z[l] = W[l]·a[l-1] + b[l]` and `a[l] = g[l](z[l])` layer by layer.
- **Adam** (`adam.dfy`, with the buffer roles in `buffers.dfy`): the optimiser. Its constructor
  allocates the gradient and moment buffers. `step` validates shapes, clears the scratch buffers,
  propagates forward, takes the loss error and backpropagates it layer by layer from L down to 1
  with the Adam update. It then advances the step counter `t`.
- **Batch** (`batch.dfy`): the mini-batch sampler. It keeps a cursor, runs an in-place
  Fisher–Yates shuffle of the (embedding, label) pairs, and loads each window into an input
  matrix and a one-hot target matrix.

Java `float` is modelled as `real`; the functions of `java.lang.Math` are uninterpreted
(`numerics.dfy`). Exceptions become `Outcome`/`Result` values (`errors.dfy`). Every mutating
operation is a method on a class with arrays. Its contract ties the new state to a specification
function on values: `Dense.Product`, `Models.Forward`, `Optimizers.Trained`, `Batches.Shuffled` and
the others in the table.

The central results are these:

- One Adam step computes exactly `Optimizers.Trained`: the forward pass, the loss error, then
  backpropagation with per-cell moment and parameter updates, with `t` advanced by one.
- A forward pass leaves `a[l] == Forward(W, b, g, input, l)` in every layer.
- A shuffle leaves the pairs equal to the recursive Fisher–Yates `Shuffled` of the old pairs, a
  permutation of them.
- `next` leaves the cursor at `Advanced(old index)` with the window loaded.

## Model

| member | source | states |
|---|---|---|
| Numerics.Exp | dubiousdl/src/com/dubiouscandle/dubiousdl/ActivationFunction.java:198 | Math.exp is positive; nothing else about it is assumed |
| Numerics.FDiv | dubiousdl/src/com/dubiouscandle/dubiousdl/LossFunction.java:152 | float division gives the exact quotient whenever the divisor is non-zero (x / 0 is left unspecified, as IEEE gives infinity or NaN) |
| Numerics.Max | dubiousdl/src/com/dubiouscandle/dubiousdl/ActivationFunction.java:188-194 | the running maximum bounds every element and is one of them |
| Numerics.Sigmoid | dubiousdl/src/com/dubiouscandle/dubiousdl/LossFunction.java:73 | 1 / (1 + exp(-z)) lies strictly between 0 and 1 |
| Numerics.SumNormalized | dubiousdl/src/com/dubiouscandle/dubiousdl/ActivationFunction.java:202-204 | dividing every element by the (non-zero) sum gives elements that sum to 1 |
| Numerics.MaxShifted | dubiousdl/src/com/dubiouscandle/dubiousdl/ActivationFunction.java:188-194 | shifting every element by c shifts the maximum by c |
| Dense.Mat.Offset | dubiousdl/src/com/dubiouscandle/dubiousdl/Matrix.java:37-43 | getIndex of an in-bounds logical (row, col) lies in [0, rows·cols), under either flag |
| Dense.IndexInjective | dubiousdl/src/com/dubiouscandle/dubiousdl/Matrix.java:37-43 | getIndex is one-to-one on the logical index space |
| Dense.Mat.Coords | dubiousdl/src/com/dubiouscandle/dubiousdl/Matrix.java:37-43 | every physical cell is the getIndex of some in-bounds logical (row, col), so getIndex is onto |
| Dense.CoordsOfOffset | dubiousdl/src/com/dubiouscandle/dubiousdl/Matrix.java:37-43 | Coords inverts getIndex |
| Dense.Mat.Transposed | dubiousdl/src/com/dubiouscandle/dubiousdl/Matrix.java:64-70 | transposing swaps the logical rows() and cols() and keeps the buffer well formed |
| Dense.TransposedGet | dubiousdl/src/com/dubiouscandle/dubiousdl/Matrix.java:33-35 | after transpose, get(r, c) is the old get(c, r), and transposing twice restores the view |
| Dense.Product | dubiousdl/src/com/dubiouscandle/dubiousdl/Matrix.java:72-89 | the product of an a×k and a k×b grid is a well-formed a×b grid |
| Dense.ProductGet | dubiousdl/src/com/dubiouscandle/dubiousdl/Matrix.java:80-87 | cell (i, j) of the product is Σ_k A(i, k)·B(k, j), summed in k order |
| Dense.ProductEquals | dubiousdl/src/com/dubiouscandle/dubiousdl/Matrix.java:72-89 | any untransposed grid of the product's shape whose cells are the sums is the product |
| Dense.ProductTransposed | dubiousdl/src/com/dubiouscandle/dubiousdl/Matrix.java:72-89 | (A·B)(i, j) = (Bᵀ·Aᵀ)(j, i) for every prefix of the sum |
| Dense.ProductOfOnes | dubiousdl/src/com/dubiouscandle/dubiousdl/Matrix.java:80-87 | a product of all-ones grids sums to its inner length in every cell |
| Dense.RowSumIsProductWithOnes | dubiousdl/src/com/dubiouscandle/dubiousdl/Matrix.java:202-208 | the row sums of sumOfCols are the product with a column of ones |
| Dense.Scaled | dubiousdl/src/com/dubiouscandle/dubiousdl/Matrix.java:127-131 | scaling keeps the layout and multiplies every cell |
| Dense.RowSums | dubiousdl/src/com/dubiouscandle/dubiousdl/Matrix.java:195-209 | the row-sum column is rows()×1 with cell i the sum of row i |
| Matrices.Matrix.constructor | dubiousdl/src/com/dubiouscandle/dubiousdl/Matrix.java:20-24 | a fresh rows×cols untransposed zero matrix |
| Matrices.Matrix.Copy | dubiousdl/src/com/dubiouscandle/dubiousdl/Matrix.java:26-31 | the copy has the same shape and flag and a fresh buffer equal to the source's |
| Matrices.Matrix.Transpose | dubiousdl/src/com/dubiouscandle/dubiousdl/Matrix.java:33-35 | the flag flips and the view becomes the transpose of the old view; the buffer is untouched |
| Matrices.Matrix.CheckIndex | dubiousdl/src/com/dubiouscandle/dubiousdl/Matrix.java:57-62 | passes exactly when (row, col) is inside the logical shape, otherwise IndexOutOfBounds |
| Matrices.Matrix.Get | dubiousdl/src/com/dubiouscandle/dubiousdl/Matrix.java:45-49 | Ok exactly in bounds, with the logical cell's value; IndexOutOfBounds otherwise |
| Matrices.Matrix.Set | dubiousdl/src/com/dubiouscandle/dubiousdl/Matrix.java:51-55 | in bounds, exactly the one cell changes; out of bounds, IndexOutOfBounds and nothing changes |
| Matrices.Matrix.Dot | dubiousdl/src/com/dubiouscandle/dubiousdl/Matrix.java:72-89 | IllegalArgument exactly when a.cols() ≠ b.rows() or result is not a.rows()×b.cols(), with result unchanged; otherwise result is the product |
| Matrices.Matrix.Clear | dubiousdl/src/com/dubiouscandle/dubiousdl/Matrix.java:91-95 | every cell becomes 0 |
| Matrices.Matrix.SetFrom | dubiousdl/src/com/dubiouscandle/dubiousdl/Matrix.java:115-125 | IllegalArgument unless the physical rows and cols agree; otherwise the raw buffer is copied |
| Matrices.Matrix.Multiply | dubiousdl/src/com/dubiouscandle/dubiousdl/Matrix.java:127-131 | every cell is multiplied by the factor |
| Matrices.Matrix.Add | dubiousdl/src/com/dubiouscandle/dubiousdl/Matrix.java:133-137 | every cell is shifted by the addend |
| Matrices.Matrix.AddBroadcasted | dubiousdl/src/com/dubiouscandle/dubiousdl/Matrix.java:139-158 | in branch order: a 1×cols() operand is added to every row, a rows()×1 operand to every column, a 1×1 operand everywhere; any other shape gives IllegalArgument with nothing changed |
| Matrices.Matrix.AddRowVector | dubiousdl/src/com/dubiouscandle/dubiousdl/Matrix.java:140-145 | cell (i, j) gains broadcast(0, j) |
| Matrices.Matrix.AddColumnVector | dubiousdl/src/com/dubiouscandle/dubiousdl/Matrix.java:146-151 | cell (i, j) gains broadcast(i, 0) |
| Matrices.Matrix.DeepClone | dubiousdl/src/com/dubiouscandle/dubiousdl/Matrix.java:160-166 | null maps to null; every other entry is a fresh copy with its own fresh buffer, equal in shape, flag and contents |
| Matrices.Matrix.HadamardProduct | dubiousdl/src/com/dubiouscandle/dubiousdl/Matrix.java:168-177 | IllegalArgument exactly on a logical shape mismatch, with a unchanged; otherwise a(i, j) becomes old a(i, j)·b(i, j) |
| Matrices.Matrix.CopyOf | dubiousdl/src/com/dubiouscandle/dubiousdl/Matrix.java:179-189 | a fresh newRows×newCols copy of the top-left block; IndexOutOfBounds exactly when a non-empty block reaches past the source |
| Matrices.Matrix.EmptyCopyOf | dubiousdl/src/com/dubiouscandle/dubiousdl/Matrix.java:191-193 | a fresh zero matrix of the source's logical shape |
| Matrices.Matrix.SumOfCols | dubiousdl/src/com/dubiouscandle/dubiousdl/Matrix.java:195-209 | IllegalArgument exactly when out is not rows()×1, with out unchanged; otherwise out(i, 0) is the sum of row i |
| Activations.Activation.GetImpl | dubiousdl/src/com/dubiouscandle/dubiousdl/ActivationFunction.java:7-135 | ReLU, leaky ReLU, ELU and the identity pass positive inputs through; ReLU is at least 0 and at least x; leaky ReLU is positive exactly for positive x and at least 0.01·x; ELU stays above −1; the logistic lies strictly between 0 and 1; Swish is x·σ(x) |
| Activations.Activation.DerivImpl | dubiousdl/src/com/dubiouscandle/dubiousdl/ActivationFunction.java:7-135 | the piecewise-linear slopes lie in [0, 1]; the logistic's derivative lies in (0, 1/4]; softplus's lies in (0, 1); ELU's is positive and, for x ≤ 0, equals getImpl(x) + 1 |
| Activations.SlopeFromValue | dubiousdl/src/com/dubiouscandle/dubiousdl/ActivationFunction.java:21-34 | tanh′ = 1 − f², the logistic's derivative is f(1 − f) and Swish's is f + σ(x)(1 − f), for f = getImpl(x) (also lines 78-91 and 121-135) |
| Activations.Activation.Get | dubiousdl/src/com/dubiouscandle/dubiousdl/ActivationFunction.java:158-166 | IllegalArgument exactly on a length mismatch, with out unchanged; otherwise out[i] = getImpl(x[i]) and x is unchanged unless it is out |
| Activations.Activation.Deriv | dubiousdl/src/com/dubiouscandle/dubiousdl/ActivationFunction.java:174-182 | IllegalArgument exactly on a length mismatch; otherwise out[i] = derivImpl(x[i]) |
| Activations.ReluShape | dubiousdl/src/com/dubiouscandle/dubiousdl/ActivationFunction.java:107-119 | ReLU is non-negative and is x or 0; its derivative is 0 for x ≤ 0 and 1 above |
| Activations.LeakyReluShape | dubiousdl/src/com/dubiouscandle/dubiousdl/ActivationFunction.java:7-19 | leaky ReLU is 0.01x for x ≤ 0 and x above; its derivative is 0.01 for x ≤ 0, including x = 0, and 1 above |
| Activations.IdentityShape | dubiousdl/src/com/dubiouscandle/dubiousdl/ActivationFunction.java:93-105 | the identity returns x with derivative 1 |
| Activations.PiecewiseLinearSlope | dubiousdl/src/com/dubiouscandle/dubiousdl/ActivationFunction.java:107-119 | for ReLU, leaky ReLU and the identity: f(x) = f'(x)·x, f is monotone, and f'(x) > 0 unless f(x) = 0 |
| Activations.Exps | dubiousdl/src/com/dubiouscandle/dubiousdl/ActivationFunction.java:196-200 | the shifted exponentials, one per element |
| Activations.Normalized | dubiousdl/src/com/dubiouscandle/dubiousdl/ActivationFunction.java:202-204 | every element divided by the sum |
| Activations.Softmax | dubiousdl/src/com/dubiouscandle/dubiousdl/ActivationFunction.java:187-205 | softmax keeps the length |
| Activations.SoftmaxSumsToOne | dubiousdl/src/com/dubiouscandle/dubiousdl/ActivationFunction.java:187-205 | on a non-empty array softmax is positive everywhere and sums to 1 |
| Activations.SoftmaxShiftInvariant | dubiousdl/src/com/dubiouscandle/dubiousdl/ActivationFunction.java:187-205 | shifting every input by c leaves softmax unchanged, which is why subtracting the maximum is harmless |
| Activations.LargestElement | dubiousdl/src/com/dubiouscandle/dubiousdl/ActivationFunction.java:188-194 | the maximum of a non-empty array |
| Activations.ExpShifted | dubiousdl/src/com/dubiouscandle/dubiousdl/ActivationFunction.java:196-200 | the array becomes its shifted exponentials and the result is their sum |
| Activations.DivideAll | dubiousdl/src/com/dubiouscandle/dubiousdl/ActivationFunction.java:202-204 | every element is divided by the sum |
| Activations.SoftmaxInPlace | dubiousdl/src/com/dubiouscandle/dubiousdl/ActivationFunction.java:187-205 | the array becomes the softmax of its old contents |
| Losses.Clamp | dubiousdl/src/com/dubiouscandle/dubiousdl/LossFunction.java:84-88 | the prediction is clamped into [EPSILON, 1 - EPSILON] with EPSILON = 1e-7, and is kept when already inside |
| Losses.Column | dubiousdl/src/com/dubiouscandle/dubiousdl/LossFunction.java:114-117 | the gathered column holds get(i, b) for the first n rows |
| Losses.Loss.ErrorOf | dubiousdl/src/com/dubiouscandle/dubiousdl/LossFunction.java:9-28 | softmax cross-entropy writes every cell, and error + target is the softmax probability, which is positive; binary cross-entropy (lines 69-75) writes only cell 0, where error + target is the prediction, strictly between 0 and 1 |
| Losses.Loss.LossOf | dubiousdl/src/com/dubiouscandle/dubiousdl/LossFunction.java:31-57 | softmax cross-entropy of a target with no class marked exactly 1 is 0; binary cross-entropy (lines 78-91) with label 1 is −log ŷ and with label 0 is −log(1 − ŷ), for the clamped prediction ŷ |
| Losses.Loss.ColumnLosses | dubiousdl/src/com/dubiouscandle/dubiousdl/LossFunction.java:144-150 | entry b is getLossImpl of column b of output and target |
| Losses.Loss.ColumnLossesExtended | dubiousdl/src/com/dubiouscandle/dubiousdl/LossFunction.java:144-150 | the running sum grows by the next column's loss |
| Losses.Loss.ErrorGrid | dubiousdl/src/com/dubiouscandle/dubiousdl/LossFunction.java:105-123 | the batch error is a well-formed output.rows()×output.cols() grid |
| Losses.Loss.ErrorGridFilled | dubiousdl/src/com/dubiouscandle/dubiousdl/LossFunction.java:105-123 | a grid whose every column is that column's error is the batch error |
| Losses.Loss.GetErrorImpl | dubiousdl/src/com/dubiouscandle/dubiousdl/LossFunction.java:9-75 | out becomes softmax(output) - target, or for binary cross-entropy only out[0] = sigmoid(output[0]) - target[0]; binary cross-entropy on an empty example fails with IndexOutOfBounds |
| Losses.Loss.GetLossImpl | dubiousdl/src/com/dubiouscandle/dubiousdl/LossFunction.java:31-91 | the per-example loss; binary cross-entropy on an empty example fails with IndexOutOfBounds |
| Losses.Loss.GetError | dubiousdl/src/com/dubiouscandle/dubiousdl/LossFunction.java:105-123 | passes exactly when every read and write stays in bounds (there is no up-front shape check); then rows 0..output.rows()-1 of each column of error hold that column's error and no other cell changes |
| Losses.Loss.FillColumn | dubiousdl/src/com/dubiouscandle/dubiousdl/LossFunction.java:113-121 | one iteration over a column: fails exactly on an out-of-bounds read or write; otherwise only column b of error changes, to that column's error |
| Losses.Loss.GetLoss | dubiousdl/src/com/dubiouscandle/dubiousdl/LossFunction.java:132-153 | IllegalArgument on a logical shape mismatch; otherwise Ok exactly when the examples are readable, with the column losses summed and divided by the batch size |
| Losses.ReadColumn | dubiousdl/src/com/dubiouscandle/dubiousdl/LossFunction.java:114-117 | copies column b of output and target, failing exactly when target is too small |
| Losses.WriteColumn | dubiousdl/src/com/dubiouscandle/dubiousdl/LossFunction.java:119-121 | writes the column into error, failing exactly when error is too small |
| Losses.SumOfExps | dubiousdl/src/com/dubiouscandle/dubiousdl/LossFunction.java:40-43 | the sum of the shifted exponentials |
| Losses.SoftmaxOf | dubiousdl/src/com/dubiouscandle/dubiousdl/LossFunction.java:35-48 | a fresh array holding the softmax of the output |
| Losses.SoftmaxCrossEntropyError | dubiousdl/src/com/dubiouscandle/dubiousdl/LossFunction.java:9-28 | out[i] = softmax(output)[i] - target[i] |
| Losses.SoftmaxCrossEntropyLoss | dubiousdl/src/com/dubiouscandle/dubiousdl/LossFunction.java:31-57 | the softmax cross-entropy of one example |
| Losses.NegLogLikelihoodUnmarked | dubiousdl/src/com/dubiouscandle/dubiousdl/LossFunction.java:50-54 | with no target exactly 1 nothing is subtracted and the loss stays 0 |
| Losses.NegLogLikelihoodOf | dubiousdl/src/com/dubiouscandle/dubiousdl/LossFunction.java:50-54 | -log p[i] is summed over the classes whose target is exactly 1 |
| Losses.SoftmaxErrorSumsToZero | dubiousdl/src/com/dubiouscandle/dubiousdl/LossFunction.java:25-27 | with a one-hot target the softmax error sums to 0 |
| Losses.SoftmaxErrorSigns | dubiousdl/src/com/dubiouscandle/dubiousdl/LossFunction.java:25-27 | with a one-hot target the error is ≤ 0 at the true class and > 0 elsewhere |
| Losses.SoftmaxLossOneHot | dubiousdl/src/com/dubiouscandle/dubiousdl/LossFunction.java:31-57 | with a one-hot target the loss is -log of the true class's softmax |
| Losses.NegLogLikelihoodOneHot | dubiousdl/src/com/dubiouscandle/dubiousdl/LossFunction.java:50-54 | with a one-hot target only the true class contributes |
| Losses.BinaryErrorSigns | dubiousdl/src/com/dubiouscandle/dubiousdl/LossFunction.java:69-75 | for a 0/1 target the error lies in (-1, 1), is negative for 1 and positive for 0, and cells past 0 are untouched |
| Losses.UniformBatchLoss | dubiousdl/src/com/dubiouscandle/dubiousdl/LossFunction.java:132-153 | a batch of identical columns has the per-example loss as its mean loss |
| Models.Affine | dubiousdl/src/com/dubiouscandle/dubiousdl/Model.java:115-116 | W·a + b is a well-formed rows(W)×cols(a) grid |
| Models.AffineGet | dubiousdl/src/com/dubiouscandle/dubiousdl/Model.java:115-116 | cell (i, j) is the dot-product sum plus b(i, 0) |
| Models.AffineEquals | dubiousdl/src/com/dubiouscandle/dubiousdl/Model.java:115-116 | an untransposed grid with those cells is the affine map |
| Models.Activate | dubiousdl/src/com/dubiouscandle/dubiousdl/Model.java:117 | the activation applied to every cell of the buffer, layout kept |
| Models.ActivateGet | dubiousdl/src/com/dubiouscandle/dubiousdl/Model.java:117 | logical cell (i, j) is getImpl of z(i, j) |
| Models.Forward | dubiousdl/src/com/dubiouscandle/dubiousdl/Model.java:100-104 | layer l of the forward pass is a well-formed n[l]×m grid |
| Models.ForwardColumns | dubiousdl/src/com/dubiouscandle/dubiousdl/Model.java:100-118 | the examples are independent: column j of every layer depends only on input column j |
| Models.ForwardSameLayers | dubiousdl/src/com/dubiouscandle/dubiousdl/Model.java:102-104 | the forward pass does not read the weights and biases of position 0 |
| Models.Shifted | dubiousdl/src/com/dubiouscandle/dubiousdl/Model.java:31-32 | g[0] is empty and g[l] is the (l-1)-th activation given |
| Models.Model.New | dubiousdl/src/com/dubiouscandle/dubiousdl/Model.java:19-50 | IllegalArgument exactly when there is not one activation per layer; otherwise a fresh valid model with the given sizes, shifted activations, zero caches and biases, and drawn weights |
| Models.Model.constructor | dubiousdl/src/com/dubiouscandle/dubiousdl/Model.java:24-49 | L, input and output sizes from layerSizes; every matrix fresh with its exact shape; caches and biases zero; every weight cell drawn from the initializer with W[L]'s fans |
| Models.Model.Allocate | dubiousdl/src/com/dubiouscandle/dubiousdl/Model.java:34-48 | allocates the a, z, W, b arrays with exact shapes and fresh, distinct buffers |
| Models.Model.Grow | dubiousdl/src/com/dubiouscandle/dubiousdl/Model.java:43-48 | one iteration adds layer l with its shapes, zeros and drawn weights |
| Models.Model.NewLayer | dubiousdl/src/com/dubiouscandle/dubiousdl/Model.java:44-47 | four fresh matrices of the layer's shapes with distinct buffers |
| Models.Model.FillWeights | dubiousdl/src/com/dubiouscandle/dubiousdl/Model.java:57-59 | every weight cell p of layer l is the initializer's draw for it |
| Models.Model.Resize | dubiousdl/src/com/dubiouscandle/dubiousdl/Model.java:63-90 | same sizes and shared activations; W and b fresh copies of the source's; a and z fresh zero caches at the new width |
| Models.Model.AllocateResized | dubiousdl/src/com/dubiouscandle/dubiousdl/Model.java:71-87 | the resized arrays, copied parameters and cleared caches |
| Models.Model.InputLayer | dubiousdl/src/com/dubiouscandle/dubiousdl/Model.java:76-79 | position 0: zero a[0], z[0], b[0] and no weights |
| Models.Model.GrowResized | dubiousdl/src/com/dubiouscandle/dubiousdl/Model.java:81-87 | one iteration adds a copied layer and fresh caches |
| Models.Model.NewResizedLayer | dubiousdl/src/com/dubiouscandle/dubiousdl/Model.java:82-86 | fresh caches and fresh element-equal copies of W[l] and b[l] |
| Models.Model.CopyAlike | dubiousdl/src/com/dubiouscandle/dubiousdl/Model.java:63-90 | the resized copy computes the same forward pass as its source on every input |
| Models.Model.PropagatedIsForward | dubiousdl/src/com/dubiouscandle/dubiousdl/Model.java:100-104 | after propagation a[l] is Forward of the weights, biases and a[0] |
| Models.Model.ForwardPropagate | dubiousdl/src/com/dubiouscandle/dubiousdl/Model.java:92-107 | IllegalArgument with nothing written when input or output has the wrong logical shape; then the physical checks of set; on success a[0] is the input, every layer is propagated and output holds a[L] |
| Models.Model.PropagateLayers | dubiousdl/src/com/dubiouscandle/dubiousdl/Model.java:102-104 | every layer 1..L is propagated |
| Models.Model.ComputeForwardPropagationStep | dubiousdl/src/com/dubiouscandle/dubiousdl/Model.java:114-118 | layer l is propagated and earlier propagated layers stay so |
| Models.Model.ComputeLayer | dubiousdl/src/com/dubiouscandle/dubiousdl/Model.java:114-118 | z = W·prev + b and a = g(z) |
| Models.Model.CopyOut | dubiousdl/src/com/dubiouscandle/dubiousdl/Model.java:106 | output receives a[L]'s buffer when its physical shape matches |
| Optimizers.FirstMomentBetween | dubiousdl/src/com/dubiouscandle/dubiousdl/Adam.java:132 | for 0 ≤ B1 ≤ 1 the new first moment lies between the old one and the gradient |
| Optimizers.FirstMomentSteady | dubiousdl/src/com/dubiouscandle/dubiousdl/Adam.java:132 | a first moment equal to the gradient stays put |
| Optimizers.SecondMomentNonNegative | dubiousdl/src/com/dubiouscandle/dubiousdl/Adam.java:133 | for 0 ≤ B2 ≤ 1 a non-negative second moment stays non-negative |
| Optimizers.SecondMomentsNonNegative | dubiousdl/src/com/dubiouscandle/dubiousdl/Adam.java:127-142 | the same for a whole buffer |
| Optimizers.Descended | dubiousdl/src/com/dubiouscandle/dubiousdl/Adam.java:135-138 | when 1 − B1^t ≠ 0 and sqrt(v̂ + EPSILON) ≠ 0, the parameter stays put exactly when alpha = 0 or m = 0; when alpha, 1 − B1^t and the square root are positive, it decreases exactly when m > 0 |
| Optimizers.StepSign | dubiousdl/src/com/dubiouscandle/dubiousdl/Adam.java:135-138 | the step alpha·m̂/S is zero exactly when alpha or m is, and for positive alpha and divisors has the sign of m |
| Optimizers.ZeroMomentKeeps | dubiousdl/src/com/dubiouscandle/dubiousdl/Adam.java:135-138 | a zero first moment leaves the parameter unchanged, provided 1 − B1^t ≠ 0 and sqrt(v̂ + EPSILON) ≠ 0 (otherwise the float divisions give NaN) |
| Optimizers.ZeroGradientKeeps | dubiousdl/src/com/dubiouscandle/dubiousdl/Adam.java:127-142 | with zero moments and zero gradients a buffer update keeps the first moments and the parameters, provided 1 − B1^t ≠ 0 and every sqrt(v̂ + EPSILON) ≠ 0 |
| Optimizers.HiddenDelta | dubiousdl/src/com/dubiouscandle/dubiousdl/Adam.java:110-113 | deriv over z[l]'s raw buffer times da[l] cell by cell keeps da[l]'s shape, layout and buffer length |
| Optimizers.WeightGradient | dubiousdl/src/com/dubiouscandle/dubiousdl/Adam.java:115-118 | dz·a[l−1]ᵀ scaled by 1/m is an untransposed n[l]×n[l−1] grid (rows of dz by rows of a[l−1]) |
| Optimizers.BiasGradient | dubiousdl/src/com/dubiouscandle/dubiousdl/Adam.java:120-121 | the row sums of dz scaled by 1/m form an untransposed column with one row per row of dz |
| Optimizers.InputGradient | dubiousdl/src/com/dubiouscandle/dubiousdl/Adam.java:123-125 | W[l]ᵀ·dz is an untransposed grid with one row per column of W[l] and one column per example |
| Optimizers.Delta | dubiousdl/src/com/dubiouscandle/dubiousdl/Adam.java:109-124 | the delta of every layer l is an untransposed n[l]×m grid, from the output error at L down through W[l+1]ᵀ·dz[l+1] (a fact the recursion needs from the layer above) |
| Optimizers.Updated | dubiousdl/src/com/dubiouscandle/dubiousdl/Adam.java:127-160 | the two update loops keep the shape, layout and buffer length of every parameter and moment of the layer |
| Optimizers.BackpropagatedShapely | dubiousdl/src/com/dubiouscandle/dubiousdl/Adam.java:82-84 | the backward loop keeps every layer fitting its sizes n[l]×n[l−1] |
| Optimizers.DeltaIgnoresInput | dubiousdl/src/com/dubiouscandle/dubiousdl/Adam.java:109-113 | the deltas do not depend on the pre-activation cache of layer 0 |
| Optimizers.BackpropagatedSchedule | dubiousdl/src/com/dubiouscandle/dubiousdl/Adam.java:82-84 | the layer-by-layer reference obeys the loop's schedule: dz[L] is the error, each lower delta uses the da of the layer above, and each layer's update uses its own gradients |
| Optimizers.BackpropagatedIgnoresInput | dubiousdl/src/com/dubiouscandle/dubiousdl/Adam.java:82-84 | backpropagation does not read z[0] |
| Optimizers.Trained | dubiousdl/src/com/dubiouscandle/dubiousdl/Adam.java:69-87 | the reference for step (forward pass, loss error, backward loop) gives layers that still fit the network's sizes |
| Optimizers.TrainedFromCaches | dubiousdl/src/com/dubiouscandle/dubiousdl/Adam.java:77-84 | backpropagating from the caches a forward pass leaves, and the loss error, gives exactly Trained |
| Optimizers.Adam.constructor | dubiousdl/src/com/dubiouscandle/dubiousdl/Adam.java:33-67 | t = 1; output is zero; every buffer is fresh and shaped like the model's; moments are zero |
| Optimizers.Adam.Allocate | dubiousdl/src/com/dubiouscandle/dubiousdl/Adam.java:40-66 | allocates output, the gradient clones and the zero moments, all with distinct fresh buffers |
| Optimizers.Adam.AllocateGradients | dubiousdl/src/com/dubiouscandle/dubiousdl/Adam.java:50-54 | dW, db, da, dz are shaped like W, b, a, z |
| Optimizers.Adam.AllocateMoments | dubiousdl/src/com/dubiouscandle/dubiousdl/Adam.java:56-66 | mW, vW are zero and shaped like W[l]; mb, vb are zero and shaped like b[l]; all are null at position 0 |
| Optimizers.Adam.AllocateLayer | dubiousdl/src/com/dubiouscandle/dubiousdl/Adam.java:62-65 | the four zero moment matrices of one layer |
| Optimizers.Adam.StartsAtZero | dubiousdl/src/com/dubiouscandle/dubiousdl/Adam.java:56-66 | a fresh optimiser has all moments zero |
| Optimizers.Adam.ClearCache | dubiousdl/src/com/dubiouscandle/dubiousdl/Adam.java:89-107 | every gradient buffer and output become zero |
| Optimizers.Adam.ClearBuffers | dubiousdl/src/com/dubiouscandle/dubiousdl/Adam.java:89-107 | the four loops and the output clear |
| Optimizers.Adam.ClearAll | dubiousdl/src/com/dubiouscandle/dubiousdl/Adam.java:90-93 | every non-null matrix of one array becomes zero |
| Optimizers.Adam.Step | dubiousdl/src/com/dubiouscandle/dubiousdl/Adam.java:69-87 | a logical shape mismatch fails with nothing changed; a physical input mismatch fails after the clear; an unreadable loss fails after the forward pass; success leaves the parameters and moments at Trained of the old ones and advances t by 1, output holds the network output of the forward pass of the input under the old parameters, and the caches a and z hold that forward pass |
| Optimizers.Adam.Run | dubiousdl/src/com/dubiouscandle/dubiousdl/Adam.java:77-86 | the part of step after validation, with the same outcomes; on success output and the caches a and z hold the forward pass of the input under the old parameters |
| Optimizers.Adam.ForwardHalf | dubiousdl/src/com/dubiouscandle/dubiousdl/Adam.java:77-78 | clear, then forward: the caches are propagated from the input and output holds a[L] |
| Optimizers.Adam.LearnHalf | dubiousdl/src/com/dubiouscandle/dubiousdl/Adam.java:80-84 | the error and backpropagation, which learn exactly Trained; output and the caches a and z are unchanged, so they still hold the forward pass under the old parameters |
| Optimizers.Adam.Finish | dubiousdl/src/com/dubiouscandle/dubiousdl/Adam.java:80-86 | after the forward pass: the step fails exactly when the loss error is unreadable, leaving t and the parameters unchanged; on success t grows by 1, the parameters and moments are Trained of the old ones, and output and the caches still hold the forward pass under the old parameters |
| Optimizers.Adam.ForwardedCaches | dubiousdl/src/com/dubiouscandle/dubiousdl/Adam.java:77-78 | once the caches are propagated and output holds a[L], output and the caches are the forward pass of a[0] under the current parameters |
| Optimizers.Adam.ErrorHalf | dubiousdl/src/com/dubiouscandle/dubiousdl/Adam.java:80 | dz[L] becomes the loss error of output against target; output is unchanged |
| Optimizers.Adam.BackHalf | dubiousdl/src/com/dubiouscandle/dubiousdl/Adam.java:82-84 | from caches of a forward pass of X, backpropagation learns Trained on X |
| Optimizers.Adam.Tick | dubiousdl/src/com/dubiouscandle/dubiousdl/Adam.java:86 | t grows by 1; nothing learned changes, and output and the caches are unchanged |
| Optimizers.Adam.CachesForward | dubiousdl/src/com/dubiouscandle/dubiousdl/Adam.java:78 | after a forward pass the caches are the forward pass of a[0] under the current parameters |
| Optimizers.Adam.Backpropagate | dubiousdl/src/com/dubiouscandle/dubiousdl/Adam.java:82-84 | the loop from L down to 1 leaves the parameters and moments at the reference Backpropagated, with the caches unchanged |
| Optimizers.Adam.ComputeBackPropagationStep | dubiousdl/src/com/dubiouscandle/dubiousdl/Adam.java:109-160 | dz[l] is the delta (the error at l = L); da[l-1] = W[l]ᵀ·dz[l] with the old W[l]; layer l takes the Adam update of its gradients; other layers, caches and transpose flags are unchanged |
| Optimizers.Adam.LayerGradients | dubiousdl/src/com/dubiouscandle/dubiousdl/Adam.java:110-125 | the delta and the three gradients of one layer |
| Optimizers.Adam.LayerDelta | dubiousdl/src/com/dubiouscandle/dubiousdl/Adam.java:110-113 | dz[l] = g'(z[l]) ⊙ da[l] |
| Optimizers.Adam.LayerWeightGradient | dubiousdl/src/com/dubiouscandle/dubiousdl/Adam.java:115-118 | dW = (dz·a[l-1]ᵀ)·(1/m), with a[l-1]'s flag restored |
| Optimizers.Adam.LayerBiasGradient | dubiousdl/src/com/dubiouscandle/dubiousdl/Adam.java:120-121 | db = rowSums(dz)·(1/m) |
| Optimizers.Adam.LayerInputGradient | dubiousdl/src/com/dubiouscandle/dubiousdl/Adam.java:123-125 | da[l-1] = W[l]ᵀ·dz, with W[l]'s flag restored |
| Optimizers.Adam.LayerUpdate | dubiousdl/src/com/dubiouscandle/dubiousdl/Adam.java:127-159 | the weight and bias loops: the layer becomes Updated by its gradients |
| Optimizers.Adam.UpdateParameters | dubiousdl/src/com/dubiouscandle/dubiousdl/Adam.java:127-142 | cell by cell, the moments take their running averages and the parameter descends by m̂ / sqrt(v̂ + EPSILON) |
| Batches.Draw | dubiousdl/src/com/dubiouscandle/dubiousdl/Batch.java:69 | the k-th draw below a bound lies below it |
| Batches.Random.NextInt | dubiousdl/src/com/dubiouscandle/dubiousdl/Batch.java:69 | nextInt(bound) returns the next draw of the stream, in [0, bound) |
| Batches.Swapped | dubiousdl/src/com/dubiouscandle/dubiousdl/Batch.java:75-83 | slots i and j exchanged, every other slot kept |
| Batches.SwappedPermutes | dubiousdl/src/com/dubiouscandle/dubiousdl/Batch.java:75-83 | a swap is a permutation |
| Batches.SwappedTwice | dubiousdl/src/com/dubiouscandle/dubiousdl/Batch.java:75-83 | swapping twice restores the sequence |
| Batches.ZipSwapped | dubiousdl/src/com/dubiouscandle/dubiousdl/Batch.java:75-83 | swapping embeddings and labels together swaps the pairs |
| Batches.Shuffled | dubiousdl/src/com/dubiouscandle/dubiousdl/Batch.java:67-73 | the Fisher–Yates reference keeps the length |
| Batches.ShuffledPermutes | dubiousdl/src/com/dubiouscandle/dubiousdl/Batch.java:67-73 | the shuffle is a permutation of the pairs, for every random stream |
| Batches.LabelsPermuted | dubiousdl/src/com/dubiouscandle/dubiousdl/Batch.java:53-56 | a permutation keeps every label in range |
| Batches.SizesPermuted | dubiousdl/src/com/dubiouscandle/dubiousdl/Batch.java:58-60 | a permutation keeps every embedding of the right length |
| Batches.OneHotColumn | dubiousdl/src/com/dubiouscandle/dubiousdl/Batch.java:61-63 | a label in range gives a column with 1 exactly at the label |
| Batches.FillColumn | dubiousdl/src/com/dubiouscandle/dubiousdl/Batch.java:58-63 | column c is written and no other column changes |
| Batches.Batch.New | dubiousdl/src/com/dubiouscandle/dubiousdl/Batch.java:19-42 | IllegalArgument on an embedding of the wrong length; IndexOutOfBounds on a missing embedding or missing labels; otherwise (all labels in range, batchSize ≤ len) a fresh batch with index 0, the first window loaded, and its pairs a permutation of the given ones |
| Batches.Batch.Init | dubiousdl/src/com/dubiouscandle/dubiousdl/Batch.java:21-39 | copies of the embeddings and labels, fresh zero input and target, index = -batchSize |
| Batches.Batch.Start | dubiousdl/src/com/dubiouscandle/dubiousdl/Batch.java:39-41 | the constructor's shuffle and first next: index 0 and the first window loaded, with the pairs permuted |
| Batches.Batch.Swap | dubiousdl/src/com/dubiouscandle/dubiousdl/Batch.java:75-83 | embeddings i and j exchanged; labels i and j exchanged, or IndexOutOfBounds after the embeddings when labels is too short |
| Batches.Batch.Shuffle | dubiousdl/src/com/dubiouscandle/dubiousdl/Batch.java:67-73 | the pairs become Shuffled of the old pairs, drawing Top() values; IndexOutOfBounds on the first swap when labels is too short |
| Batches.Batch.Exchange | dubiousdl/src/com/dubiouscandle/dubiousdl/Batch.java:68-71 | one iteration: swap slot i with the next draw in [0, i], one step of Shuffled |
| Batches.Batch.Advanced | dubiousdl/src/com/dubiouscandle/dubiousdl/Batch.java:45-50 | the cursor moves on by batchSize or back to 0; unless it went back to 0 the next window lies within the examples; from the starting cursor −batchSize on it is never negative |
| Batches.Batch.Fault | dubiousdl/src/com/dubiouscandle/dubiousdl/Batch.java:52-59 | loading a column fails exactly when its label index is out of range, its label is not a class, or (when there is a row to write) its embedding index is out of range; the label read fails first, with IndexOutOfBounds; IllegalArgument comes exactly from a read label outside [0, numClasses) |
| Batches.Batch.Next | dubiousdl/src/com/dubiouscandle/dubiousdl/Batch.java:44-65 | index advances by batchSize, or reshuffles and resets to 0 on overrun; the columns before the first faulty example are loaded; the fault is IndexOutOfBounds or IllegalArgument as the source throws; no fault when all labels are in range and batchSize ≤ len |
| Batches.Batch.Reposition | dubiousdl/src/com/dubiouscandle/dubiousdl/Batch.java:45-50 | the cursor step and the reshuffle, keeping the labels in range |
| Batches.Batch.Load | dubiousdl/src/com/dubiouscandle/dubiousdl/Batch.java:52-64 | loads columns until the first fault, leaving later columns unchanged |
| Batches.Batch.LoadColumn | dubiousdl/src/com/dubiouscandle/dubiousdl/Batch.java:53-63 | one column: fails with the fault and nothing written, or holds the embedding and the one-hot label |

## Left out

- Floating point: Java `float` is `real`, so rounding, overflow to infinity and NaN are not modelled. A float division by zero is an unspecified value `DivByZero(x)`.
- `Math.exp`, `log`, `pow`, `sqrt`, `tanh`, `sin` and `cos` are uninterpreted. Only the positivity of `exp` is assumed. The tanh, softplus, sin, ELU, swish and sigmoid formulas are modelled structurally and nothing is proved about their values.
- Java `int` sizes and indices are `nat`. This loses the `NegativeArraySizeException` of a negative size and the 32-bit overflow of `rows * cols` and of `row * cols + col` (Matrix.java:37-43). The cursor `Batch.index` is likewise an unbounded `int`.
- The `Initializer` is a function `init(fanIn, fanOut, l, p)` naming the draw for cell `p` of layer `l`. Initializer.java and its random sampling are not part of this model.
- `java.util.Random` is a stream `stream(k, bound)` of draws, reduced modulo the bound. Its generator algorithm is not modelled.
- Null arguments and `NullPointerException` are not modelled. Neither is `Serializable`, `Matrix.toString` (formatting only), or `Matrix.data()`, which exposes the buffer.
- `Batch.input()` and `Batch.target()` return the live matrices. They are the fields `input` and `target`, and a caller that transposes them is not modelled.
- Matrices.Matrix.Dot: requires `result`'s buffer to differ from those of `a` and `b`. This excludes `dot(a, b, a)` and `dot(a, b, b)`, which Java accepts and which overwrite an operand while reading it.
- Matrices.Matrix.AddBroadcasted: requires the broadcast buffer to differ from the receiver's. This excludes `m.addBroadcasted(m)`, which Java accepts on a 1×1 matrix.
- Matrices.Matrix.AddRowVector: requires distinct buffers, excluding `m.addBroadcasted(m)` on a 1×1 matrix in the row branch.
- Matrices.Matrix.AddColumnVector: requires distinct buffers, excluding the same self-broadcast in the column branch.
- Matrices.Matrix.HadamardProduct: requires distinct buffers. This excludes `hadamardProduct(a, a)`, which in Java squares every cell.
- Matrices.Matrix.SumOfCols: requires `out`'s buffer to differ from the receiver's. This excludes `m.sumOfCols(m)` on an r×1 matrix, which in Java zeroes it.
- Losses.Loss.GetError: requires `error`'s buffer to differ from those of `output` and `target`. This excludes `getError(o, t, o)`.
- Losses.Loss.GetErrorImpl: requires `out` to differ from `output` and `target`.
- Losses.Loss.GetError: on failure the contract says only that the error is `IndexOutOfBounds`. It does not say that the columns before the failing one are already written (LossFunction.java:105-123).
- Models.Model.ForwardPropagate: requires `input` and `output` not to be buffers of the model. This excludes `forwardPropagate(a[L], …)`-style calls on the model's own caches.
- Optimizers.Adam.Step: requires `input` and `target` not to be buffers of the model or of the optimiser. This excludes `step(output, …)` on the optimiser's own output matrix.
- Batches.Batch.New: when the first `next()` fails, the contract does not say which column failed, because that depends on the shuffled order.

Places where the code departs from the usual formulation; the model follows the code:

- The Adam paper (Kingma and Ba, Algorithm 1) divides the corrected first moment by `sqrt(v̂) + ε`. The code divides by `sqrt(v̂ + EPSILON)` (Adam.java:138).
- A transactional training step would validate all of its arguments before it changes any state. `step` is not atomic: it checks logical shapes before changing anything, but `a[0].set(in)` compares physical shapes after the scratch buffers are cleared (Adam.java:77-78), and the binary cross-entropy error of an empty output fails after the forward pass (Adam.java:80).
- A matrix copy usually compares logical shapes, taking transposition into account. `set(Matrix)` compares the physical `rows`/`cols` and copies the raw buffer (Matrix.java:115-125).
- A loss function usually rejects mismatched shapes before it writes anything. `getError` has no up-front shape check and fails only on an out-of-bounds `get`/`set`, after the earlier columns are written (LossFunction.java:105-123).
- Glorot and He initialisation scale each layer's weights by that layer's own fan-in and fan-out. `initializeWeights` passes the fans of `W[L]` for every layer (Model.java:54-55).
- Backpropagation needs no error signal for the input layer. The code also computes `da[0]` at `l = 1` (Adam.java:124).
- Adam.java calls `Matrix.multiply(Matrix, Matrix, Matrix)`, which Matrix.java does not define. Those calls are modelled as `dot`, the only three-argument product (Matrix.java:72-89).
