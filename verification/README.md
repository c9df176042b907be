# Regression trainers, modelled in Dafny

MLCourse has two small regression classes built on a tensor library:

- `LinearRegression` (`regressions/linear-regression.js`) fits one output column by least squares. It scores test data by the coefficient of determination R².
- `LogisticRegression` (`regressions/multinominal-logistics-regression/logistic-regression.js`) fits one softmax output per class. It scores test data by the share of correctly classified rows.

Both classes do the same things:

- they standardize the features with per-column statistics taken from the training set, and store those statistics for later test and prediction data;
- they prepend a bias column of ones;
- they start from all-zero weights;
- they train for `iterations` epochs of mini-batch gradient descent;
- after each epoch they put the loss at the front of a history and adapt the learning rate: halve it when the loss went up, otherwise multiply it by 1.05.

The project is organised as follows:

- `matrices.dfy` (`Matrices`): matrices are sequences of rows of reals, with the tensor operations the classes use. The library's square root, division, logarithm and softmax are fields of a `Numerics` record. That way a division by zero, which gives NaN or an infinity in the library, gives a real nothing is assumed about. `Sound(num)` says the only things the proofs rely on: division by a nonzero number is exact, the square root of a positive number is positive, and the square root of zero is zero.
- `features.dfy` (`Features`): column statistics, standardization, the design matrix, and the logistic class's zero-variance filler.
- `losses.dfy` (`Losses`): the mean squared error and the cross-entropy cost.
- `training.dfy` (`Training`): the logic both classes share:
  - option defaults;
  - batch partitioning;
  - the learning-rate rule;
  - one gradient step (`Kind` selects identity or softmax guesses);
  - the recorded loss, written as a sum over rows and proved equal to the tensor expressions of `recordMSE` and `recordCost`;
  - `Run`, the whole epoch loop as a function of the starting state.
- `linear_regression.dfy` and `logistic_regression.dfy`: the two classes, with their fields. Their methods run the loops imperatively. `Train` is proved to end in exactly the state `Run` describes.

## Model

| member | source | states |
|---|---|---|
| Training.WithDefaults | regressions/linear-regression.js:12-15 | a given learning rate or iteration count wins; a missing one becomes 0.1 or 1000; the batch size passes through |
| Training.BatchCount | regressions/linear-regression.js:21 | the count is the floor of rows over batch size: count batches fit in the rows, count + 1 do not |
| Training.BatchInBounds | regressions/linear-regression.js:24-29 | batch j of a run loop covers rows [j·b, j·b + b), which lie within the first count·b rows |
| Training.BatchesContiguous | regressions/linear-regression.js:25 | batch j + 1 starts where batch j ends |
| Training.BatchesDisjoint | regressions/linear-regression.js:25-29 | no row lies in two batches |
| Training.RowPlacement | regressions/linear-regression.js:21-29 | every row below count·b is in batch r / b, and every row from count·b on is in no batch (the trailing rows are dropped) |
| Training.NinetyFiveRowsMakeNineBatches | regressions/linear-regression.js:21 | 95 rows in batches of 10 give 9 batches covering 90 rows |
| Training.NextLearningRate | regressions/linear-regression.js:105-113 | the new rate is the old rate, half of it, or 1.05 times it, and a positive rate stays positive |
| Training.LearningRateDirection | regressions/linear-regression.js:105-113 | for a positive rate: the rate falls if and only if there are two losses and the newest is larger; it grows if and only if there are two losses and the newest is not larger; it stays if and only if there are fewer than two |
| Training.LearningRateExamples | regressions/multinominal-logistics-regression/logistic-regression.js:113-121 | a cost rising from 5 to 6 halves 0.1; one falling from 5 to 4 gives 0.105; a single cost leaves 0.1 |
| Training.GradientStep | regressions/linear-regression.js:39-49 | one step keeps the weights' shape (rows = design columns, one column per output) |
| Training.GradientStepAtExactFit | regressions/multinominal-logistics-regression/logistic-regression.js:42-52 | when the guesses on a nonempty batch equal its labels, a step leaves the weights unchanged at any learning rate |
| Training.RunBatches | regressions/linear-regression.js:24-32 | the weights after the first j batches keep the weights' shape |
| Training.Guess | regressions/linear-regression.js:40 | the guesses have the shape of `features · weights`: the product itself for the linear class, and its row-wise softmax for the logistic class (regressions/multinominal-logistics-regression/logistic-regression.js:43) |
| Training.Loss | regressions/linear-regression.js:94-100 | definition of the recorded loss as a row sum over the row count, negated for the cost; no ensures of its own. `LossIsRecordedValue` proves it equal to `recordMSE` and `recordCost` (regressions/multinominal-logistics-regression/logistic-regression.js:97-109) |
| Training.RowLoss | regressions/linear-regression.js:95-98 | one row's share of the loss: its squared error, or its cross-entropy term for class column 0; the linear share is never negative |
| Training.LossSum | regressions/linear-regression.js:95-98 | the sum of the row shares; the linear sum is never negative. `SquaredErrorsByRows` and `CrossEntropyByRows` tie it to the tensor expressions |
| Training.LossIsRecordedValue | regressions/linear-regression.js:94-100 | the loss an epoch records is exactly the mean squared error of `recordMSE` for the linear kind, and exactly the cross-entropy cost of `recordCost` for the multinomial kind |
| Training.SquaredErrorsByRows | regressions/linear-regression.js:95-98 | the row-by-row loss sum equals the sum of squares of features · weights − labels |
| Training.CrossEntropyByRows | regressions/multinominal-logistics-regression/logistic-regression.js:98-107 | the row-by-row multinomial loss sum equals the binary cross-entropy sum of label column 0 against softmax guess column 0 |
| Training.RunOneMoreBatch | regressions/linear-regression.js:24-32 | batch j + 1 is one gradient step on rows [j·b, j·b + b), starting from the weights the first j batches left |
| Training.Epoch | regressions/linear-regression.js:23-36 | an epoch keeps the weights' shape, puts exactly one new entry in front of the old history, and keeps a positive learning rate positive |
| Training.Run | regressions/linear-regression.js:20-37 | after n epochs: the weights keep their shape; the history grew by exactly n entries; a positive learning rate stays positive |
| Training.AfterEpoch | regressions/linear-regression.js:23-36 | the state after epoch k keeps the weights' shape, holds k + 1 more history entries, and keeps a positive learning rate positive |
| Training.RunOneMoreEpoch | regressions/linear-regression.js:23-36 | epoch n + 1 runs all whole batches from the state after n epochs, records the loss of the resulting weights at the front, then adapts the rate to that history |
| Training.HistoryNewestFirst | regressions/linear-regression.js:102 | after n epochs, history index n − 1 − e holds the loss recorded by epoch e |
| Training.HistoryKeepsOld | regressions/linear-regression.js:102 | behind the n newest entries, the history after n epochs is the history training started with |
| Training.HistoryShifts | regressions/linear-regression.js:102 | behind its newest entry, the history after n epochs is the history after n − 1 |
| Training.NewestIsFinalLoss | regressions/linear-regression.js:34 | after at least one epoch, the newest history entry is the loss of the final weights |
| Training.NoBatchesKeepWeights | regressions/linear-regression.js:21-36 | with fewer rows than one batch the weights never change, yet every epoch still records one loss |
| Training.BatchesIgnoreTrailingRows | regressions/linear-regression.js:21-32 | two data sets that agree on the first j·b rows give the same weights after j batches |
| Matrices.Zeros | regressions/linear-regression.js:17 | a rows × cols matrix whose every entry is 0 |
| Matrices.PrependOnes | regressions/linear-regression.js:80 | same row count; each row gains a leading 1 followed by the original row |
| Matrices.ArgMax | regressions/multinominal-logistics-regression/logistic-regression.js:58 | the index of a largest entry, the first such index |
| Matrices.ArgMaxRows | regressions/multinominal-logistics-regression/logistic-regression.js:65 | one class index per row, each within the row: the first index of a largest entry of that row |
| Features.ColumnMeans | regressions/linear-regression.js:86 | one mean per input column |
| Features.ColumnVariances | regressions/linear-regression.js:86 | one variance per input column |
| Features.VariancesNonNegative | regressions/linear-regression.js:86 | over at least one row every variance is non-negative |
| Features.Standardized | regressions/linear-regression.js:91 | the standardized matrix has the raw matrix's shape |
| Features.Design | regressions/linear-regression.js:71-83 | the design matrix has one more column than the input; column 0 is all ones; column c + 1 is input column c centred by its mean and divided by the square root of its variance |
| Features.FillZeroVariances | regressions/multinominal-logistics-regression/logistic-regression.js:89-92 | no filled variance is zero; nonzero variances are kept; zero variances become 1 |
| Features.FilledStandardizationExact | regressions/multinominal-logistics-regression/logistic-regression.js:86-94 | with the filler every divisor is positive, so every standardized entry is an exact quotient |
| Features.ConstantColumnHasZeroVariance | regressions/multinominal-logistics-regression/logistic-regression.js:86-94 | a constant column has its value as mean and variance 0, which the filler turns into 1 |
| Losses.MeanSquaredError | regressions/linear-regression.js:95-100 | definition of `recordMSE`'s value; no ensures of its own. `MeanSquaredErrorNonNegative` and `MeanSquaredErrorOfExactFit` state its properties |
| Losses.CrossEntropyCost | regressions/multinominal-logistics-regression/logistic-regression.js:98-109 | definition of `recordCost`'s value, entry (0, 0) of the cost matrix; no ensures of its own. `CostReadsFirstClassOnly` and `LossIsRecordedValue` state what it computes |
| Losses.MeanSquaredErrorNonNegative | regressions/linear-regression.js:94-100 | the recorded mean squared error is non-negative |
| Losses.MeanSquaredErrorOfExactFit | regressions/linear-regression.js:94-100 | weights that reproduce the labels have mean squared error 0 |
| Losses.DotsAreCrossEntropy | regressions/multinominal-logistics-regression/logistic-regression.js:99-107 | the two dot products summed at entry (0, 0) equal the binary cross-entropy sum of one class column |
| Losses.CostReadsFirstClassOnly | regressions/multinominal-logistics-regression/logistic-regression.js:97-109 | the recorded cost is minus the binary cross-entropy of class column 0 alone, divided by the row count |
| LinearRegressionModel.ResidualSumSquares | regressions/linear-regression.js:58-61 | `res`, the squared distance between labels and predictions, is never negative |
| LinearRegressionModel.TotalSumSquares | regressions/linear-regression.js:63-66 | `tot`, the squared distance between labels and their mean, is never negative |
| LinearRegressionModel.RSquared | regressions/linear-regression.js:68 | definition of `1 - res / tot`; no ensures of its own. `RSquaredAtMostOne` and `RSquaredOfExactFit` state its properties |
| LinearRegressionModel.RSquaredAtMostOne | regressions/linear-regression.js:58-68 | when tot, the labels' sum of squared deviations from their mean, is positive, R² is at most 1 |
| LinearRegressionModel.RSquaredOfExactFit | regressions/linear-regression.js:58-68 | predictions equal to the labels score R² = 1 (when tot > 0; with all labels equal the source computes `1 - 0/0`, which is NaN) |
| LinearRegressionModel.LinearRegression.constructor | regressions/linear-regression.js:5-18 | statistics computed from and stored for the training features; features are their design matrix; empty history; merged options; zero weights of shape (k + 1) × 1 |
| LinearRegressionModel.LinearRegression.ProcessFeatures | regressions/linear-regression.js:71-83 | stored statistics are reused unchanged, absent ones are computed once and stored; the result is the design matrix under the statistics now stored |
| LinearRegressionModel.LinearRegression.Standardize | regressions/linear-regression.js:85-92 | stores the column means and variances of its input and standardizes with them |
| LinearRegressionModel.LinearRegression.Train | regressions/linear-regression.js:20-37 | the weights, the history and the learning rate end equal to Run over iterations epochs from the starting state; the iteration count and batch size are unchanged |
| LinearRegressionModel.LinearRegression.RunEpoch | regressions/linear-regression.js:24-35 | one pass of the outer loop leaves the state equal to Epoch of the state before; the iteration count and batch size are unchanged |
| LinearRegressionModel.LinearRegression.RunEpochBatches | regressions/linear-regression.js:24-32 | the weights end equal to RunBatches over all whole batches |
| LinearRegressionModel.LinearRegression.GradientDescent | regressions/linear-regression.js:39-49 | the weights become one gradient step from the old weights at the current learning rate |
| LinearRegressionModel.LinearRegression.RecordMSE | regressions/linear-regression.js:94-103 | the history gains exactly the current mean squared error, at the front |
| LinearRegressionModel.LinearRegression.UpdateLearningRate | regressions/linear-regression.js:105-113 | only the learning rate changes, to NextLearningRate of the history |
| LinearRegressionModel.LinearRegression.Test | regressions/linear-regression.js:51-69 | the result is R² of the weights on the test design matrix built with the stored training statistics, which stay unchanged |
| LinearRegressionModel.LinearRegression.Predict | regressions/linear-regression.js:115-120 | the design matrix of the observations times the weights, one prediction per observation |
| LogisticRegressionModel.Mismatches | regressions/multinominal-logistics-regression/logistic-regression.js:67 | the count is at most the row count, and zero if and only if every class matches |
| LogisticRegressionModel.Accuracy | regressions/multinominal-logistics-regression/logistic-regression.js:67-69 | definition of the share of correct predictions; no ensures of its own. `AccuracyBounds` proves it lies in [0, 1] and is 1 exactly when every prediction is right |
| LogisticRegressionModel.ShareBounds | regressions/multinominal-logistics-regression/logistic-regression.js:69 | a part of a positive whole, over the whole, lies in [0, 1] and is 1 exactly when the part is the whole |
| LogisticRegressionModel.AccuracyBounds | regressions/multinominal-logistics-regression/logistic-regression.js:62-70 | on a nonempty test set the accuracy lies in [0, 1], and equals 1 if and only if every prediction is right |
| LogisticRegressionModel.Classify | regressions/multinominal-logistics-regression/logistic-regression.js:58 | one class per row, each below the class count |
| LogisticRegressionModel.ClassifyPicksMostProbable | regressions/multinominal-logistics-regression/logistic-regression.js:58 | the predicted class has the largest softmax output of its row, and the first one on ties |
| LogisticRegressionModel.NewAsWritten | regressions/multinominal-logistics-regression/logistic-regression.js:18 | as written, `new` yields the zero tensor, not an instance |
| LogisticRegressionModel.NewAsWrittenLosesInstance | regressions/multinominal-logistics-regression/logistic-regression.js:18 | with 3 inputs and 2 classes the caller receives a 4-row tensor and no model |
| LogisticRegressionModel.BatchAsWritten | regressions/multinominal-logistics-regression/logistic-regression.js:29-34 | as written, `gradientDescent` stores weights of the old shape, and the field holds undefined once the batch ends |
| LogisticRegressionModel.FirstBatchLosesWeights | regressions/multinominal-logistics-regression/logistic-regression.js:29-34 | as written, the first batch leaves the weights undefined, where the intended step leaves weights of the original shape |
| LogisticRegressionModel.LogisticRegression.constructor | regressions/multinominal-logistics-regression/logistic-regression.js:5-19 | statistics computed and stored, with zero variances filled; design-matrix features; empty history; merged options; zero weights of shape (k + 1) × classes |
| LogisticRegressionModel.LogisticRegression.ProcessFeatures | regressions/multinominal-logistics-regression/logistic-regression.js:72-84 | stored statistics are reused unchanged, absent ones are computed once and stored; the result is the design matrix; no stored variance is ever zero |
| LogisticRegressionModel.LogisticRegression.Standardize | regressions/multinominal-logistics-regression/logistic-regression.js:86-95 | stores the column means and the filled variances, and standardizes with the filled variances |
| LogisticRegressionModel.LogisticRegression.Train | regressions/multinominal-logistics-regression/logistic-regression.js:21-40 | the weights, the cost history and the learning rate end equal to Run over iterations epochs with softmax guesses; the iteration count and batch size are unchanged |
| LogisticRegressionModel.LogisticRegression.RunEpoch | regressions/multinominal-logistics-regression/logistic-regression.js:25-38 | one pass of the outer loop leaves the state equal to Epoch of the state before, with softmax guesses; the iteration count and batch size are unchanged |
| LogisticRegressionModel.LogisticRegression.RunEpochBatches | regressions/multinominal-logistics-regression/logistic-regression.js:25-35 | the weights end equal to RunBatches over all whole batches |
| LogisticRegressionModel.LogisticRegression.GradientDescent | regressions/multinominal-logistics-regression/logistic-regression.js:42-52 | the weights become one softmax gradient step from the old weights |
| LogisticRegressionModel.LogisticRegression.RecordCost | regressions/multinominal-logistics-regression/logistic-regression.js:97-111 | the history gains exactly the current cross-entropy cost, at the front |
| LogisticRegressionModel.LogisticRegression.UpdateLearningRate | regressions/multinominal-logistics-regression/logistic-regression.js:113-121 | only the learning rate changes, to NextLearningRate of the cost history |
| LogisticRegressionModel.LogisticRegression.Predict | regressions/multinominal-logistics-regression/logistic-regression.js:54-59 | the classes Classify gives on the observations' design matrix, built with the stored statistics, which stay unchanged |
| LogisticRegressionModel.LogisticRegression.Test | regressions/multinominal-logistics-regression/logistic-regression.js:62-70 | the accuracy of the predicted classes against the argmax of each one-hot test label row |

## Left out

- Floating point: tensors hold 32-bit floats, and the model computes on exact reals. NaN and the infinities from a division by zero (zero rows, zero total variance in R², a zero variance in the linear class, whose divisor `sqrt(0)` is zero by `ConstantColumnHasZeroVariance`) are modelled as an unspecified real returned by `Numerics.divide`.
- The tensor library's square root, logarithm and softmax are parameters. Nothing is assumed about log or softmax, so nothing is proved about softmax outputs summing to 1 or about the sign of the cost.
- The batch size must be positive (the constructors require it). In the source, a missing `batchSize` makes the batch count NaN, so no batch runs; a zero batch size gives an infinite batch count, and the inner loop never ends. The source validates no option: a non-positive learning rate, zero iterations and a batch size larger than the row count all run as in the code. `iterations` is a natural number here, so a negative count (zero epochs in the source) or a fractional one (`i < 2.5` runs three epochs) cannot be passed.
- Shapes: the model takes matrices whose shapes fit (linear labels with exactly one column, logistic labels with at least one class column). It does not model the errors or broadcasting the tensor library applies to mismatched shapes, nor the conversion of nested arrays to tensors.
- `decisionBoundary`: the logistic options default it to 0.5, but no method reads it, so `Options` does not carry it.
- `tf.tidy` disposes every tensor its callback allocates except the one the callback returns. The model has no tensor memory, so tidy has no counterpart here; the corrected logistic batch (see Findings) assumes `gradientDescent` returns the stepped weights, so that tidy keeps them.
- The driver scripts (`regressions/linear-regression/index.js`, `regressions/logistics-regression/index.js`) are not part of this model. CSV loading and plotting are not part of this model either.
- LinearRegressionModel.RSquaredOfExactFit: only "exact fit implies R² = 1" is proved, not the converse.
- Training.GradientStep: its contract states only the shape of the result. What the step computes is the definition itself; `GradientStepAtExactFit` and the class methods are proved against it.
- Features.ColumnMeans: its contract states only one mean per column. Its values are checked by `ConstantColumnHasZeroVariance`.
- Features.ColumnVariances: its contract states only one variance per column. Its values are checked by `VariancesNonNegative` and `ConstantColumnHasZeroVariance`.
- Features.Standardized: its contract states only the shape. The entries are stated by `Design`.
- Where the code computes something other than its names suggest, the model follows the code:
  - The recorded logistic cost is entry (0, 0) of the cost matrix, that is, the binary cross-entropy of class column 0 only (`CostReadsFirstClassOnly`).
  - The only exception is the logistic file's two defects (see Findings). There the model keeps the behaviour the rest of the class evidently relies on, and models the code as written beside it.

## Findings

| source | as written | input that shows it | evidently intended | confidence | as-written member | corrected member |
|---|---|---|---|---|---|---|
| regressions/multinominal-logistics-regression/logistic-regression.js:18 | the constructor ends with `return tf.zeros([...])`, so `new` yields that tensor instead of the instance, and `weights` is never set | any construction, e.g. 3 input columns and 2 classes | `this.weights = tf.zeros([...])`, as in the linear class | high; not executed | LogisticRegressionModel.NewAsWritten, LogisticRegressionModel.NewAsWrittenLosesInstance | LogisticRegressionModel.LogisticRegression.constructor |
| regressions/multinominal-logistics-regression/logistic-regression.js:29-34 | `this.weights = tf.tidy(() => this.gradientDescent(...))` stores the `undefined` that `gradientDescent` returns over the weights it just stored (line 51) | once line 18 is fixed so that an instance exists with zero weights (as written there is no instance, and an instance would fail at the first batch's `matMul(undefined)` since `weights` was never assigned): any training set with at least one whole batch, after which the weights are undefined | `gradientDescent` returns `this.weights.sub(...)`, so that tidy keeps that tensor and `train` stores it; storing it inside `gradientDescent` alone would leave a tensor tidy has disposed | high; not executed | LogisticRegressionModel.BatchAsWritten, LogisticRegressionModel.FirstBatchLosesWeights | LogisticRegressionModel.LogisticRegression.RunEpochBatches |
