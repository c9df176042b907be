/** `LogisticRegression`: multinomial logistic regression (one softmax output per class)
    trained by the same mini-batch gradient descent, scored by classification accuracy. */
module LogisticRegressionModel {
  import opened Wrappers
  import opened Matrices
  import opened Features
  import opened Losses
  import opened Training

  // ---------------------------------------------------------------- scoring

  /** `predictions.notEqual(testLabels).sum()`: the number of positions where the two
      class sequences differ. */
  function Mismatches(predicted: seq<nat>, actual: seq<nat>): (n: nat)
    requires |predicted| == |actual|
    ensures n <= |predicted|
    ensures n == 0 <==> predicted == actual
  {
    if predicted == [] then 0
    else
      var rest := Mismatches(predicted[1..], actual[1..]);
      assert rest == 0 <==> predicted[1..] == actual[1..];
      assert predicted == [predicted[0]] + predicted[1..] && actual == [actual[0]] + actual[1..];
      (if predicted[0] != actual[0] then 1 else 0) + rest
  }

  /** `test`'s result: the share of correctly classified rows, with the library's
      division (no rows gives 0 / 0). */
  function Accuracy(num: Numerics, predicted: seq<nat>, actual: seq<nat>): real
    requires |predicted| == |actual|
  {
    num.divide((|predicted| - Mismatches(predicted, actual)) as real, |predicted| as real)
  }

  /** On a nonempty test set the accuracy lies in [0, 1], and it is 1 exactly when every
      prediction is right. */
  lemma AccuracyBounds(num: Numerics, predicted: seq<nat>, actual: seq<nat>)
    requires Sound(num) && |predicted| == |actual| && |predicted| > 0
    ensures 0.0 <= Accuracy(num, predicted, actual) <= 1.0
    ensures Accuracy(num, predicted, actual) == 1.0 <==> predicted == actual
  {
    var wrong := Mismatches(predicted, actual);
    var n := |predicted| as real;
    var right := (|predicted| - wrong) as real;
    assert Accuracy(num, predicted, actual) == right / n;
    ShareBounds(right, n);
    assert right == n <==> wrong == 0;
  }

  /** A part of a positive whole is a share in [0, 1], and the share is 1 exactly when
      the part is the whole. */
  lemma ShareBounds(part: real, whole: real)
    requires 0.0 <= part <= whole && whole > 0.0
    ensures 0.0 <= part / whole <= 1.0
    ensures part / whole == 1.0 <==> part == whole
  {
    if part / whole == 1.0 {
      assert part == (part / whole) * whole;
    }
  }

  /** `predict`'s class for each row: the index of the largest softmax output of
      `features · weights`. */
  function Classify(num: Numerics, X: Matrix, W: Matrix, m: nat): (classes: seq<nat>)
    requires IsMatrix(X, |X|, |W|) && IsMatrix(W, |W|, m) && m > 0
    ensures |classes| == |X| && forall i :: 0 <= i < |X| ==> classes[i] < m
  {
    ArgMaxRows(SoftmaxRows(num, MatMul(X, W, m)))
  }

  /** Each predicted class has a probability at least that of every other class, and
      greater than that of every class with a smaller index. */
  lemma ClassifyPicksMostProbable(num: Numerics, X: Matrix, W: Matrix, m: nat, i: nat)
    requires IsMatrix(X, |X|, |W|) && IsMatrix(W, |W|, m) && m > 0 && i < |X|
    ensures var z := MatMul(X, W, m); var k := Classify(num, X, W, m)[i];
      k < m &&
      (forall c :: 0 <= c < m ==> num.softmax(z[i], c) <= num.softmax(z[i], k)) &&
      (forall c :: 0 <= c < k ==> num.softmax(z[i], c) < num.softmax(z[i], k))
  {
    var z := MatMul(X, W, m);
    var probabilities := SoftmaxRows(num, z);
    assert forall c :: 0 <= c < m ==> probabilities[i][c] == num.softmax(z[i], c);
  }

  // ---------------------------------------------------------------- the code as written

  /** What a JavaScript `new` expression evaluates to: the fresh instance, unless the
      constructor returns an object, which then replaces the instance. `weights` is the
      instance's `weights` field, `None` while it is undefined. */
  datatype NewResult = Instance(weights: Option<Matrix>) | Returned(value: Matrix)

  /** `new LogisticRegression(...)` as written: the constructor ends with
      `return tf.zeros(...)` instead of assigning the tensor to `this.weights`, so the
      expression evaluates to the zero tensor and the instance is discarded. */
  function NewAsWritten(inputCols: nat, outputCols: nat): (r: NewResult)
    ensures r.Returned? && IsMatrix(r.value, inputCols + 1, outputCols)
  {
    Returned(Zeros(inputCols + 1, outputCols))
  }

  /** With three input columns and two classes the caller receives a 4×2 tensor, not a
      model it could train. */
  lemma NewAsWrittenLosesInstance()
    ensures !NewAsWritten(3, 2).Instance? && |NewAsWritten(3, 2).value| == 4
  {
  }

  /** One batch of `train` as written, as the pair (what `gradientDescent` stores in
      `this.weights`, what the field holds once the batch ends): `gradientDescent` stores
      the stepped weights and returns `undefined`; `tf.tidy` hands that back, and the
      assignment `this.weights = ...` stores it over the stepped weights. */
  function BatchAsWritten(num: Numerics, X: Matrix, Y: Matrix, W: Matrix, lr: real, m: nat): (r: (Matrix, Option<Matrix>))
    requires Fits(X, Y, W, m)
    ensures IsMatrix(r.0, |W|, m) && r.1.None?
  {
    var stored := GradientStep(Multinomial, num, X, Y, W, lr, m);
    var returned: Option<Matrix> := None;
    (stored, returned)
  }

  /** As written, the weights are undefined after the first batch of the first epoch
      (so the next `matMul` fails), where the intended step leaves weights of the
      original shape. */
  lemma FirstBatchLosesWeights(num: Numerics, X: Matrix, Y: Matrix, W: Matrix, lr: real, batchSize: nat, m: nat)
    requires batchSize > 0 && batchSize <= |X| && Fits(X, Y, W, m)
    ensures BatchAsWritten(num, X[..batchSize], Y[..batchSize], W, lr, m).1.None?
    ensures IsMatrix(RunBatches(Multinomial, num, X, Y, W, lr, batchSize, 1, m), |W|, m)
  {
    assert X[0..batchSize] == X[..batchSize];
  }

  // ---------------------------------------------------------------- the class

  class LogisticRegression {
    /** The tensor library's numeric primitives. */
    const num: Numerics
    /** The number of raw input columns, before the bias column. */
    const inputCols: nat
    /** The number of classes: label columns (one-hot) and weight columns. */
    const outputCols: nat

    /** The design matrix of the training features. */
    const features: Matrix
    /** One-hot labels, one column per class. */
    const labels: Matrix
    /** Cross-entropy cost after each epoch, newest first. */
    var costHistory: seq<real>
    var options: Options
    var weights: Matrix
    /** Standardization statistics, absent until the first `ProcessFeatures`; the stored
        variances have had their zeros replaced by 1. */
    var mean: Option<seq<real>>
    var variance: Option<seq<real>>

    ghost predicate Valid()
      reads this
    {
      outputCols > 0 &&
      IsMatrix(features, |features|, inputCols + 1) &&
      IsMatrix(labels, |features|, outputCols) &&
      IsMatrix(weights, inputCols + 1, outputCols) &&
      mean.Some? && variance.Some? && StatsFit() &&
      options.batchSize > 0
    }

    /** Stored statistics, when present, have one entry per input column, and no stored
        variance is zero. */
    ghost predicate StatsFit()
      reads this
    {
      (mean.Some? ==> |mean.value| == inputCols) &&
      (variance.Some? ==> |variance.value| == inputCols &&
                          forall c :: 0 <= c < inputCols ==> variance.value[c] != 0.0)
    }

    /** What `train` changes. */
    ghost function State(): TrainState
      reads this
    {
      TrainState(weights, costHistory, options.learningRate)
    }

    /** The constructor standardizes the training features (computing and storing the
        statistics, zero variances filled with 1), merges the options over their defaults
        and starts from all-zero weights with one row per design column and one column per
        class. */
    constructor (num: Numerics, rawFeatures: Matrix, inputCols: nat, rawLabels: Matrix, outputCols: nat,
                 given: Overrides)
      requires IsMatrix(rawFeatures, |rawFeatures|, inputCols) && IsMatrix(rawLabels, |rawFeatures|, outputCols)
      requires outputCols > 0 && given.batchSize > 0
      ensures Valid()
      ensures this.num == num && this.inputCols == inputCols && this.outputCols == outputCols
      ensures mean == Some(ColumnMeans(num, rawFeatures, inputCols))
      ensures variance == Some(FillZeroVariances(ColumnVariances(num, rawFeatures, inputCols)))
      ensures features == Design(num, rawFeatures, mean.value, variance.value, inputCols)
      ensures labels == rawLabels && costHistory == []
      ensures options == WithDefaults(given)
      ensures weights == Zeros(inputCols + 1, outputCols)
    {
      this.num := num;
      this.inputCols := inputCols;
      this.outputCols := outputCols;
      // No statistics are stored yet, so `processFeatures` takes its `standardize`
      // branch: compute and store the statistics, then build the design matrix.
      var m := ColumnMeans(num, rawFeatures, inputCols);
      var v := FillZeroVariances(ColumnVariances(num, rawFeatures, inputCols));
      mean, variance := Some(m), Some(v);
      features := Design(num, rawFeatures, m, v, inputCols);
      labels := rawLabels;
      costHistory := [];
      options := WithDefaults(given);
      // The source returns this tensor instead of storing it (see `NewAsWritten`).
      weights := Zeros(inputCols + 1, outputCols);
    }

    /** `processFeatures`: standardize with the stored statistics, computing and storing
        them first when there are none, then prepend the bias column. */
    method ProcessFeatures(raw: Matrix) returns (x: Matrix)
      requires IsMatrix(raw, |raw|, inputCols) && StatsFit()
      modifies this`mean, this`variance
      ensures mean.Some? && variance.Some? && StatsFit()
      ensures old(mean.Some? && variance.Some?) ==> mean == old(mean) && variance == old(variance)
      ensures !old(mean.Some? && variance.Some?) ==>
        mean == Some(ColumnMeans(num, raw, inputCols)) &&
        variance == Some(FillZeroVariances(ColumnVariances(num, raw, inputCols)))
      ensures x == Design(num, raw, mean.value, variance.value, inputCols)
    {
      var standardized;
      if mean.Some? && variance.Some? {
        standardized := Standardized(num, raw, mean.value, variance.value, inputCols);
      } else {
        standardized := Standardize(raw);
      }
      x := PrependOnes(standardized);
    }

    /** `standardize`: store the column means and the column variances with each zero
        replaced by 1, and divide each centred entry by the square root of its column's
        stored variance. */
    method Standardize(raw: Matrix) returns (x: Matrix)
      requires IsMatrix(raw, |raw|, inputCols)
      modifies this`mean, this`variance
      ensures mean == Some(ColumnMeans(num, raw, inputCols))
      ensures variance == Some(FillZeroVariances(ColumnVariances(num, raw, inputCols)))
      ensures StatsFit()
      ensures x == Standardized(num, raw, mean.value, variance.value, inputCols)
    {
      var m := ColumnMeans(num, raw, inputCols);
      var v := ColumnVariances(num, raw, inputCols);
      mean := Some(m);
      variance := Some(FillZeroVariances(v));
      x := Standardized(num, raw, m, variance.value, inputCols);
    }

    /** `train`: `iterations` epochs; each runs one gradient step per whole batch, then
        records the cost and adapts the learning rate. */
    method Train()
      requires Valid()
      modifies this`weights, this`costHistory, this`options
      ensures Valid()
      ensures options.iterations == old(options.iterations) && options.batchSize == old(options.batchSize)
      ensures State() == Run(Multinomial, num, features, labels, options.batchSize, outputCols, old(State()), options.iterations)
    {
      ghost var start, batchSize := State(), options.batchSize;
      var batchNum := BatchCount(|features|, options.batchSize);
      var i := 0;
      while i < options.iterations
        invariant 0 <= i <= options.iterations
        invariant Valid()
        invariant options.iterations == old(options.iterations) && options.batchSize == batchSize
        invariant State() == Run(Multinomial, num, features, labels, batchSize, outputCols, start, i)
      {
        RunOneMoreEpoch(Multinomial, num, features, labels, batchSize, outputCols, start, i);
        RunEpoch(batchNum);
        i := i + 1;
      }
    }

    /** The body of `train`'s outer loop: the batches, then the cost, then the
        learning-rate update. */
    method RunEpoch(batchNum: nat)
      requires Valid() && batchNum == BatchCount(|features|, options.batchSize)
      modifies this`weights, this`costHistory, this`options
      ensures Valid()
      ensures options.iterations == old(options.iterations) && options.batchSize == old(options.batchSize)
      ensures State() == Epoch(Multinomial, num, features, labels, options.batchSize, outputCols, old(State()))
    {
      RunEpochBatches(batchNum);
      RecordCost();
      UpdateLearningRate();
    }

    /** The inner loop of `train`: one gradient step on each of the first `batchNum`
        batches, in order. The source assigns the (undefined) result of `gradientDescent`
        to the weights (see `BatchAsWritten`); here the step's weights are kept. */
    method RunEpochBatches(batchNum: nat)
      requires Valid() && batchNum == BatchCount(|features|, options.batchSize)
      modifies this`weights
      ensures Valid()
      ensures weights == RunBatches(Multinomial, num, features, labels, old(weights), options.learningRate,
                                    options.batchSize, batchNum, outputCols)
    {
      var j := 0;
      while j < batchNum
        invariant 0 <= j <= batchNum && j * options.batchSize <= |features|
        invariant Valid()
        invariant weights == RunBatches(Multinomial, num, features, labels, old(weights), options.learningRate,
                                        options.batchSize, j, outputCols)
      {
        var startIndex := j * options.batchSize;
        var batchSize := options.batchSize;
        BatchInBounds(|features|, batchSize, j);
        var featureSlice := features[startIndex..startIndex + batchSize];
        var labelSlice := labels[startIndex..startIndex + batchSize];
        RunOneMoreBatch(Multinomial, num, features, labels, old(weights), options.learningRate, batchSize, j, outputCols);
        GradientDescent(featureSlice, labelSlice);
        j := j + 1;
      }
    }

    /** `gradientDescent`: one step on a batch, with softmax guesses. */
    method GradientDescent(featureSlice: Matrix, labelSlice: Matrix)
      requires Valid()
      requires IsMatrix(featureSlice, |featureSlice|, inputCols + 1) && IsMatrix(labelSlice, |featureSlice|, outputCols)
      modifies this`weights
      ensures Valid()
      ensures weights == GradientStep(Multinomial, num, featureSlice, labelSlice, old(weights), options.learningRate,
                                      outputCols)
    {
      weights := GradientStep(Multinomial, num, featureSlice, labelSlice, weights, options.learningRate, outputCols);
    }

    /** `recordCost`: the cross-entropy cost over the whole training set goes to the front
        of the history. */
    method RecordCost()
      requires Valid()
      modifies this`costHistory
      ensures Valid()
      ensures costHistory == [Loss(Multinomial, num, features, labels, weights, outputCols)] + old(costHistory)
    {
      var cost := CrossEntropyCost(num, features, labels, weights, outputCols);
      LossIsRecordedValue(Multinomial, num, features, labels, weights, outputCols);
      costHistory := [cost] + costHistory;
    }

    /** `updateLearningRate` */
    method UpdateLearningRate()
      modifies this`options
      ensures options == old(options).(learningRate := NextLearningRate(costHistory, old(options.learningRate)))
    {
      if |costHistory| < 2 {
        return;
      }
      if costHistory[0] > costHistory[1] {
        options := options.(learningRate := options.learningRate / 2.0);
      } else {
        options := options.(learningRate := options.learningRate * 1.05);
      }
    }

    /** `predict`: for each observation, the class with the largest softmax output,
        the observations standardized with the stored training statistics. */
    method Predict(observations: Matrix) returns (classes: seq<nat>)
      requires Valid()
      requires IsMatrix(observations, |observations|, inputCols)
      modifies this`mean, this`variance
      ensures Valid() && mean == old(mean) && variance == old(variance)
      ensures classes == Classify(num, Design(num, observations, mean.value, variance.value, inputCols), weights,
                                  outputCols)
      ensures |classes| == |observations| && forall i :: 0 <= i < |classes| ==> classes[i] < outputCols
    {
      var x := ProcessFeatures(observations);
      classes := Classify(num, x, weights, outputCols);
    }

    /** `test`: the accuracy of the predicted classes against the classes the one-hot
        test labels mark (`argMax(1)`). */
    method Test(testFeatures: Matrix, testLabels: Matrix) returns (accuracy: real)
      requires Valid()
      requires IsMatrix(testFeatures, |testFeatures|, inputCols) && IsMatrix(testLabels, |testFeatures|, outputCols)
      modifies this`mean, this`variance
      ensures Valid() && mean == old(mean) && variance == old(variance)
      ensures accuracy == Accuracy(num,
        Classify(num, Design(num, testFeatures, mean.value, variance.value, inputCols), weights, outputCols),
        ArgMaxRows(testLabels))
    {
      var predictions := Predict(testFeatures);
      var actual := ArgMaxRows(testLabels);
      accuracy := Accuracy(num, predictions, actual);
    }
  }
}
