/** `LinearRegression`: least-squares regression trained by mini-batch gradient descent,
    scored by the coefficient of determination. */
module LinearRegressionModel {
  import opened Wrappers
  import opened Matrices
  import opened Features
  import opened Losses
  import opened Training

  /** `test`'s `res`: the sum of squared differences between labels and predictions. */
  function ResidualSumSquares(X: Matrix, Y: Matrix, W: Matrix): (r: real)
    requires IsMatrix(X, |X|, |W|) && IsMatrix(W, |W|, 1) && IsMatrix(Y, |X|, 1)
    ensures r >= 0.0
  {
    SumSquares(Sub(Y, MatMul(X, W, 1)))
  }

  /** `test`'s `tot`: the sum of squared differences between the labels and their mean. */
  function TotalSumSquares(num: Numerics, Y: Matrix): (r: real)
    ensures r >= 0.0
  {
    SumSquares(SubScalar(Y, num.divide(SumAll(Y), |Y| as real)))
  }

  /** `test`'s result `1 - res / tot`. */
  function RSquared(num: Numerics, X: Matrix, Y: Matrix, W: Matrix): real
    requires IsMatrix(X, |X|, |W|) && IsMatrix(W, |W|, 1) && IsMatrix(Y, |X|, 1)
  {
    1.0 - num.divide(ResidualSumSquares(X, Y, W), TotalSumSquares(num, Y))
  }

  /** When the labels vary at all, R² is at most 1. */
  lemma RSquaredAtMostOne(num: Numerics, X: Matrix, Y: Matrix, W: Matrix)
    requires IsMatrix(X, |X|, |W|) && IsMatrix(W, |W|, 1) && IsMatrix(Y, |X|, 1)
    requires Sound(num) && TotalSumSquares(num, Y) > 0.0
    ensures RSquared(num, X, Y, W) <= 1.0
  {
    var res, tot := ResidualSumSquares(X, Y, W), TotalSumSquares(num, Y);
    assert num.divide(res, tot) == res / tot;
  }

  /** Predictions that equal the labels score exactly 1. */
  lemma RSquaredOfExactFit(num: Numerics, X: Matrix, Y: Matrix, W: Matrix)
    requires IsMatrix(X, |X|, |W|) && IsMatrix(W, |W|, 1) && IsMatrix(Y, |X|, 1)
    requires Sound(num) && TotalSumSquares(num, Y) > 0.0 && MatMul(X, W, 1) == Y
    ensures RSquared(num, X, Y, W) == 1.0
  {
    SumSquaresOfZeros(Sub(Y, MatMul(X, W, 1)));
  }

  class LinearRegression {
    /** The tensor library's numeric primitives. */
    const num: Numerics
    /** The number of raw input columns, before the bias column. */
    const inputCols: nat

    /** The design matrix of the training features. */
    const features: Matrix
    const labels: Matrix
    /** Mean squared error after each epoch, newest first. */
    var mseHistory: seq<real>
    var options: Options
    var weights: Matrix
    /** Standardization statistics, absent until the first `ProcessFeatures`. */
    var mean: Option<seq<real>>
    var variance: Option<seq<real>>

    ghost predicate Valid()
      reads this
    {
      IsMatrix(features, |features|, inputCols + 1) &&
      IsMatrix(labels, |features|, 1) &&
      IsMatrix(weights, inputCols + 1, 1) &&
      mean.Some? && variance.Some? &&
      |mean.value| == inputCols && |variance.value| == inputCols &&
      options.batchSize > 0
    }

    /** Stored statistics, when present, have one entry per input column. */
    ghost predicate StatsFit()
      reads this
    {
      (mean.Some? ==> |mean.value| == inputCols) && (variance.Some? ==> |variance.value| == inputCols)
    }

    /** What `train` changes. */
    ghost function State(): TrainState
      reads this
    {
      TrainState(weights, mseHistory, options.learningRate)
    }

    /** The constructor standardizes the training features (computing and storing the
        statistics), merges the options over their defaults and starts from all-zero
        weights with one row per design column and a single column. */
    constructor (num: Numerics, rawFeatures: Matrix, inputCols: nat, rawLabels: Matrix, given: Overrides)
      requires IsMatrix(rawFeatures, |rawFeatures|, inputCols) && IsMatrix(rawLabels, |rawFeatures|, 1)
      requires given.batchSize > 0
      ensures Valid()
      ensures this.num == num && this.inputCols == inputCols
      ensures mean == Some(ColumnMeans(num, rawFeatures, inputCols))
      ensures variance == Some(ColumnVariances(num, rawFeatures, inputCols))
      ensures features == Design(num, rawFeatures, mean.value, variance.value, inputCols)
      ensures labels == rawLabels && mseHistory == []
      ensures options == WithDefaults(given)
      ensures weights == Zeros(inputCols + 1, 1)
    {
      this.num := num;
      this.inputCols := inputCols;
      // No statistics are stored yet, so `processFeatures` takes its `standardize`
      // branch: compute and store the statistics, then build the design matrix.
      var m := ColumnMeans(num, rawFeatures, inputCols);
      var v := ColumnVariances(num, rawFeatures, inputCols);
      mean, variance := Some(m), Some(v);
      features := Design(num, rawFeatures, m, v, inputCols);
      labels := rawLabels;
      mseHistory := [];
      options := WithDefaults(given);
      weights := Zeros(inputCols + 1, 1);
    }

    /** `processFeatures`: standardize with the stored statistics, computing and storing
        them first when there are none, then prepend the bias column. */
    method ProcessFeatures(raw: Matrix) returns (x: Matrix)
      requires IsMatrix(raw, |raw|, inputCols) && StatsFit()
      modifies this`mean, this`variance
      ensures mean.Some? && variance.Some? && StatsFit()
      ensures old(mean.Some? && variance.Some?) ==> mean == old(mean) && variance == old(variance)
      ensures !old(mean.Some? && variance.Some?) ==>
        mean == Some(ColumnMeans(num, raw, inputCols)) && variance == Some(ColumnVariances(num, raw, inputCols))
      ensures x == Design(num, raw, mean.value, variance.value, inputCols)
    {
      var standardized;
      if mean.Some? && variance.Some? {
        standardized := Standardized(num, raw, mean.value, variance.value, inputCols);
      } else {
        standardized := Standardize(raw);
      }
      x := PrependOnes(standardized);
    }

    /** `standardize`: store the column means and variances of `raw` and divide each
        centred entry by the square root of its column's variance. A zero variance is
        stored as it is. */
    method Standardize(raw: Matrix) returns (x: Matrix)
      requires IsMatrix(raw, |raw|, inputCols)
      modifies this`mean, this`variance
      ensures mean == Some(ColumnMeans(num, raw, inputCols))
      ensures variance == Some(ColumnVariances(num, raw, inputCols))
      ensures x == Standardized(num, raw, mean.value, variance.value, inputCols)
    {
      var m := ColumnMeans(num, raw, inputCols);
      var v := ColumnVariances(num, raw, inputCols);
      mean := Some(m);
      variance := Some(v);
      x := Standardized(num, raw, m, v, inputCols);
    }

    /** `train`: `iterations` epochs; each runs one gradient step per whole batch, then
        records the mean squared error and adapts the learning rate. */
    method Train()
      requires Valid()
      modifies this`weights, this`mseHistory, this`options
      ensures Valid()
      ensures options.iterations == old(options.iterations) && options.batchSize == old(options.batchSize)
      ensures State() == Run(Linear, num, features, labels, options.batchSize, 1, old(State()), options.iterations)
    {
      ghost var start, batchSize := State(), options.batchSize;
      var batchNum := BatchCount(|features|, options.batchSize);
      var i := 0;
      while i < options.iterations
        invariant 0 <= i <= options.iterations
        invariant Valid()
        invariant options.iterations == old(options.iterations) && options.batchSize == batchSize
        invariant State() == Run(Linear, num, features, labels, batchSize, 1, start, i)
      {
        RunOneMoreEpoch(Linear, num, features, labels, batchSize, 1, start, i);
        RunEpoch(batchNum);
        i := i + 1;
      }
    }

    /** The body of `train`'s outer loop: the batches, then the mean squared error, then the
        learning-rate update. */
    method RunEpoch(batchNum: nat)
      requires Valid() && batchNum == BatchCount(|features|, options.batchSize)
      modifies this`weights, this`mseHistory, this`options
      ensures Valid()
      ensures options.iterations == old(options.iterations) && options.batchSize == old(options.batchSize)
      ensures State() == Epoch(Linear, num, features, labels, options.batchSize, 1, old(State()))
    {
      RunEpochBatches(batchNum);
      RecordMSE();
      UpdateLearningRate();
    }

    /** The inner loop of `train`: one gradient step on each of the first `batchNum`
        batches, in order. */
    method RunEpochBatches(batchNum: nat)
      requires Valid() && batchNum == BatchCount(|features|, options.batchSize)
      modifies this`weights
      ensures Valid()
      ensures weights == RunBatches(Linear, num, features, labels, old(weights), options.learningRate,
                                    options.batchSize, batchNum, 1)
    {
      var j := 0;
      while j < batchNum
        invariant 0 <= j <= batchNum && j * options.batchSize <= |features|
        invariant Valid()
        invariant weights == RunBatches(Linear, num, features, labels, old(weights), options.learningRate,
                                        options.batchSize, j, 1)
      {
        var startIndex := j * options.batchSize;
        var batchSize := options.batchSize;
        BatchInBounds(|features|, batchSize, j);
        var featureSlice := features[startIndex..startIndex + batchSize];
        var labelSlice := labels[startIndex..startIndex + batchSize];
        RunOneMoreBatch(Linear, num, features, labels, old(weights), options.learningRate, batchSize, j, 1);
        GradientDescent(featureSlice, labelSlice);
        j := j + 1;
      }
    }

    /** `gradientDescent`: one step on a batch. */
    method GradientDescent(featureSlice: Matrix, labelSlice: Matrix)
      requires Valid()
      requires IsMatrix(featureSlice, |featureSlice|, inputCols + 1) && IsMatrix(labelSlice, |featureSlice|, 1)
      modifies this`weights
      ensures Valid()
      ensures weights == GradientStep(Linear, num, featureSlice, labelSlice, old(weights), options.learningRate, 1)
    {
      weights := GradientStep(Linear, num, featureSlice, labelSlice, weights, options.learningRate, 1);
    }

    /** `recordMSE`: the mean squared error over the whole training set goes to the front
        of the history. */
    method RecordMSE()
      requires Valid()
      modifies this`mseHistory
      ensures Valid()
      ensures mseHistory == [Loss(Linear, num, features, labels, weights, 1)] + old(mseHistory)
    {
      var mse := MeanSquaredError(num, features, labels, weights, 1);
      LossIsRecordedValue(Linear, num, features, labels, weights, 1);
      mseHistory := [mse] + mseHistory;
    }

    /** `updateLearningRate` */
    method UpdateLearningRate()
      modifies this`options
      ensures options == old(options).(learningRate := NextLearningRate(mseHistory, old(options.learningRate)))
    {
      if |mseHistory| < 2 {
        return;
      }
      if mseHistory[0] > mseHistory[1] {
        options := options.(learningRate := options.learningRate / 2.0);
      } else {
        options := options.(learningRate := options.learningRate * 1.05);
      }
    }

    /** `test`: R² of the predictions on the test set, whose features are standardized
        with the stored training statistics. */
    method Test(testFeatures: Matrix, testLabels: Matrix) returns (r2: real)
      requires Valid()
      requires IsMatrix(testFeatures, |testFeatures|, inputCols) && IsMatrix(testLabels, |testFeatures|, 1)
      modifies this`mean, this`variance
      ensures Valid() && mean == old(mean) && variance == old(variance)
      ensures r2 == RSquared(num, Design(num, testFeatures, mean.value, variance.value, inputCols), testLabels, weights)
    {
      var x := ProcessFeatures(testFeatures);
      r2 := RSquared(num, x, testLabels, weights);
    }

    /** `predict`: the design matrix of the observations times the weights. */
    method Predict(observations: Matrix) returns (predictions: Matrix)
      requires Valid()
      requires IsMatrix(observations, |observations|, inputCols)
      modifies this`mean, this`variance
      ensures Valid() && mean == old(mean) && variance == old(variance)
      ensures predictions == MatMul(Design(num, observations, mean.value, variance.value, inputCols), weights, 1)
      ensures IsMatrix(predictions, |observations|, 1)
    {
      var x := ProcessFeatures(observations);
      predictions := MatMul(x, weights, 1);
    }
  }
}
