/** The training control logic both classes share: options with their defaults, batch
    partitioning, the learning-rate rule, one gradient step, and the epoch loop as a
    function of the starting state. The classes run this loop imperatively and are proved
    to end in the state `Run` describes. */
module Training {
  import opened Wrappers
  import opened Matrices
  import opened Losses

  const DefaultLearningRate: real := 0.1
  const DefaultIterations: nat := 1000

  /** The options after merging the caller's values over the defaults. */
  datatype Options = Options(learningRate: real, iterations: nat, batchSize: nat)

  /** The options a caller passes; `batchSize` has no default. */
  datatype Overrides = Overrides(learningRate: Option<real>, iterations: Option<nat>, batchSize: nat)

  /** `Object.assign({ learningRate: 0.1, iterations: 1000 }, options)` */
  function WithDefaults(given: Overrides): (o: Options)
    ensures given.learningRate.Some? ==> o.learningRate == given.learningRate.value
    ensures given.learningRate.None? ==> o.learningRate == DefaultLearningRate
    ensures given.iterations.Some? ==> o.iterations == given.iterations.value
    ensures given.iterations.None? ==> o.iterations == DefaultIterations
    ensures o.batchSize == given.batchSize
  {
    Options(given.learningRate.GetOr(DefaultLearningRate), given.iterations.GetOr(DefaultIterations),
            given.batchSize)
  }

  // ---------------------------------------------------------------- batches

  /** `Math.floor(rows / batchSize)`: the largest count of whole batches that fits. */
  function BatchCount(rows: nat, batchSize: nat): (count: nat)
    requires batchSize > 0
    ensures count * batchSize <= rows < (count + 1) * batchSize
  {
    rows / batchSize
  }

  /** Batch `j` of an epoch is rows `[j * batchSize, j * batchSize + batchSize)`; for
      every batch the loop runs, that range lies within the first
      `BatchCount * batchSize` rows. */
  lemma BatchInBounds(rows: nat, batchSize: nat, j: nat)
    requires batchSize > 0 && j < BatchCount(rows, batchSize)
    ensures 0 <= j * batchSize
    ensures j * batchSize + batchSize <= BatchCount(rows, batchSize) * batchSize <= rows
  {
    var count := BatchCount(rows, batchSize);
    assert j + 1 <= count;
    assert (j + 1) * batchSize <= count * batchSize by {
      MultiplyMonotone(j + 1, count, batchSize);
    }
  }

  lemma MultiplyMonotone(a: nat, b: nat, c: nat)
    requires a <= b
    ensures a * c <= b * c
  {
  }

  /** Consecutive batches are contiguous: batch `j + 1` starts where batch `j` ends. */
  lemma BatchesContiguous(batchSize: nat, j: nat)
    ensures (j + 1) * batchSize == j * batchSize + batchSize
  {
  }

  /** No row lies in two different batches. */
  lemma BatchesDisjoint(batchSize: nat, j1: nat, j2: nat, r: nat)
    requires batchSize > 0
    requires j1 * batchSize <= r < j1 * batchSize + batchSize
    requires j2 * batchSize <= r < j2 * batchSize + batchSize
    ensures j1 == j2
  {
    if j1 < j2 {
      MultiplyMonotone(j1 + 1, j2, batchSize);
    } else if j2 < j1 {
      MultiplyMonotone(j2 + 1, j1, batchSize);
    }
  }

  /** Every row below `BatchCount * batchSize` lies in batch `r / batchSize`, and every row
      from `BatchCount * batchSize` on lies in no batch: the trailing rows are dropped. */
  lemma RowPlacement(rows: nat, batchSize: nat, r: nat)
    requires batchSize > 0 && r < rows
    ensures var count := BatchCount(rows, batchSize);
      r < count * batchSize ==>
        r / batchSize < count && (r / batchSize) * batchSize <= r < (r / batchSize) * batchSize + batchSize
    ensures var count := BatchCount(rows, batchSize);
      r >= count * batchSize ==>
        forall j :: 0 <= j < count ==> !(j * batchSize <= r < j * batchSize + batchSize)
  {
    var count := BatchCount(rows, batchSize);
    var q := r / batchSize;
    assert q * batchSize <= r < q * batchSize + batchSize;
    if r < count * batchSize {
      if q >= count {
        MultiplyMonotone(count, q, batchSize);
      }
    } else {
      forall j | 0 <= j < count
        ensures !(j * batchSize <= r < j * batchSize + batchSize)
      {
        BatchInBounds(rows, batchSize, j);
      }
    }
  }

  /** With 95 rows and batches of 10, nine batches run and the last five rows are skipped. */
  lemma NinetyFiveRowsMakeNineBatches()
    ensures BatchCount(95, 10) == 9 && BatchCount(95, 10) * 10 == 90
  {
  }

  // ---------------------------------------------------------------- learning rate

  /** `updateLearningRate`, given the loss history after this epoch's value was recorded
      (newest first): unchanged with fewer than two entries, halved when the newest loss is
      greater than the one before, and otherwise (equality included) multiplied by 1.05. */
  function NextLearningRate(history: seq<real>, rate: real): (r: real)
    ensures r == rate || r == rate / 2.0 || r == rate * 1.05
    ensures rate > 0.0 ==> r > 0.0
  {
    if |history| < 2 then rate
    else if history[0] > history[1] then rate / 2.0
    else rate * 1.05
  }

  /** For a positive rate, the rule falls exactly when the loss went up, grows exactly when
      it did not, and stays exactly when there is no earlier loss to compare with. */
  lemma LearningRateDirection(history: seq<real>, rate: real)
    requires rate > 0.0
    ensures NextLearningRate(history, rate) < rate <==> |history| >= 2 && history[0] > history[1]
    ensures NextLearningRate(history, rate) > rate <==> |history| >= 2 && history[0] <= history[1]
    ensures NextLearningRate(history, rate) == rate <==> |history| < 2
  {
  }

  /** A loss that rose from 5 to 6 halves the rate; a loss that fell from 5 to 4 multiplies
      it by 1.05; a first loss leaves it alone. */
  lemma LearningRateExamples()
    ensures NextLearningRate([6.0, 5.0], 0.1) == 0.05
    ensures NextLearningRate([4.0, 5.0, 6.0], 0.1) == 0.105
    ensures NextLearningRate([5.0], 0.1) == 0.1
  {
  }

  // ---------------------------------------------------------------- gradient descent

  /** The two model families: identity guesses with a mean squared error loss, or softmax
      guesses with a cross-entropy cost. */
  datatype Kind = Linear | Multinomial

  /** The state the epoch loop changes: the weights, the loss history (newest first) and
      the learning rate. */
  datatype TrainState = TrainState(weights: Matrix, history: seq<real>, learningRate: real)

  /** Features with `|W|` columns, labels with one row per feature row, weights with `m`
      columns. */
  ghost predicate Fits(X: Matrix, Y: Matrix, W: Matrix, m: nat) {
    IsMatrix(X, |X|, |W|) && IsMatrix(Y, |X|, m) && IsMatrix(W, |W|, m)
  }

  /** `currentGuesses`: `features.matMul(weights)`, then softmax for the multinomial kind. */
  function Guess(kind: Kind, num: Numerics, z: Matrix): (g: Matrix)
    ensures SameShape(g, z)
  {
    match kind
    case Linear => z
    case Multinomial => SoftmaxRows(num, z)
  }

  /** The loss recorded after each epoch, written as a sum over rows divided by the row
      count (negated for the cross-entropy cost). `LossIsRecordedValue` proves it equal to
      the tensor expressions `recordMSE` and `recordCost` evaluate. */
  function Loss(kind: Kind, num: Numerics, X: Matrix, Y: Matrix, W: Matrix, m: nat): real
    requires Fits(X, Y, W, m) && (kind.Multinomial? ==> m > 0)
  {
    match kind
    case Linear => num.divide(LossSum(kind, num, X, Y, W, m), |X| as real)
    case Multinomial => num.divide(LossSum(kind, num, X, Y, W, m), |X| as real) * -1.0
  }

  /** What one row of features `x` with labels `y` adds to the loss: its squared error, or
      the binary cross-entropy term of its first class column. */
  function RowLoss(kind: Kind, num: Numerics, x: seq<real>, y: seq<real>, W: Matrix, m: nat): (r: real)
    requires |x| == |W| && IsMatrix(W, |W|, m) && |y| == m && (kind.Multinomial? ==> m > 0)
    ensures kind.Linear? ==> r >= 0.0
  {
    var z := RowTimes(x, W, m);
    match kind
    case Linear => SumOfSquares(Difference(z, y))
    case Multinomial =>
      var g := num.softmax(z, 0);
      y[0] * num.log(g) + (y[0] * -1.0 + 1.0) * num.log(g * -1.0 + 1.0)
  }

  /** The sum of `RowLoss` over all rows; squared errors never sum to a negative value. */
  function LossSum(kind: Kind, num: Numerics, X: Matrix, Y: Matrix, W: Matrix, m: nat): (r: real)
    requires Fits(X, Y, W, m) && (kind.Multinomial? ==> m > 0)
    ensures kind.Linear? ==> r >= 0.0
    decreases |X|
  {
    if X == [] then 0.0
    else RowLoss(kind, num, X[0], Y[0], W, m) + LossSum(kind, num, X[1..], Y[1..], W, m)
  }

  /** Row by row, the linear loss sum is the sum of squares of `features · weights - labels`. */
  lemma {:induction false} SquaredErrorsByRows(num: Numerics, X: Matrix, Y: Matrix, W: Matrix, m: nat)
    requires Fits(X, Y, W, m)
    ensures LossSum(Linear, num, X, Y, W, m) == SumSquares(Sub(MatMul(X, W, m), Y))
    decreases |X|
  {
    if X != [] {
      SquaredErrorsByRows(num, X[1..], Y[1..], W, m);
      var differences := Sub(MatMul(X, W, m), Y);
      assert differences[0] == Difference(RowTimes(X[0], W, m), Y[0]);
      MatMulDropsRow(X, W, m);
      assert differences[1..] == Sub(MatMul(X[1..], W, m), Y[1..]);
    }
  }

  /** Row by row, the multinomial loss sum is the binary cross-entropy sum of the first
      label column against the first column of the softmax guesses. */
  lemma {:induction false} CrossEntropyByRows(num: Numerics, X: Matrix, Y: Matrix, W: Matrix, m: nat)
    requires Fits(X, Y, W, m) && m > 0
    ensures LossSum(Multinomial, num, X, Y, W, m) ==
      BinaryCrossEntropySum(num, Column(Y, m, 0), Column(SoftmaxRows(num, MatMul(X, W, m)), m, 0))
    decreases |X|
  {
    if X != [] {
      CrossEntropyByRows(num, X[1..], Y[1..], W, m);
      var guesses := SoftmaxRows(num, MatMul(X, W, m));
      assert Column(guesses, m, 0)[0] == num.softmax(RowTimes(X[0], W, m), 0);
      ColumnDropsRow(Y, m, 0);
      MatMulDropsRow(X, W, m);
      SoftmaxDropsRow(num, MatMul(X, W, m));
      ColumnDropsRow(guesses, m, 0);
    }
  }

  /** The loss is the value the classes record: the mean squared error for the linear
      kind and the cross-entropy cost for the multinomial kind. */
  lemma LossIsRecordedValue(kind: Kind, num: Numerics, X: Matrix, Y: Matrix, W: Matrix, m: nat)
    requires Fits(X, Y, W, m) && (kind.Multinomial? ==> m > 0)
    ensures kind.Linear? ==> Loss(kind, num, X, Y, W, m) == MeanSquaredError(num, X, Y, W, m)
    ensures kind.Multinomial? ==> Loss(kind, num, X, Y, W, m) == CrossEntropyCost(num, X, Y, W, m)
  {
    if kind.Linear? {
      SquaredErrorsByRows(num, X, Y, W, m);
    } else {
      CrossEntropyByRows(num, X, Y, W, m);
      CostReadsFirstClassOnly(num, X, Y, W, m);
    }
  }

  /** `gradientDescent` on one batch:
      `weights - lr * (featuresᵀ · (guesses - labels)) / batchRows`. */
  function GradientStep(kind: Kind, num: Numerics, X: Matrix, Y: Matrix, W: Matrix, lr: real, m: nat): (w: Matrix)
    requires Fits(X, Y, W, m)
    ensures IsMatrix(w, |W|, m)
  {
    var guesses := Guess(kind, num, MatMul(X, W, m));
    var differences := Sub(guesses, Y);
    var slopes := DivideAll(num, MatMul(Transpose(X, |W|), differences, m), |X| as real);
    Sub(W, Scale(slopes, lr))
  }

  /** When the guesses on a nonempty batch equal its labels, the gradient is zero and a
      step leaves the weights as they are, whatever the learning rate. */
  lemma GradientStepAtExactFit(kind: Kind, num: Numerics, X: Matrix, Y: Matrix, W: Matrix, lr: real, m: nat)
    requires Fits(X, Y, W, m) && Sound(num) && |X| > 0
    requires Guess(kind, num, MatMul(X, W, m)) == Y
    ensures GradientStep(kind, num, X, Y, W, lr, m) == W
  {
    var differences := Sub(Guess(kind, num, MatMul(X, W, m)), Y);
    var product := MatMul(Transpose(X, |W|), differences, m);
    forall t, j | 0 <= t < |W| && 0 <= j < m
      ensures product[t][j] == 0.0
    {
      DotZero(Transpose(X, |W|)[t], Column(differences, m, j));
    }
    var step := Scale(DivideAll(num, product, |X| as real), lr);
    forall t, j | 0 <= t < |W| && 0 <= j < m
      ensures step[t][j] == 0.0
    {
      assert DivideAll(num, product, |X| as real)[t][j] == num.divide(0.0, |X| as real);
    }
    SubZeros(W, step);
  }

  /** The weights after the first `j` batches of an epoch, each batch stepping from the
      weights the previous one left. */
  function RunBatches(kind: Kind, num: Numerics, X: Matrix, Y: Matrix, W: Matrix, lr: real,
                      batchSize: nat, j: nat, m: nat): (w: Matrix)
    requires batchSize > 0 && j * batchSize <= |X| && Fits(X, Y, W, m)
    ensures IsMatrix(w, |W|, m)
    decreases j, 0
  {
    if j == 0 then W else AfterBatch(kind, num, X, Y, W, lr, batchSize, j - 1, m)
  }

  /** The weights after batch `k`: one gradient step on rows
      `[k * batchSize, k * batchSize + batchSize)` from the weights the first `k` batches
      left. */
  function AfterBatch(kind: Kind, num: Numerics, X: Matrix, Y: Matrix, W: Matrix, lr: real,
                      batchSize: nat, k: nat, m: nat): (w: Matrix)
    requires batchSize > 0 && k * batchSize + batchSize <= |X| && Fits(X, Y, W, m)
    ensures IsMatrix(w, |W|, m)
    decreases k, 1
  {
    var start := k * batchSize;
    GradientStep(kind, num, X[start..start + batchSize], Y[start..start + batchSize],
                 RunBatches(kind, num, X, Y, W, lr, batchSize, k, m), lr, m)
  }

  /** Running one more batch is one more gradient step on rows
      `[j * batchSize, j * batchSize + batchSize)`. */
  lemma RunOneMoreBatch(kind: Kind, num: Numerics, X: Matrix, Y: Matrix, W: Matrix, lr: real,
                        batchSize: nat, j: nat, m: nat)
    requires batchSize > 0 && j * batchSize + batchSize <= |X| && Fits(X, Y, W, m)
    ensures (j + 1) * batchSize <= |X|
    ensures RunBatches(kind, num, X, Y, W, lr, batchSize, j + 1, m) ==
      GradientStep(kind, num, X[j * batchSize..j * batchSize + batchSize], Y[j * batchSize..j * batchSize + batchSize],
                   RunBatches(kind, num, X, Y, W, lr, batchSize, j, m), lr, m)
  {
  }

  /** One epoch: every whole batch in order, then one loss recorded at the front of the
      history, then one learning-rate adaptation. */
  function Epoch(kind: Kind, num: Numerics, X: Matrix, Y: Matrix, batchSize: nat, m: nat, s: TrainState): (r: TrainState)
    requires batchSize > 0 && Fits(X, Y, s.weights, m) && (kind.Multinomial? ==> m > 0)
    ensures IsMatrix(r.weights, |s.weights|, m)
    ensures |r.history| == |s.history| + 1 && r.history[1..] == s.history
    ensures s.learningRate > 0.0 ==> r.learningRate > 0.0
  {
    var count := BatchCount(|X|, batchSize);
    var w := RunBatches(kind, num, X, Y, s.weights, s.learningRate, batchSize, count, m);
    var history := [Loss(kind, num, X, Y, w, m)] + s.history;
    TrainState(w, history, NextLearningRate(history, s.learningRate))
  }

  /** `train`: `n` epochs from state `s`. */
  function Run(kind: Kind, num: Numerics, X: Matrix, Y: Matrix, batchSize: nat, m: nat, s: TrainState, n: nat): (r: TrainState)
    requires batchSize > 0 && Fits(X, Y, s.weights, m) && (kind.Multinomial? ==> m > 0)
    ensures IsMatrix(r.weights, |s.weights|, m)
    ensures |r.history| == |s.history| + n
    ensures s.learningRate > 0.0 ==> r.learningRate > 0.0
    decreases n, 0
  {
    if n == 0 then s else AfterEpoch(kind, num, X, Y, batchSize, m, s, n - 1)
  }

  /** The state after epoch `k` (counting from 0): one epoch from the state the first `k`
      epochs left. */
  function AfterEpoch(kind: Kind, num: Numerics, X: Matrix, Y: Matrix, batchSize: nat, m: nat, s: TrainState, k: nat): (r: TrainState)
    requires batchSize > 0 && Fits(X, Y, s.weights, m) && (kind.Multinomial? ==> m > 0)
    ensures IsMatrix(r.weights, |s.weights|, m)
    ensures |r.history| == |s.history| + k + 1
    ensures s.learningRate > 0.0 ==> r.learningRate > 0.0
    decreases k, 1
  {
    Epoch(kind, num, X, Y, batchSize, m, Run(kind, num, X, Y, batchSize, m, s, k))
  }

  /** Epoch `n + 1` starts from the state after `n` epochs: its batches step from those
      weights, its loss goes to the front of that history and the rate adapts to it. */
  lemma RunOneMoreEpoch(kind: Kind, num: Numerics, X: Matrix, Y: Matrix, batchSize: nat, m: nat, s: TrainState, n: nat)
    requires batchSize > 0 && Fits(X, Y, s.weights, m) && (kind.Multinomial? ==> m > 0)
    ensures var previous := Run(kind, num, X, Y, batchSize, m, s, n);
      var w := RunBatches(kind, num, X, Y, previous.weights, previous.learningRate, batchSize, BatchCount(|X|, batchSize), m);
      var history := [Loss(kind, num, X, Y, w, m)] + previous.history;
      Run(kind, num, X, Y, batchSize, m, s, n + 1) == TrainState(w, history, NextLearningRate(history, previous.learningRate))
  {
  }

  /** The history holds one loss per epoch, newest first: after `n` epochs, index
      `n - 1 - e` holds the loss recorded at the end of epoch `e` (counting from 0). */
  lemma {:induction false} HistoryNewestFirst(kind: Kind, num: Numerics, X: Matrix, Y: Matrix, batchSize: nat, m: nat,
                                              s: TrainState, n: nat, e: nat)
    requires batchSize > 0 && Fits(X, Y, s.weights, m) && (kind.Multinomial? ==> m > 0)
    requires e < n
    ensures Run(kind, num, X, Y, batchSize, m, s, n).history[n - 1 - e] ==
            Run(kind, num, X, Y, batchSize, m, s, e + 1).history[0]
    decreases n
  {
    if e < n - 1 {
      var r := Run(kind, num, X, Y, batchSize, m, s, n);
      var previous := Run(kind, num, X, Y, batchSize, m, s, n - 1);
      HistoryShifts(kind, num, X, Y, batchSize, m, s, n);
      assert r.history[n - 1 - e] == previous.history[n - 2 - e];
      HistoryNewestFirst(kind, num, X, Y, batchSize, m, s, n - 1, e);
    }
  }

  /** Training only adds entries in front: behind the `n` newest entries the history is
      the one training started with. */
  lemma {:induction false} HistoryKeepsOld(kind: Kind, num: Numerics, X: Matrix, Y: Matrix, batchSize: nat, m: nat,
                                           s: TrainState, n: nat)
    requires batchSize > 0 && Fits(X, Y, s.weights, m) && (kind.Multinomial? ==> m > 0)
    ensures Run(kind, num, X, Y, batchSize, m, s, n).history[n..] == s.history
  {
    if n > 0 {
      var r := Run(kind, num, X, Y, batchSize, m, s, n);
      var previous := Run(kind, num, X, Y, batchSize, m, s, n - 1);
      HistoryShifts(kind, num, X, Y, batchSize, m, s, n);
      HistoryKeepsOld(kind, num, X, Y, batchSize, m, s, n - 1);
      assert r.history[n..] == r.history[1..][n - 1..];
    }
  }

  /** After at least one epoch the newest history entry is the loss of the final weights. */
  lemma NewestIsFinalLoss(kind: Kind, num: Numerics, X: Matrix, Y: Matrix, batchSize: nat, m: nat, s: TrainState, n: nat)
    requires batchSize > 0 && Fits(X, Y, s.weights, m) && (kind.Multinomial? ==> m > 0)
    requires n > 0
    ensures var r := Run(kind, num, X, Y, batchSize, m, s, n);
      r.history[0] == Loss(kind, num, X, Y, r.weights, m)
  {
  }

  /** Behind its newest entry, the history after `n` epochs is the history after `n - 1`. */
  lemma HistoryShifts(kind: Kind, num: Numerics, X: Matrix, Y: Matrix, batchSize: nat, m: nat, s: TrainState, n: nat)
    requires batchSize > 0 && Fits(X, Y, s.weights, m) && (kind.Multinomial? ==> m > 0)
    requires n > 0
    ensures Run(kind, num, X, Y, batchSize, m, s, n).history[1..] == Run(kind, num, X, Y, batchSize, m, s, n - 1).history
  {
  }

  lemma EpochWithoutBatches(kind: Kind, num: Numerics, X: Matrix, Y: Matrix, batchSize: nat, m: nat, s: TrainState)
    requires batchSize > 0 && Fits(X, Y, s.weights, m) && (kind.Multinomial? ==> m > 0)
    requires |X| < batchSize
    ensures Epoch(kind, num, X, Y, batchSize, m, s).weights == s.weights
  {
    assert BatchCount(|X|, batchSize) == 0;
  }

  /** With fewer rows than one batch no gradient step runs, so the weights never change,
      yet every epoch still records a loss. */
  lemma {:induction false} NoBatchesKeepWeights(kind: Kind, num: Numerics, X: Matrix, Y: Matrix, batchSize: nat, m: nat,
                                                s: TrainState, n: nat)
    requires batchSize > 0 && Fits(X, Y, s.weights, m) && (kind.Multinomial? ==> m > 0)
    requires |X| < batchSize
    ensures Run(kind, num, X, Y, batchSize, m, s, n).weights == s.weights
    ensures |Run(kind, num, X, Y, batchSize, m, s, n).history| == |s.history| + n
  {
    if n > 0 {
      NoBatchesKeepWeights(kind, num, X, Y, batchSize, m, s, n - 1);
      EpochWithoutBatches(kind, num, X, Y, batchSize, m, Run(kind, num, X, Y, batchSize, m, s, n - 1));
    }
  }

  /** The batch steps read only the first `j * batchSize` rows: two data sets that agree
      on those rows give the same weights, so the trailing rows never influence them. */
  lemma {:induction false} BatchesIgnoreTrailingRows(kind: Kind, num: Numerics, X: Matrix, Y: Matrix,
                                                     X': Matrix, Y': Matrix, W: Matrix, lr: real,
                                                     batchSize: nat, j: nat, m: nat)
    requires batchSize > 0 && j * batchSize <= |X| && j * batchSize <= |X'|
    requires Fits(X, Y, W, m) && Fits(X', Y', W, m)
    requires X[..j * batchSize] == X'[..j * batchSize] && Y[..j * batchSize] == Y'[..j * batchSize]
    ensures RunBatches(kind, num, X, Y, W, lr, batchSize, j, m) == RunBatches(kind, num, X', Y', W, lr, batchSize, j, m)
    decreases j
  {
    if j > 0 {
      var start := (j - 1) * batchSize;
      assert start + batchSize == j * batchSize;
      PrefixesAgree(X, X', start, j * batchSize);
      PrefixesAgree(Y, Y', start, j * batchSize);
      BatchesIgnoreTrailingRows(kind, num, X, Y, X', Y', W, lr, batchSize, j - 1, m);
    }
  }

  /** Two sequences that agree on their first `end` elements agree on every shorter
      prefix and on every slice that ends by `end`. */
  lemma PrefixesAgree<T>(a: seq<T>, b: seq<T>, start: nat, end: nat)
    requires start <= end <= |a| && end <= |b| && a[..end] == b[..end]
    ensures a[..start] == b[..start] && a[start..end] == b[start..end]
  {
    assert a[..start] == a[..end][..start] && b[..start] == b[..end][..start];
    assert a[start..end] == a[..end][start..] && b[start..end] == b[..end][start..];
  }
}
