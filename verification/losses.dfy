/** The per-epoch loss values the two classes record: the mean squared error of
    `LinearRegression.recordMSE` and the cross-entropy cost of `LogisticRegression.recordCost`. */
module Losses {
  import opened Matrices

  /** `features.matMul(weights).sub(labels).pow(2).sum().div(rows)` */
  function MeanSquaredError(num: Numerics, X: Matrix, Y: Matrix, W: Matrix, m: nat): real
    requires IsMatrix(X, |X|, |W|) && IsMatrix(W, |W|, m) && IsMatrix(Y, |X|, m)
  {
    num.divide(SumSquares(Sub(MatMul(X, W, m), Y)), |X| as real)
  }

  /** Over at least one row the mean squared error is non-negative. */
  lemma MeanSquaredErrorNonNegative(num: Numerics, X: Matrix, Y: Matrix, W: Matrix, m: nat)
    requires IsMatrix(X, |X|, |W|) && IsMatrix(W, |W|, m) && IsMatrix(Y, |X|, m)
    requires Sound(num) && |X| > 0
    ensures MeanSquaredError(num, X, Y, W, m) >= 0.0
  {
    var ss := SumSquares(Sub(MatMul(X, W, m), Y));
    assert MeanSquaredError(num, X, Y, W, m) == ss / (|X| as real);
  }

  /** Weights that reproduce the labels exactly have mean squared error zero. */
  lemma MeanSquaredErrorOfExactFit(num: Numerics, X: Matrix, Y: Matrix, W: Matrix, m: nat)
    requires IsMatrix(X, |X|, |W|) && IsMatrix(W, |W|, m) && IsMatrix(Y, |X|, m)
    requires Sound(num) && |X| > 0 && MatMul(X, W, m) == Y
    ensures MeanSquaredError(num, X, Y, W, m) == 0.0
  {
    SumSquaresOfZeros(Sub(MatMul(X, W, m), Y));
  }

  /** Sum over rows of `y log g + (1 - y) log(1 - g)` for one class column. */
  function BinaryCrossEntropySum(num: Numerics, y: seq<real>, g: seq<real>): real
    requires |y| == |g|
  {
    if y == [] then 0.0
    else y[0] * num.log(g[0]) + (y[0] * -1.0 + 1.0) * num.log(g[0] * -1.0 + 1.0)
         + BinaryCrossEntropySum(num, y[1..], g[1..])
  }

  /** `recordCost`: with `guesses = softmax(features · weights)`,
      `-((labelsᵀ · log(guesses) + (1 - labels)ᵀ · log(1 - guesses)) / rows)` at entry (0, 0). */
  function CrossEntropyCost(num: Numerics, X: Matrix, Y: Matrix, W: Matrix, m: nat): real
    requires IsMatrix(X, |X|, |W|) && IsMatrix(W, |W|, m) && IsMatrix(Y, |X|, m) && m > 0
  {
    var guesses := SoftmaxRows(num, MatMul(X, W, m));
    var termOne := MatMul(Transpose(Y, m), MapLog(num, guesses), m);
    var termTwo := MatMul(Transpose(OneMinus(Y), m), MapLog(num, OneMinus(guesses)), m);
    Scale(DivideAll(num, Add(termOne, termTwo), |X| as real), -1.0)[0][0]
  }

  /** The two dot products of entry (0, 0) add up to the binary cross-entropy sum. */
  lemma {:induction false} DotsAreCrossEntropy(num: Numerics, y: seq<real>, g: seq<real>,
                                              logG: seq<real>, oneMinusY: seq<real>, logOneMinusG: seq<real>)
    requires |y| == |g| == |logG| == |oneMinusY| == |logOneMinusG|
    requires forall i :: 0 <= i < |y| ==> logG[i] == num.log(g[i])
    requires forall i :: 0 <= i < |y| ==> oneMinusY[i] == y[i] * -1.0 + 1.0
    requires forall i :: 0 <= i < |y| ==> logOneMinusG[i] == num.log(g[i] * -1.0 + 1.0)
    ensures Dot(y, logG) + Dot(oneMinusY, logOneMinusG) == BinaryCrossEntropySum(num, y, g)
  {
    if y != [] {
      DotsAreCrossEntropy(num, y[1..], g[1..], logG[1..], oneMinusY[1..], logOneMinusG[1..]);
    }
  }

  /** The recorded cost is the binary cross-entropy of the FIRST class column alone: the
      other columns of the labels and of the guesses never reach the value, because the
      cost is read at entry (0, 0) of an m-by-m matrix. */
  lemma CostReadsFirstClassOnly(num: Numerics, X: Matrix, Y: Matrix, W: Matrix, m: nat)
    requires IsMatrix(X, |X|, |W|) && IsMatrix(W, |W|, m) && IsMatrix(Y, |X|, m) && m > 0
    ensures var guesses := SoftmaxRows(num, MatMul(X, W, m));
      CrossEntropyCost(num, X, Y, W, m) ==
        num.divide(BinaryCrossEntropySum(num, Column(Y, m, 0), Column(guesses, m, 0)), |X| as real) * -1.0
  {
    var guesses := SoftmaxRows(num, MatMul(X, W, m));
    var logG := MapLog(num, guesses);
    var oneMinusG := OneMinus(guesses);
    var logOneMinusG := MapLog(num, oneMinusG);
    var oneMinusY := OneMinus(Y);
    var termOne := MatMul(Transpose(Y, m), logG, m);
    var termTwo := MatMul(Transpose(oneMinusY, m), logOneMinusG, m);
    assert termOne[0][0] == Dot(Column(Y, m, 0), Column(logG, m, 0));
    assert termTwo[0][0] == Dot(Column(oneMinusY, m, 0), Column(logOneMinusG, m, 0));
    DotsAreCrossEntropy(num, Column(Y, m, 0), Column(guesses, m, 0), Column(logG, m, 0),
                        Column(oneMinusY, m, 0), Column(logOneMinusG, m, 0));
  }
}
