/** Feature processing shared by both regression classes: per-column statistics
    (`tf.moments(features, 0)`), standardization with stored statistics, the bias column,
    and the zero-variance filler of the logistic variant. */
module Features {
  import opened Matrices

  /** Per-column mean of the rows, the first half of `tf.moments(features, 0)`. */
  function ColumnMeans(num: Numerics, raw: Matrix, k: nat): (mean: seq<real>)
    requires IsMatrix(raw, |raw|, k)
    ensures |mean| == k
  {
    seq(k, c requires 0 <= c < k => num.divide(Sum(Column(raw, k, c)), |raw| as real))
  }

  /** `s.sub(m)` for a vector `s` and a scalar `m`. */
  function Deviations(s: seq<real>, m: real): (d: seq<real>)
    ensures |d| == |s| && forall i :: 0 <= i < |s| ==> d[i] == s[i] - m
  {
    seq(|s|, i requires 0 <= i < |s| => s[i] - m)
  }

  /** Per-column population variance (divisor: the number of rows), the second half of
      `tf.moments(features, 0)`. */
  function ColumnVariances(num: Numerics, raw: Matrix, k: nat): (variance: seq<real>)
    requires IsMatrix(raw, |raw|, k)
    ensures |variance| == k
  {
    var mean := ColumnMeans(num, raw, k);
    seq(k, c requires 0 <= c < k =>
      num.divide(SumOfSquares(Deviations(Column(raw, k, c), mean[c])), |raw| as real))
  }

  /** `features.sub(mean).div(variance.pow(0.5))` */
  function Standardized(num: Numerics, raw: Matrix, mean: seq<real>, variance: seq<real>, k: nat): (x: Matrix)
    requires IsMatrix(raw, |raw|, k) && |mean| == k && |variance| == k
    ensures IsMatrix(x, |raw|, k)
  {
    seq(|raw|, i requires 0 <= i < |raw| =>
      seq(k, c requires 0 <= c < k => num.divide(raw[i][c] - mean[c], num.sqrt(variance[c]))))
  }

  /** The design matrix `processFeatures` returns: the standardized features after a
      column of ones. Column 0 is the bias column and column `c + 1` is input column `c`
      standardized with the given statistics. */
  function Design(num: Numerics, raw: Matrix, mean: seq<real>, variance: seq<real>, k: nat): (x: Matrix)
    requires IsMatrix(raw, |raw|, k) && |mean| == k && |variance| == k
    ensures IsMatrix(x, |raw|, k + 1)
    ensures forall i :: 0 <= i < |raw| ==> x[i][0] == 1.0
    ensures forall i, c :: 0 <= i < |raw| && 0 <= c < k ==>
      x[i][c + 1] == num.divide(raw[i][c] - mean[c], num.sqrt(variance[c]))
  {
    var x := PrependOnes(Standardized(num, raw, mean, variance, k));
    assert forall i, c :: 0 <= i < |raw| && 0 <= c < k ==> x[i][c + 1] == x[i][1..][c];
    x
  }

  /** The logistic variant's guard: `variance.add(variance.cast('bool').logicalNot())`,
      which adds 1 to exactly the entries that are zero. */
  function FillZeroVariances(variance: seq<real>): (filled: seq<real>)
    ensures |filled| == |variance|
    ensures forall c :: 0 <= c < |variance| ==> filled[c] != 0.0
    ensures forall c :: 0 <= c < |variance| && variance[c] != 0.0 ==> filled[c] == variance[c]
    ensures forall c :: 0 <= c < |variance| && variance[c] == 0.0 ==> filled[c] == 1.0
  {
    seq(|variance|, c requires 0 <= c < |variance| =>
      variance[c] + (if variance[c] == 0.0 then 1.0 else 0.0))
  }

  /** For at least one row, every computed variance is non-negative. */
  lemma VariancesNonNegative(num: Numerics, raw: Matrix, k: nat)
    requires Sound(num) && IsMatrix(raw, |raw|, k) && |raw| > 0
    ensures forall c :: 0 <= c < k ==> ColumnVariances(num, raw, k)[c] >= 0.0
  {
    var mean := ColumnMeans(num, raw, k);
    forall c | 0 <= c < k
      ensures ColumnVariances(num, raw, k)[c] >= 0.0
    {
      var ss := SumOfSquares(Deviations(Column(raw, k, c), mean[c]));
      assert ColumnVariances(num, raw, k)[c] == num.divide(ss, |raw| as real);
      assert num.divide(ss, |raw| as real) == ss / (|raw| as real);
    }
  }

  /** In the logistic variant every stored divisor `sqrt(variance)` is positive, so every
      standardized entry is an exact quotient. */
  lemma FilledStandardizationExact(num: Numerics, raw: Matrix, k: nat)
    requires Sound(num) && IsMatrix(raw, |raw|, k) && |raw| > 0
    ensures var mean := ColumnMeans(num, raw, k);
      var filled := FillZeroVariances(ColumnVariances(num, raw, k));
      (forall c :: 0 <= c < k ==> filled[c] > 0.0 && num.sqrt(filled[c]) > 0.0) &&
      forall i, c :: 0 <= i < |raw| && 0 <= c < k ==>
        Standardized(num, raw, mean, filled, k)[i][c] == (raw[i][c] - mean[c]) / num.sqrt(filled[c])
  {
    VariancesNonNegative(num, raw, k);
  }

  /** The sum of `n` copies of `v` is `n * v`. */
  lemma {:induction false} SumOfConstant(s: seq<real>, v: real)
    requires forall i :: 0 <= i < |s| ==> s[i] == v
    ensures Sum(s) == (|s| as real) * v
  {
    if s != [] {
      assert forall i :: 0 <= i < |s| - 1 ==> s[1..][i] == s[i + 1];
      SumOfConstant(s[1..], v);
    }
  }

  lemma CancelFactor(n: real, v: real)
    requires n != 0.0
    ensures (n * v) / n == v
  {
  }

  /** A constant input column has variance zero: the linear variant then divides by
      `sqrt(0)`, which is zero, while the logistic variant's filler turns the divisor
      into `sqrt(1)`. */
  lemma ConstantColumnHasZeroVariance(num: Numerics, raw: Matrix, k: nat, c: nat, v: real)
    requires Sound(num) && IsMatrix(raw, |raw|, k) && |raw| > 0 && c < k
    requires forall i :: 0 <= i < |raw| ==> raw[i][c] == v
    ensures ColumnMeans(num, raw, k)[c] == v
    ensures ColumnVariances(num, raw, k)[c] == 0.0
    ensures num.sqrt(ColumnVariances(num, raw, k)[c]) == 0.0
    ensures FillZeroVariances(ColumnVariances(num, raw, k))[c] == 1.0
  {
    var n := |raw| as real;
    var column := Column(raw, k, c);
    SumOfConstant(column, v);
    assert ColumnMeans(num, raw, k)[c] == num.divide(n * v, n);
    CancelFactor(n, v);
    var d := Deviations(column, v);
    SumOfSquaresOfZeros(d);
    assert ColumnVariances(num, raw, k)[c] == num.divide(0.0, n);
  }
}
