/** Dense real matrices, stored row by row, and the handful of tensor operations the
    two regression classes use. The numeric primitives the tensor library supplies
    and that have no exact counterpart on `real` (square root, IEEE division, log,
    softmax) are not defined here: they are values of the `Numerics` record, which
    the models receive as a parameter. */
module Matrices {

  type Matrix = seq<seq<real>>

  /** `m` has `rows` rows of `cols` entries each. */
  ghost predicate IsMatrix(m: Matrix, rows: nat, cols: nat) {
    |m| == rows && forall i :: 0 <= i < rows ==> |m[i]| == cols
  }

  /** `a` and `b` have the same number of rows, and rows of equal index have the same length. */
  ghost predicate SameShape(a: Matrix, b: Matrix) {
    |a| == |b| && forall i :: 0 <= i < |a| ==> |a[i]| == |b[i]|
  }

  /** The tensor library's numeric primitives. A division by zero, or the square root of
      a negative number, yields NaN or an infinity there; here it yields some real value
      that nothing is assumed about. */
  datatype Numerics = Numerics(
    sqrt: real -> real,
    divide: (real, real) -> real,
    log: real -> real,
    softmax: (seq<real>, nat) -> real)

  /** What the model relies on about the primitives: the square root of a positive
      number is positive, the square root of zero is zero (`pow(0, 0.5)`), and division
      by a nonzero number is exact. */
  ghost predicate Sound(num: Numerics) {
    (forall x: real :: x > 0.0 ==> num.sqrt(x) > 0.0) &&
    num.sqrt(0.0) == 0.0 &&
    (forall a: real, b: real :: b != 0.0 ==> num.divide(a, b) == a / b)
  }

  /** `tf.zeros([rows, cols])` */
  function Zeros(rows: nat, cols: nat): (z: Matrix)
    ensures IsMatrix(z, rows, cols)
    ensures forall i, j :: 0 <= i < rows && 0 <= j < cols ==> z[i][j] == 0.0
  {
    seq(rows, _ => seq(cols, _ => 0.0))
  }

  /** Sum of the entries of a vector. */
  function Sum(s: seq<real>): real {
    if s == [] then 0.0 else s[0] + Sum(s[1..])
  }

  /** Sum of the squares of the entries of a vector. */
  function SumOfSquares(s: seq<real>): (r: real)
    ensures r >= 0.0
  {
    if s == [] then 0.0 else s[0] * s[0] + SumOfSquares(s[1..])
  }

  function Dot(u: seq<real>, v: seq<real>): real
    requires |u| == |v|
  {
    if u == [] then 0.0 else u[0] * v[0] + Dot(u[1..], v[1..])
  }

  /** Column `j` of a matrix with `cols` columns. */
  function Column(a: Matrix, cols: nat, j: nat): (c: seq<real>)
    requires IsMatrix(a, |a|, cols) && j < cols
    ensures |c| == |a| && forall i :: 0 <= i < |a| ==> c[i] == a[i][j]
  {
    seq(|a|, i requires 0 <= i < |a| => a[i][j])
  }

  /** `a.transpose()` for a matrix with `cols` columns. */
  function Transpose(a: Matrix, cols: nat): (t: Matrix)
    requires IsMatrix(a, |a|, cols)
    ensures IsMatrix(t, cols, |a|)
    ensures forall j, i :: 0 <= j < cols && 0 <= i < |a| ==> t[j][i] == a[i][j]
  {
    seq(cols, j requires 0 <= j < cols => Column(a, cols, j))
  }

  /** `a.matMul(b)` for `b` with `p` columns; entry (i, j) is row i of `a` dotted with
      column j of `b`. */
  function MatMul(a: Matrix, b: Matrix, p: nat): (c: Matrix)
    requires IsMatrix(a, |a|, |b|) && IsMatrix(b, |b|, p)
    ensures IsMatrix(c, |a|, p)
  {
    seq(|a|, i requires 0 <= i < |a| => RowTimes(a[i], b, p))
  }

  /** Row `u` times the matrix `b` with `p` columns: `[u] · b`. */
  function RowTimes(u: seq<real>, b: Matrix, p: nat): (r: seq<real>)
    requires |u| == |b| && IsMatrix(b, |b|, p)
    ensures |r| == p
  {
    seq(p, j requires 0 <= j < p => Dot(u, Column(b, p, j)))
  }

  /** Entry-wise difference of two rows of the same length. */
  function Difference(u: seq<real>, v: seq<real>): (w: seq<real>)
    requires |u| == |v|
    ensures |w| == |u|
  {
    seq(|u|, j requires 0 <= j < |u| => u[j] - v[j])
  }

  /** `a.add(b)` for matrices of the same shape. */
  function Add(a: Matrix, b: Matrix): (c: Matrix)
    requires SameShape(a, b)
    ensures SameShape(c, a)
    ensures forall i, j :: 0 <= i < |a| && 0 <= j < |a[i]| ==> c[i][j] == a[i][j] + b[i][j]
  {
    seq(|a|, i requires 0 <= i < |a| => seq(|a[i]|, j requires 0 <= j < |a[i]| => a[i][j] + b[i][j]))
  }

  /** `a.sub(b)` for matrices of the same shape. */
  function Sub(a: Matrix, b: Matrix): (c: Matrix)
    requires SameShape(a, b)
    ensures SameShape(c, a)
    ensures forall i, j :: 0 <= i < |a| && 0 <= j < |a[i]| ==> c[i][j] == a[i][j] - b[i][j]
  {
    seq(|a|, i requires 0 <= i < |a| => Difference(a[i], b[i]))
  }

  /** `a.sub(x)` for a scalar `x`. */
  function SubScalar(a: Matrix, x: real): (c: Matrix)
    ensures SameShape(c, a)
  {
    seq(|a|, i requires 0 <= i < |a| => seq(|a[i]|, j requires 0 <= j < |a[i]| => a[i][j] - x))
  }

  /** `a.mul(x)` for a scalar `x`. */
  function Scale(a: Matrix, x: real): (c: Matrix)
    ensures SameShape(c, a)
  {
    seq(|a|, i requires 0 <= i < |a| => seq(|a[i]|, j requires 0 <= j < |a[i]| => a[i][j] * x))
  }

  /** `a.mul(-1).add(1)` */
  function OneMinus(a: Matrix): (c: Matrix)
    ensures SameShape(c, a)
  {
    seq(|a|, i requires 0 <= i < |a| => seq(|a[i]|, j requires 0 <= j < |a[i]| => a[i][j] * -1.0 + 1.0))
  }

  /** `a.div(d)` for a scalar `d`, with the library's division. */
  function DivideAll(num: Numerics, a: Matrix, d: real): (c: Matrix)
    ensures SameShape(c, a)
  {
    seq(|a|, i requires 0 <= i < |a| => seq(|a[i]|, j requires 0 <= j < |a[i]| => num.divide(a[i][j], d)))
  }

  /** `a.log()` */
  function MapLog(num: Numerics, a: Matrix): (c: Matrix)
    ensures SameShape(c, a)
  {
    seq(|a|, i requires 0 <= i < |a| => seq(|a[i]|, j requires 0 <= j < |a[i]| => num.log(a[i][j])))
  }

  /** `a.softmax()`: softmax along the last axis, row by row. */
  function SoftmaxRows(num: Numerics, a: Matrix): (c: Matrix)
    ensures SameShape(c, a)
  {
    seq(|a|, i requires 0 <= i < |a| => seq(|a[i]|, j requires 0 <= j < |a[i]| => num.softmax(a[i], j)))
  }

  /** `a.sum()`: the sum of all entries. */
  function SumAll(a: Matrix): real {
    if a == [] then 0.0 else Sum(a[0]) + SumAll(a[1..])
  }

  /** `a.pow(2).sum()`: the sum of the squares of all entries. */
  function SumSquares(a: Matrix): (r: real)
    ensures r >= 0.0
  {
    if a == [] then 0.0 else SumOfSquares(a[0]) + SumSquares(a[1..])
  }

  /** `tf.ones([n, 1]).concat(a, 1)`: a column of ones before the columns of `a`. */
  function PrependOnes(a: Matrix): (c: Matrix)
    ensures |c| == |a|
    ensures forall i :: 0 <= i < |a| ==> |c[i]| == |a[i]| + 1 && c[i][0] == 1.0 && c[i][1..] == a[i]
  {
    seq(|a|, i requires 0 <= i < |a| => [1.0] + a[i])
  }

  /** The index of the first largest entry of a nonempty row (`argMax`, which keeps the
      earlier index on ties). */
  function ArgMax(row: seq<real>): (k: nat)
    requires |row| > 0
    ensures k < |row|
    ensures forall i :: 0 <= i < |row| ==> row[i] <= row[k]
    ensures forall i :: 0 <= i < k ==> row[i] < row[k]
  {
    if |row| == 1 then 0
    else
      var k := ArgMax(row[..|row| - 1]);
      if row[|row| - 1] > row[k] then |row| - 1 else k
  }

  /** `a.argMax(1)`: for each row, the first index of a largest entry. */
  function ArgMaxRows(a: Matrix): (r: seq<nat>)
    requires forall i :: 0 <= i < |a| ==> |a[i]| > 0
    ensures |r| == |a| && forall i :: 0 <= i < |a| ==> r[i] < |a[i]|
    ensures forall i, c {:trigger a[i][c]} :: 0 <= i < |a| && 0 <= c < |a[i]| ==> a[i][c] <= a[i][r[i]]
    ensures forall i, c {:trigger a[i][c]} :: 0 <= i < |a| && 0 <= c < r[i] ==> a[i][c] < a[i][r[i]]
  {
    seq(|a|, i requires 0 <= i < |a| => ArgMax(a[i]))
  }

  /** Dropping the first row of `a` drops the first row of the product. */
  lemma MatMulDropsRow(a: Matrix, b: Matrix, p: nat)
    requires IsMatrix(a, |a|, |b|) && IsMatrix(b, |b|, p) && |a| > 0
    ensures MatMul(a[1..], b, p) == MatMul(a, b, p)[1..]
  {
    assert forall i :: 0 <= i < |a| - 1 ==> MatMul(a[1..], b, p)[i] == MatMul(a, b, p)[1..][i];
  }

  /** Dropping the first row of `a` drops the first entry of each of its columns. */
  lemma ColumnDropsRow(a: Matrix, cols: nat, j: nat)
    requires IsMatrix(a, |a|, cols) && j < cols && |a| > 0
    ensures Column(a[1..], cols, j) == Column(a, cols, j)[1..]
  {
  }

  /** Dropping the first row of `a` drops the first row of its softmax. */
  lemma SoftmaxDropsRow(num: Numerics, a: Matrix)
    requires |a| > 0
    ensures SoftmaxRows(num, a[1..]) == SoftmaxRows(num, a)[1..]
  {
    assert forall i :: 0 <= i < |a| - 1 ==> SoftmaxRows(num, a[1..])[i] == SoftmaxRows(num, a)[1..][i];
  }

  /** Subtracting a matrix of zeros changes nothing. */
  lemma SubZeros(a: Matrix, b: Matrix)
    requires SameShape(a, b)
    requires forall i, j :: 0 <= i < |b| && 0 <= j < |b[i]| ==> b[i][j] == 0.0
    ensures Sub(a, b) == a
  {
    forall i | 0 <= i < |a|
      ensures Sub(a, b)[i] == a[i]
    {
      assert forall j :: 0 <= j < |a[i]| ==> Sub(a, b)[i][j] == a[i][j];
    }
  }

  /** A vector of zeros has a zero sum of squares. */
  lemma {:induction false} SumOfSquaresOfZeros(s: seq<real>)
    requires forall i :: 0 <= i < |s| ==> s[i] == 0.0
    ensures SumOfSquares(s) == 0.0
  {
    if s != [] {
      assert forall i :: 0 <= i < |s| - 1 ==> s[1..][i] == s[i + 1];
      SumOfSquaresOfZeros(s[1..]);
    }
  }

  /** The same for a matrix. */
  lemma {:induction false} SumSquaresOfZeros(a: Matrix)
    requires forall i, j :: 0 <= i < |a| && 0 <= j < |a[i]| ==> a[i][j] == 0.0
    ensures SumSquares(a) == 0.0
  {
    if a != [] {
      SumOfSquaresOfZeros(a[0]);
      assert forall i :: 0 <= i < |a| - 1 ==> a[1..][i] == a[i + 1];
      SumSquaresOfZeros(a[1..]);
    }
  }

  /** A dot product with a zero vector is zero. */
  lemma {:induction false} DotZero(u: seq<real>, v: seq<real>)
    requires |u| == |v|
    requires forall i :: 0 <= i < |v| ==> v[i] == 0.0
    ensures Dot(u, v) == 0.0
  {
    if u != [] {
      assert forall i :: 0 <= i < |v| - 1 ==> v[1..][i] == v[i + 1];
      DotZero(u[1..], v[1..]);
    }
  }
}
