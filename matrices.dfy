/**
 * Dense real matrices, stored as a sequence of equally long rows, and the
 * operations of the matrix library the trainer calls. The library aborts the
 * program when operand shapes do not fit, so every shape requirement is a
 * precondition, and every operation states the shape of what it returns.
 */
module Matrices {

  type Matrix = seq<seq<real>>

  /** `m` has exactly `rows` rows of exactly `cols` entries each. */
  predicate IsMatrix(m: Matrix, rows: nat, cols: nat) {
    |m| == rows && forall i :: 0 <= i < |m| ==> |m[i]| == cols
  }

  /** The number of columns, read off the first row. */
  function Cols(m: Matrix): nat {
    if |m| == 0 then 0 else |m[0]|
  }

  /** Every row is as long as the first one. */
  predicate Rect(m: Matrix) {
    IsMatrix(m, |m|, Cols(m))
  }

  /** `a` and `b` have the same dimensions. */
  predicate SameShape(a: Matrix, b: Matrix) {
    Rect(a) && IsMatrix(b, |a|, Cols(a))
  }

  /** Every entry lies in the half-open interval [0, 1). */
  predicate InUnitInterval(m: Matrix) {
    forall i, j :: 0 <= i < |m| && 0 <= j < |m[i]| ==> 0.0 <= m[i][j] < 1.0
  }

  /** Every entry lies in the open interval (0, 1). */
  predicate InOpenUnitInterval(m: Matrix) {
    forall i, j :: 0 <= i < |m| && 0 <= j < |m[i]| ==> 0.0 < m[i][j] < 1.0
  }

  /**
   * The sum of a vector, accumulated from the front; a sum of non-negative
   * entries is non-negative.
   */
  function Sum(s: seq<real>): (t: real)
    ensures (forall i :: 0 <= i < |s| ==> s[i] >= 0.0) ==> t >= 0.0
  {
    if |s| == 0 then 0.0 else Sum(s[..|s| - 1]) + s[|s| - 1]
  }

  /** The inner product of two vectors of equal length. */
  function Dot(u: seq<real>, v: seq<real>): real
    requires |u| == |v|
  {
    if |u| == 0 then 0.0 else Dot(u[..|u| - 1], v[..|v| - 1]) + u[|u| - 1] * v[|v| - 1]
  }

  /** A copy of column `j`. */
  function Col(m: Matrix, j: nat): (c: seq<real>)
    requires Rect(m) && j < Cols(m)
    ensures |c| == |m| && forall i :: 0 <= i < |m| ==> c[i] == m[i][j]
  {
    seq(|m|, i requires 0 <= i < |m| => m[i][j])
  }

  /** Offset of the first entry of row `i` in a row-major buffer with `cols` columns. */
  function RowStart(i: nat, cols: nat): nat {
    i * cols
  }

  /** A flat row-major buffer viewed as a `rows` x `cols` matrix. */
  function Reshape(data: seq<real>, rows: nat, cols: nat): (m: Matrix)
    requires |data| == rows * cols
    ensures IsMatrix(m, rows, cols)
    ensures forall i, j :: 0 <= i < rows && 0 <= j < cols ==>
              RowStart(i, cols) + j < |data| && m[i][j] == data[RowStart(i, cols) + j]
  {
    RowsInBounds(rows, cols);
    seq(rows, i requires 0 <= i < rows =>
      seq(cols, j requires 0 <= j < cols => data[RowStart(i, cols) + j]))
  }

  /** Every row of a `rows` x `cols` matrix ends inside its row-major buffer. */
  lemma RowsInBounds(rows: nat, cols: nat)
    ensures forall i :: 0 <= i < rows ==> RowStart(i, cols) + cols <= rows * cols
  {
    forall i | 0 <= i < rows
      ensures RowStart(i, cols) + cols <= rows * cols
    {
      var k: nat := rows - 1 - i;
      assert rows * cols == (i + 1 + k) * cols;
      assert (i + 1 + k) * cols == i * cols + cols + k * cols;
    }
  }

  /** The matrix product `a * b`. */
  function MatMul(a: Matrix, b: Matrix): (r: Matrix)
    requires Rect(a) && Rect(b) && Cols(a) == |b|
    ensures IsMatrix(r, |a|, Cols(b))
    ensures forall i, j :: 0 <= i < |a| && 0 <= j < Cols(b) ==> r[i][j] == Dot(a[i], Col(b, j))
  {
    seq(|a|, i requires 0 <= i < |a| =>
      seq(Cols(b), j requires 0 <= j < Cols(b) => Dot(a[i], Col(b, j))))
  }

  /** The transpose: entry (j, i) of the result is entry (i, j) of `m`. */
  function Transpose(m: Matrix): (t: Matrix)
    requires Rect(m)
    ensures IsMatrix(t, Cols(m), |m|)
    ensures forall j, i :: 0 <= j < Cols(m) && 0 <= i < |m| ==> t[j][i] == m[i][j]
  {
    seq(Cols(m), j requires 0 <= j < Cols(m) => Col(m, j))
  }

  /** The element-wise sum. */
  function Add(a: Matrix, b: Matrix): (r: Matrix)
    requires SameShape(a, b)
    ensures IsMatrix(r, |a|, Cols(a))
    ensures forall i, j :: 0 <= i < |a| && 0 <= j < Cols(a) ==> r[i][j] == a[i][j] + b[i][j]
  {
    seq(|a|, i requires 0 <= i < |a| =>
      seq(Cols(a), j requires 0 <= j < Cols(a) => a[i][j] + b[i][j]))
  }

  /** The element-wise difference `a - b`. */
  function Sub(a: Matrix, b: Matrix): (r: Matrix)
    requires SameShape(a, b)
    ensures IsMatrix(r, |a|, Cols(a))
    ensures forall i, j :: 0 <= i < |a| && 0 <= j < Cols(a) ==> r[i][j] == a[i][j] - b[i][j]
  {
    seq(|a|, i requires 0 <= i < |a| =>
      seq(Cols(a), j requires 0 <= j < Cols(a) => a[i][j] - b[i][j]))
  }

  /** The element-wise (Hadamard) product. */
  function MulElem(a: Matrix, b: Matrix): (r: Matrix)
    requires SameShape(a, b)
    ensures IsMatrix(r, |a|, Cols(a))
    ensures forall i, j :: 0 <= i < |a| && 0 <= j < Cols(a) ==> r[i][j] == a[i][j] * b[i][j]
  {
    seq(|a|, i requires 0 <= i < |a| =>
      seq(Cols(a), j requires 0 <= j < Cols(a) => a[i][j] * b[i][j]))
  }

  /** Every entry multiplied by `c`. */
  function Scale(c: real, m: Matrix): (r: Matrix)
    requires Rect(m)
    ensures IsMatrix(r, |m|, Cols(m))
    ensures forall i, j :: 0 <= i < |m| && 0 <= j < Cols(m) ==> r[i][j] == c * m[i][j]
  {
    seq(|m|, i requires 0 <= i < |m| =>
      seq(Cols(m), j requires 0 <= j < Cols(m) => c * m[i][j]))
  }

  /** Entry (i, j) plus entry (0, j) of the bias row `b`: the bias is broadcast to every row. */
  function AddRowBias(m: Matrix, b: Matrix): (r: Matrix)
    requires Rect(m) && |b| > 0 && Cols(m) <= |b[0]|
    ensures IsMatrix(r, |m|, Cols(m))
    ensures forall i, j :: 0 <= i < |m| && 0 <= j < Cols(m) ==> r[i][j] == m[i][j] + b[0][j]
  {
    seq(|m|, i requires 0 <= i < |m| =>
      seq(Cols(m), j requires 0 <= j < Cols(m) => m[i][j] + b[0][j]))
  }

  /** `f` applied to every entry. */
  function Apply(f: real -> real, m: Matrix): (r: Matrix)
    requires Rect(m)
    ensures IsMatrix(r, |m|, Cols(m))
    ensures forall i, j :: 0 <= i < |m| && 0 <= j < Cols(m) ==> r[i][j] == f(m[i][j])
  {
    seq(|m|, i requires 0 <= i < |m| =>
      seq(Cols(m), j requires 0 <= j < Cols(m) => f(m[i][j])))
  }

  /** Every entry is zero. */
  predicate IsZero(m: Matrix) {
    forall i, j :: 0 <= i < |m| && 0 <= j < |m[i]| ==> m[i][j] == 0.0
  }

  /** An inner product with a zero vector on the left is zero. */
  lemma {:induction false} DotZeroLeft(u: seq<real>, v: seq<real>)
    requires |u| == |v|
    requires forall k :: 0 <= k < |u| ==> u[k] == 0.0
    ensures Dot(u, v) == 0.0
  {
    if |u| > 0 {
      DotZeroLeft(u[..|u| - 1], v[..|v| - 1]);
    }
  }

  /** An inner product with a zero vector on the right is zero. */
  lemma {:induction false} DotZeroRight(u: seq<real>, v: seq<real>)
    requires |u| == |v|
    requires forall k :: 0 <= k < |v| ==> v[k] == 0.0
    ensures Dot(u, v) == 0.0
  {
    if |u| > 0 {
      DotZeroRight(u[..|u| - 1], v[..|v| - 1]);
    }
  }

  /** The sum of zeros is zero. */
  lemma {:induction false} SumZero(s: seq<real>)
    requires forall k :: 0 <= k < |s| ==> s[k] == 0.0
    ensures Sum(s) == 0.0
  {
    if |s| > 0 {
      SumZero(s[..|s| - 1]);
    }
  }

  /** A product whose left factor is zero is zero. */
  lemma MatMulZeroLeft(a: Matrix, b: Matrix)
    requires Rect(a) && Rect(b) && Cols(a) == |b| && IsZero(a)
    ensures IsZero(MatMul(a, b))
  {
    forall i, j | 0 <= i < |a| && 0 <= j < Cols(b)
      ensures MatMul(a, b)[i][j] == 0.0
    {
      DotZeroLeft(a[i], Col(b, j));
    }
  }

  /** A product whose right factor is zero is zero. */
  lemma MatMulZeroRight(a: Matrix, b: Matrix)
    requires Rect(a) && Rect(b) && Cols(a) == |b| && IsZero(b)
    ensures IsZero(MatMul(a, b))
  {
    forall i, j | 0 <= i < |a| && 0 <= j < Cols(b)
      ensures MatMul(a, b)[i][j] == 0.0
    {
      DotZeroRight(a[i], Col(b, j));
    }
  }

  /** Adding a zero matrix of the same shape changes nothing. */
  lemma AddZero(a: Matrix, z: Matrix)
    requires SameShape(a, z) && IsZero(z)
    ensures Add(a, z) == a
  {
    var r := Add(a, z);
    forall i | 0 <= i < |a|
      ensures r[i] == a[i]
    {
    }
  }

  /** A matrix minus itself is zero. */
  lemma SubSelf(a: Matrix)
    requires Rect(a)
    ensures IsZero(Sub(a, a))
  {
  }

  /** An element-wise product with a zero left factor is zero. */
  lemma MulElemZeroLeft(a: Matrix, b: Matrix)
    requires SameShape(a, b) && IsZero(a)
    ensures IsZero(MulElem(a, b))
  {
    forall i, j | 0 <= i < |a| && 0 <= j < Cols(a)
      ensures MulElem(a, b)[i][j] == 0.0
    {
      assert a[i][j] == 0.0;
    }
  }

  /** A scaled zero matrix is zero. */
  lemma ScaleZero(c: real, m: Matrix)
    requires Rect(m) && IsZero(m)
    ensures IsZero(Scale(c, m))
  {
    forall i, j | 0 <= i < |m| && 0 <= j < Cols(m)
      ensures Scale(c, m)[i][j] == 0.0
    {
      assert m[i][j] == 0.0;
    }
  }

  /** Scaling by zero gives a zero matrix. */
  lemma ScaleByZero(m: Matrix)
    requires Rect(m)
    ensures IsZero(Scale(0.0, m))
  {
  }
}
