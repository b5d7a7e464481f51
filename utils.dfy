/**
 * Reduction of a matrix along one axis: the column sums as a single row
 * (axis 0, how back-propagation collapses per-sample gradients into a bias
 * gradient) or the row sums as a single column (axis 1).
 */
module Axis {
  import opened Wrappers
  import opened Errors
  import opened Matrices

  /** The 1 x cols matrix whose entry j is the sum of column j of `m`. */
  function ColumnSums(m: Matrix): (r: Matrix)
    requires Rect(m)
    ensures IsMatrix(r, 1, Cols(m))
    ensures forall j :: 0 <= j < Cols(m) ==> r[0][j] == Sum(Col(m, j))
  {
    [seq(Cols(m), j requires 0 <= j < Cols(m) => Sum(Col(m, j)))]
  }

  /** The rows x 1 matrix whose entry i is the sum of row i of `m`. */
  function RowSums(m: Matrix): (r: Matrix)
    requires Rect(m)
    ensures IsMatrix(r, |m|, 1)
    ensures forall i :: 0 <= i < |m| ==> r[i][0] == Sum(m[i])
  {
    seq(|m|, i requires 0 <= i < |m| => [Sum(m[i])])
  }

  /**
   * Axis 0 gives the column sums and axis 1 the row sums; any other axis is
   * an error and no matrix. The matrix library refuses to build a matrix
   * with no rows or no columns, so a reduction needs a non-empty `m`. `m` is
   * a value and cannot be changed; the reduction reads copies of its columns
   * and rows.
   */
  method SumAlongAxis(axis: int, m: Matrix) returns (r: Result<Matrix, Error>)
    requires Rect(m)
    requires axis == 0 || axis == 1 ==> |m| > 0 && Cols(m) > 0
    ensures axis == 0 ==> r == Success(ColumnSums(m))
    ensures axis == 1 ==> r == Success(RowSums(m))
    ensures axis != 0 && axis != 1 ==> r == Failure(BadAxis)
  {
    var numRows, numCols := |m|, Cols(m);
    if axis == 0 {
      var data := new real[numCols](_ => 0.0);
      for i := 0 to numCols
        invariant forall k :: 0 <= k < i ==> data[k] == Sum(Col(m, k))
      {
        var col := Col(m, i);
        data[i] := Sum(col);
      }
      var output := Reshape(data[..], 1, numCols);
      assert output == ColumnSums(m) by {
        assert output[0] == ColumnSums(m)[0];
      }
      r := Success(output);
    } else if axis == 1 {
      var data := new real[numRows](_ => 0.0);
      for i := 0 to numRows
        invariant forall k :: 0 <= k < i ==> data[k] == Sum(m[k])
      {
        var row := m[i];
        data[i] := Sum(row);
      }
      var output := Reshape(data[..], numRows, 1);
      assert output == RowSums(m) by {
        forall i | 0 <= i < numRows
          ensures output[i] == RowSums(m)[i]
        {
        }
      }
      r := Success(output);
    } else {
      r := Failure(BadAxis);
    }
  }

  /**
   * Both reductions account for every entry once: summing the column sums
   * gives the same grand total as summing the row sums.
   */
  lemma {:induction false} SumOfColumnSumsIsSumOfRowSums(m: Matrix)
    requires Rect(m) && |m| > 0
    ensures Sum(ColumnSums(m)[0]) == Sum(Col(RowSums(m), 0))
  {
    if |m| == 1 {
      OneRowSums(m);
    } else {
      var n := |m| - 1;
      var top := m[..n];
      assert Rect(top) && Cols(top) == Cols(m);
      calc {
        Sum(ColumnSums(m)[0]);
        { ColumnSumsOfLastRow(m); SumOfPointwiseSum(ColumnSums(m)[0], ColumnSums(top)[0], m[n]); }
        Sum(ColumnSums(top)[0]) + Sum(m[n]);
        { SumOfColumnSumsIsSumOfRowSums(top); }
        Sum(Col(RowSums(top), 0)) + Sum(m[n]);
        { RowSumsOfLastRow(m); }
        Sum(Col(RowSums(m), 0));
      }
    }
  }

  /** For a single row both totals are the sum of that row. */
  lemma OneRowSums(m: Matrix)
    requires Rect(m) && |m| == 1
    ensures Sum(ColumnSums(m)[0]) == Sum(m[0]) == Sum(Col(RowSums(m), 0))
  {
    forall j | 0 <= j < Cols(m)
      ensures ColumnSums(m)[0][j] == m[0][j]
    {
      var c := Col(m, j);
      assert c[..0] == [];
      assert Sum(c) == Sum(c[..0]) + c[0];
    }
    assert ColumnSums(m)[0] == m[0];
    assert Col(RowSums(m), 0)[..0] == [];
  }

  /** Adding a last row adds it, entry by entry, to the column sums. */
  lemma ColumnSumsOfLastRow(m: Matrix)
    requires Rect(m) && |m| > 1
    ensures Rect(m[..|m| - 1]) && Cols(m[..|m| - 1]) == Cols(m)
    ensures forall j :: 0 <= j < Cols(m) ==>
              ColumnSums(m)[0][j] == ColumnSums(m[..|m| - 1])[0][j] + m[|m| - 1][j]
  {
    var n := |m| - 1;
    forall j | 0 <= j < Cols(m)
      ensures ColumnSums(m)[0][j] == ColumnSums(m[..n])[0][j] + m[n][j]
    {
      assert Col(m, j)[..n] == Col(m[..n], j);
    }
  }

  /** Adding a last row appends its sum to the row sums. */
  lemma RowSumsOfLastRow(m: Matrix)
    requires Rect(m) && |m| > 1
    ensures Rect(m[..|m| - 1])
    ensures Sum(Col(RowSums(m), 0)) == Sum(Col(RowSums(m[..|m| - 1]), 0)) + Sum(m[|m| - 1])
  {
    var n := |m| - 1;
    assert Col(RowSums(m), 0)[..n] == Col(RowSums(m[..n]), 0);
  }

  /** Summation distributes over an entry-by-entry sum of two vectors. */
  lemma {:induction false} SumOfPointwiseSum(s: seq<real>, a: seq<real>, b: seq<real>)
    requires |s| == |a| == |b|
    requires forall k :: 0 <= k < |s| ==> s[k] == a[k] + b[k]
    ensures Sum(s) == Sum(a) + Sum(b)
  {
    if |s| > 0 {
      var n := |s| - 1;
      SumOfPointwiseSum(s[..n], a[..n], b[..n]);
    }
  }

  /** The column sums of a zero matrix are zero. */
  lemma ColumnSumsZero(m: Matrix)
    requires Rect(m) && IsZero(m)
    ensures IsZero(ColumnSums(m))
  {
    forall j | 0 <= j < Cols(m)
      ensures ColumnSums(m)[0][j] == 0.0
    {
      SumZero(Col(m, j));
    }
  }
}
