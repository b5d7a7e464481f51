/**
 * Counting correct predictions on a labelled test set. The true class of a
 * sample is the first label column equal to 1.0, or column 0 when there is
 * none; a prediction row is a hit when its entry at the true class equals
 * the row's maximum, so a tie for the maximum counts as a hit.
 */
module Accuracy {
  import opened Matrices

  /** The position of the first 1.0 in `row`, or |row| when there is none. */
  function IndexOfOne(row: seq<real>): (c: nat)
    ensures c <= |row|
    ensures c < |row| ==> row[c] == 1.0
    ensures forall k :: 0 <= k < c ==> row[k] != 1.0
  {
    if |row| == 0 then 0
    else if row[0] == 1.0 then 0
    else 1 + IndexOfOne(row[1..])
  }

  /** The class a one-hot label row encodes: its first 1.0, defaulting to 0. */
  function TrueClass(labelRow: seq<real>): (c: nat)
    ensures c == 0 || c < |labelRow|
    ensures c < |labelRow| && (exists k :: 0 <= k < |labelRow| && labelRow[k] == 1.0) ==>
              labelRow[c] == 1.0 && forall k :: 0 <= k < c ==> labelRow[k] != 1.0
    ensures (forall k :: 0 <= k < |labelRow| ==> labelRow[k] != 1.0) ==> c == 0
  {
    var c := IndexOfOne(labelRow);
    if c < |labelRow| then c else 0
  }

  /** The largest entry of a non-empty row. */
  function RowMax(row: seq<real>): (m: real)
    requires |row| > 0
    ensures forall k :: 0 <= k < |row| ==> row[k] <= m
    ensures exists k :: 0 <= k < |row| && row[k] == m
  {
    if |row| == 1 then row[0]
    else
      var rest := RowMax(row[..|row| - 1]);
      if row[|row| - 1] > rest then row[|row| - 1] else rest
  }

  /** The prediction at the true class equals the row maximum. */
  predicate IsHit(predRow: seq<real>, labelRow: seq<real>)
    requires TrueClass(labelRow) < |predRow|
  {
    predRow[TrueClass(labelRow)] == RowMax(predRow)
  }

  /** No class is predicted more strongly than the true one. */
  predicate TrueClassIsMaximal(predRow: seq<real>, labelRow: seq<real>)
    requires TrueClass(labelRow) < |predRow|
  {
    forall k :: 0 <= k < |predRow| ==> predRow[k] <= predRow[TrueClass(labelRow)]
  }

  /**
   * Predictions and labels the counting loop can read: a non-empty
   * prediction row for every sample and a label row no wider than it.
   */
  predicate Comparable(predictions: Matrix, labels: Matrix) {
    && Rect(predictions) && Rect(labels)
    && |labels| >= |predictions|
    && (|predictions| > 0 ==> Cols(predictions) > 0)
    && Cols(labels) <= Cols(predictions)
  }

  /** The number of hits among the first `n` samples; never more than `n`. */
  function Hits(predictions: Matrix, labels: Matrix, n: nat): (h: nat)
    requires Comparable(predictions, labels) && n <= |predictions|
    ensures h <= n
  {
    if n == 0 then 0
    else Hits(predictions, labels, n - 1) + (if IsHit(predictions[n - 1], labels[n - 1]) then 1 else 0)
  }

  /** The label loop: the first column equal to 1.0, else 0. */
  method FindSpecies(labelRow: seq<real>) returns (species: nat)
    ensures species == TrueClass(labelRow)
  {
    species := 0;
    for idx := 0 to |labelRow|
      invariant forall k :: 0 <= k < idx ==> labelRow[k] != 1.0
    {
      if labelRow[idx] == 1.0 {
        species := idx;
        break;
      }
    }
  }

  /**
   * The counting loop: one pass over the prediction rows, adding one for
   * every hit. The count is exactly `Hits` and never exceeds the number of
   * predictions.
   */
  method CountHits(predictions: Matrix, labels: Matrix) returns (truePosNeg: nat)
    requires Comparable(predictions, labels)
    ensures truePosNeg == Hits(predictions, labels, |predictions|)
    ensures truePosNeg <= |predictions|
  {
    truePosNeg := 0;
    var numPreds := |predictions|;
    for i := 0 to numPreds
      invariant truePosNeg == Hits(predictions, labels, i)
    {
      var labelRow := labels[i];
      var species := FindSpecies(labelRow);
      if predictions[i][species] == RowMax(predictions[i]) {
        truePosNeg := truePosNeg + 1;
      }
    }
  }

  /**
   * A hit means exactly that no class is predicted more strongly than the
   * true one; ties with the maximum count as hits.
   */
  lemma HitIffTrueClassIsMaximal(predRow: seq<real>, labelRow: seq<real>)
    requires TrueClass(labelRow) < |predRow|
    ensures IsHit(predRow, labelRow) <==> TrueClassIsMaximal(predRow, labelRow)
  {
    var m := RowMax(predRow);
    var k :| 0 <= k < |predRow| && predRow[k] == m;
  }

  /**
   * When every prediction row is largest at its true class, every sample is
   * a hit: the count reaches the number of samples.
   */
  lemma {:induction false} AllMaximalGivesAllHits(predictions: Matrix, labels: Matrix, n: nat)
    requires Comparable(predictions, labels) && n <= |predictions|
    requires forall i :: 0 <= i < n ==> TrueClassIsMaximal(predictions[i], labels[i])
    ensures Hits(predictions, labels, n) == n
  {
    if n > 0 {
      AllMaximalGivesAllHits(predictions, labels, n - 1);
      HitIffTrueClassIsMaximal(predictions[n - 1], labels[n - 1]);
    }
  }

  /** The share of hits, the accuracy reported; it lies in [0, 1]. */
  function Accuracy(truePosNeg: nat, numPreds: nat): (a: real)
    requires 0 < numPreds && truePosNeg <= numPreds
    ensures 0.0 <= a <= 1.0
  {
    truePosNeg as real / numPreds as real
  }
}
