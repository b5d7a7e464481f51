/**
 * Splitting parsed CSV records into an input matrix and a label matrix.
 *
 * Every record has seven fields: four measurements followed by a one-hot
 * encoding of three classes. Record 0 is a header and is skipped. Both
 * matrices get one row per record INCLUDING the header, so their last row is
 * never written and stays zero. Reading the file and parsing the text of a
 * field are not modelled: a field arrives either as a parsed number or as
 * text that did not parse.
 */
module Dataset {
  import opened Wrappers
  import opened Errors
  import opened Matrices

  /** A CSV field after float parsing. */
  datatype Field = Parsed(value: real) | Malformed

  type Record = seq<Field>

  /** The fields of every record: four inputs, then three labels. */
  const FieldsPerRecord: nat := 7
  const InputWidth: nat := 4
  const LabelWidth: nat := 3

  /** Fields 4, 5 and 6 are labels; every other field is an input. */
  predicate IsLabelField(i: int) {
    i == 4 || i == 5 || i == 6
  }

  /** The CSV reader accepted the file: every record has seven fields. */
  predicate WellFormed(records: seq<Record>) {
    forall k :: 0 <= k < |records| ==> |records[k]| == FieldsPerRecord
  }

  /** Every field after the header parsed as a number. */
  predicate AllParsed(records: seq<Record>)
    requires WellFormed(records)
  {
    forall k, i :: 1 <= k < |records| && 0 <= i < FieldsPerRecord ==> records[k][i].Parsed?
  }

  /**
   * Field `i` of record `k` is the first field, in reading order and after the
   * header, that does not parse.
   */
  predicate FirstUnparsable(records: seq<Record>, k: int, i: int)
    requires WellFormed(records)
  {
    && 1 <= k < |records| && 0 <= i < FieldsPerRecord
    && records[k][i].Malformed?
    && (forall k2, i2 :: 1 <= k2 < k && 0 <= i2 < FieldsPerRecord ==> records[k2][i2].Parsed?)
    && (forall i2 :: 0 <= i2 < i ==> records[k][i2].Parsed?)
  }

  /** The numbers of a record whose fields all parsed. */
  function Values(record: Record): (v: seq<real>)
    requires forall i :: 0 <= i < |record| ==> record[i].Parsed?
    ensures |v| == |record| && forall i :: 0 <= i < |record| ==> v[i] == record[i].value
  {
    seq(|record|, i requires 0 <= i < |record| => record[i].value)
  }

  /** A row of `n` zeros. */
  function Zeros(n: nat): (z: seq<real>)
    ensures |z| == n && forall i :: 0 <= i < n ==> z[i] == 0.0
  {
    seq(n, _ => 0.0)
  }

  /** Row `k` of the input matrix: from record k + 1, or zero past the last record. */
  function InputRow(records: seq<Record>, k: nat): (row: seq<real>)
    requires WellFormed(records) && AllParsed(records) && k < |records|
    ensures |row| == InputWidth
  {
    if k + 1 < |records| then
      assert |records[k + 1]| == FieldsPerRecord;
      Values(records[k + 1])[..InputWidth]
    else Zeros(InputWidth)
  }

  /**
   * The input matrix: row k holds the four input fields of record k + 1, and
   * the last row, which no record fills, is zero.
   */
  function Inputs(records: seq<Record>): (m: Matrix)
    requires WellFormed(records) && AllParsed(records)
    ensures IsMatrix(m, |records|, InputWidth)
    ensures forall k :: 1 <= k < |records| ==> m[k - 1] == Values(records[k])[..InputWidth]
    ensures |records| > 0 ==> m[|records| - 1] == Zeros(InputWidth)
  {
    seq(|records|, k requires 0 <= k < |records| => InputRow(records, k))
  }

  /** Row `k` of the label matrix: from record k + 1, or zero past the last record. */
  function LabelRow(records: seq<Record>, k: nat): (row: seq<real>)
    requires WellFormed(records) && AllParsed(records) && k < |records|
    ensures |row| == LabelWidth
  {
    if k + 1 < |records| then
      assert |records[k + 1]| == FieldsPerRecord;
      Values(records[k + 1])[InputWidth..]
    else Zeros(LabelWidth)
  }

  /**
   * The label matrix: row k holds the three label fields of record k + 1, and
   * the last row is zero.
   */
  function Labels(records: seq<Record>): (m: Matrix)
    requires WellFormed(records) && AllParsed(records)
    ensures IsMatrix(m, |records|, LabelWidth)
    ensures forall k :: 1 <= k < |records| ==> m[k - 1] == Values(records[k])[InputWidth..]
    ensures |records| > 0 ==> m[|records| - 1] == Zeros(LabelWidth)
  {
    seq(|records|, k requires 0 <= k < |records| => LabelRow(records, k))
  }

  /** Data records processed once the loop has passed `idx` records, the header not counted. */
  function DataRecords(idx: nat): nat {
    if idx == 0 then 0 else idx - 1
  }

  /** Input fields among the first `i` fields of a record. */
  function InputsBefore(i: nat): nat {
    if i <= InputWidth then i else InputWidth
  }

  /** Label fields among the first `i` fields of a record. */
  function LabelsBefore(i: nat): nat {
    if i <= InputWidth then 0 else i - InputWidth
  }

  /**
   * The walk over the fields of one record: fields 4, 5 and 6 are appended to
   * the label buffer at `labelsIndex`, the others to the input buffer at
   * `inputsIndex`, and the walk stops at the first field that does not parse,
   * reporting its position. Nothing outside the four input and three label
   * slots is written.
   */
  method SplitRecord(record: Record, inputsData: array<real>, labelsData: array<real>, inputsIndex: nat, labelsIndex: nat)
    returns (malformedAt: Option<nat>, inputsNext: nat, labelsNext: nat)
    requires |record| == FieldsPerRecord && inputsData != labelsData
    requires inputsIndex + InputWidth <= inputsData.Length
    requires labelsIndex + LabelWidth <= labelsData.Length
    modifies inputsData, labelsData
    ensures malformedAt.None? <==> forall i :: 0 <= i < FieldsPerRecord ==> record[i].Parsed?
    ensures malformedAt.Some? ==>
              && malformedAt.value < FieldsPerRecord && record[malformedAt.value].Malformed?
              && forall i :: 0 <= i < malformedAt.value ==> record[i].Parsed?
    ensures malformedAt.None? ==> inputsNext == inputsIndex + InputWidth && labelsNext == labelsIndex + LabelWidth
    ensures malformedAt.None? ==> forall c :: 0 <= c < InputWidth ==> inputsData[inputsIndex + c] == record[c].value
    ensures malformedAt.None? ==> forall f :: InputWidth <= f < FieldsPerRecord ==>
              labelsData[labelsIndex + f - InputWidth] == record[f].value
    ensures forall t :: 0 <= t < inputsData.Length && !(inputsIndex <= t < inputsIndex + InputWidth) ==>
              inputsData[t] == old(inputsData[t])
    ensures forall t :: 0 <= t < labelsData.Length && !(labelsIndex <= t < labelsIndex + LabelWidth) ==>
              labelsData[t] == old(labelsData[t])
  {
    inputsNext, labelsNext := inputsIndex, labelsIndex;
    for i := 0 to |record|
      invariant inputsNext == inputsIndex + InputsBefore(i)
      invariant labelsNext == labelsIndex + LabelsBefore(i)
      invariant forall i2 :: 0 <= i2 < i ==> record[i2].Parsed?
      invariant forall c :: 0 <= c < i && c < InputWidth ==> inputsData[inputsIndex + c] == record[c].value
      invariant forall f :: InputWidth <= f < i ==> labelsData[labelsIndex + f - InputWidth] == record[f].value
      invariant forall t :: 0 <= t < inputsData.Length && !(inputsIndex <= t < inputsNext) ==>
                  inputsData[t] == old(inputsData[t])
      invariant forall t :: 0 <= t < labelsData.Length && !(labelsIndex <= t < labelsNext) ==>
                  labelsData[t] == old(labelsData[t])
    {
      match record[i] {
        case Malformed =>
          return Some(i), inputsNext, labelsNext;
        case Parsed(parsedVal) =>
          if IsLabelField(i) {
            labelsData[labelsNext] := parsedVal;
            labelsNext := labelsNext + 1;
            continue;
          }
          inputsData[inputsNext] := parsedVal;
          inputsNext := inputsNext + 1;
      }
    }
    malformedAt := None;
  }

  /**
   * The splitting loop: row-major buffers of 4 * n and 3 * n zeros, the
   * header skipped, each later field appended to the label buffer when it is
   * field 4, 5 or 6 and to the input buffer otherwise; the first field that
   * does not parse stops the loop with an error naming it. The buffers are
   * then read as n x 4 and n x 3 matrices.
   */
  method SplitRecords(records: seq<Record>) returns (r: Result<(Matrix, Matrix), Error>)
    requires |records| > 0 && WellFormed(records)
    ensures r.Success? <==> AllParsed(records)
    ensures r.Success? ==> r.value == (Inputs(records), Labels(records))
    ensures r.Failure? ==> r.error.Unparsable? && FirstUnparsable(records, r.error.record, r.error.field)
  {
    var n := |records|;
    var inputsData := new real[InputWidth * n](_ => 0.0);
    var labelsData := new real[LabelWidth * n](_ => 0.0);
    var inputsIndex, labelsIndex := 0, 0;

    for idx := 0 to n
      invariant inputsIndex == InputWidth * DataRecords(idx)
      invariant labelsIndex == LabelWidth * DataRecords(idx)
      invariant forall k, i :: 1 <= k < idx && 0 <= i < FieldsPerRecord ==> records[k][i].Parsed?
      invariant forall k, c :: 1 <= k < idx && 0 <= c < InputWidth ==>
                  inputsData[InputWidth * (k - 1) + c] == records[k][c].value
      invariant forall k, f :: 1 <= k < idx && InputWidth <= f < FieldsPerRecord ==>
                  labelsData[LabelWidth * (k - 1) + f - InputWidth] == records[k][f].value
      invariant forall t :: inputsIndex <= t < inputsData.Length ==> inputsData[t] == 0.0
      invariant forall t :: labelsIndex <= t < labelsData.Length ==> labelsData[t] == 0.0
    {
      if idx == 0 {
        continue;
      }
      var malformedAt;
      malformedAt, inputsIndex, labelsIndex := SplitRecord(records[idx], inputsData, labelsData, inputsIndex, labelsIndex);
      match malformedAt {
        case Some(i) =>
          return Failure(Unparsable(idx, i));
        case None =>
      }
    }

    InputBufferIsInputs(records, inputsData[..]);
    LabelBufferIsLabels(records, labelsData[..]);
    var inputs := Reshape(inputsData[..], n, InputWidth);
    var labels := Reshape(labelsData[..], n, LabelWidth);
    r := Success((inputs, labels));
  }

  /** A filled input buffer, read as an n x 4 matrix, is `Inputs`. */
  lemma InputBufferIsInputs(records: seq<Record>, data: seq<real>)
    requires |records| > 0 && WellFormed(records) && AllParsed(records)
    requires |data| == InputWidth * |records|
    requires forall k, c :: 1 <= k < |records| && 0 <= c < InputWidth ==>
               data[InputWidth * (k - 1) + c] == records[k][c].value
    requires forall t :: InputWidth * (|records| - 1) <= t < |data| ==> data[t] == 0.0
    ensures Reshape(data, |records|, InputWidth) == Inputs(records)
  {
    var m := Reshape(data, |records|, InputWidth);
    forall k | 0 <= k < |records|
      ensures m[k] == Inputs(records)[k]
    {
      assert RowStart(k, InputWidth) == InputWidth * k;
    }
  }

  /** A filled label buffer, read as an n x 3 matrix, is `Labels`. */
  lemma LabelBufferIsLabels(records: seq<Record>, data: seq<real>)
    requires |records| > 0 && WellFormed(records) && AllParsed(records)
    requires |data| == LabelWidth * |records|
    requires forall k, f :: 1 <= k < |records| && InputWidth <= f < FieldsPerRecord ==>
               data[LabelWidth * (k - 1) + f - InputWidth] == records[k][f].value
    requires forall t :: LabelWidth * (|records| - 1) <= t < |data| ==> data[t] == 0.0
    ensures Reshape(data, |records|, LabelWidth) == Labels(records)
  {
    var m := Reshape(data, |records|, LabelWidth);
    forall k | 0 <= k < |records|
      ensures m[k] == Labels(records)[k]
    {
      assert RowStart(k, LabelWidth) == LabelWidth * k;
    }
  }

  /**
   * No field is lost or duplicated: for every record after the header, its
   * input row followed by its label row is the whole record, in order.
   */
  lemma SplitIsLossless(records: seq<Record>, k: int)
    requires WellFormed(records) && AllParsed(records)
    requires 1 <= k < |records|
    ensures Inputs(records)[k - 1] + Labels(records)[k - 1] == Values(records[k])
  {
    var v := Values(records[k]);
    assert v[..InputWidth] + v[InputWidth..] == v;
  }

  /**
   * The header's content never matters: two record lists that agree after
   * record 0 give the same matrices, even when one header does not parse.
   */
  lemma HeaderIsIgnored(records: seq<Record>, other: seq<Record>)
    requires WellFormed(records) && WellFormed(other)
    requires |records| == |other| > 0 && records[1..] == other[1..]
    requires AllParsed(records)
    ensures AllParsed(other)
    ensures Inputs(records) == Inputs(other) && Labels(records) == Labels(other)
  {
    forall k | 1 <= k < |records|
      ensures records[k] == other[k]
    {
      assert records[k] == records[1..][k - 1];
    }
  }
}
