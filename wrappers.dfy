/** Option and Result, used for the trainer's error returns. */
module Wrappers {

  /** A value that may be absent (a nil pointer in the Go program). */
  datatype Option<+T> = None | Some(value: T)

  /** A value or an error, the pair `(T, error)` a Go function returns. */
  datatype Result<+T, +E> = Success(value: T) | Failure(error: E)
}

/** The errors the trainer and its helpers report. */
module Errors {

  datatype Error =
    | BadAxis                              // sumAlongAxis: axis is neither 0 nor 1
    | Untrained                            // Predict: a parameter tensor is missing
    | Unparsable(record: nat, field: nat)  // position of a CSV field that does not parse as a float
}
