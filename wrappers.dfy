/** Failure-carrying values used across the model: Python's `None` and raised exceptions. */
module Wrappers {

  /** A value that may be absent (Python `None`). */
  datatype Option<+T> = None | Some(value: T) {
    function GetOr(default: T): T {
      match this
      case Some(v) => v
      case None => default
    }
  }

  /** The exceptions the modelled code raises or catches. */
  datatype Error =
    | FileNotFound     // open() of a missing file
    | JsonDecodeError  // json.load of a file that is not JSON
    | KeyError         // dict lookup of a missing key
    | TypeError        // indexing a list with a string, iterating a dict as records, ...
    | ValueError       // numpy shape mismatch, list.index of a missing value, min() of []
    | IndexError       // list index out of range
    | IOError          // a write that fails
    | RuntimeError     // the radio driver's error
    | OtherRadioError  // any radio exception that is not a RuntimeError

  /** Either a value or the exception that was raised instead. */
  datatype Result<+R> = Ok(value: R) | Err(error: Error) {
    predicate IsFailure() {
      Err?
    }

    function PropagateFailure<U>(): Result<U>
      requires Err?
    {
      Err(error)
    }

    function Extract(): R
      requires Ok?
    {
      value
    }
  }
}
