/** Optional values, and results that either carry a value or name the Python
    exception that ended the computation. */
module Wrappers {

  datatype Option<+T> = None | Some(value: T)

  /** The Python exceptions the modelled decoders can raise. */
  datatype PyError =
    | StopIteration   // next() on an exhausted line iterator
    | ValueError      // float() of a bad token, a short genfromtxt row, a shape mismatch
    | IndexError      // a list or array index past the end
    | KeyError        // a DataFrame label that does not exist
    | TypeError       // an operation applied to None

  /** A computation that either succeeds with a value or raises an exception.
      Failure-compatible, so `:-` propagates the exception. */
  datatype Result<+T> = Ok(value: T) | Err(error: PyError) {

    predicate IsFailure() {
      Err?
    }

    function PropagateFailure<U>(): Result<U>
      requires Err?
    {
      Err(error)
    }

    function Extract(): T
      requires Ok?
    {
      value
    }
  }
}
