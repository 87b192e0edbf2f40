/** Optional values, results, and the exceptions the as-written models end in. */
module Outcomes {

  /** A value that may be absent (Python's `None`). */
  datatype Option<+T> = None | Some(value: T)

  /** The result of an operation that may fail with an error of type `E`. */
  datatype Result<+T, +E> = Ok(value: T) | Err(error: E)

  /** The Python exceptions that the source, as written, raises on the inputs
      recorded under "Findings" in the README. */
  datatype PythonError =
    | AttributeError  // an attribute or method looked up on an object that lacks it
    | TypeError       // a call with the wrong number of arguments, or a call of a non-callable
    | KeyError        // a dictionary lookup of a missing key
}
