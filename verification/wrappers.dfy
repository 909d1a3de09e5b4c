/** Optional values and results, standing in for Python's `None` and for
    exceptions that a caller is expected to handle. */
module Wrappers {

  datatype Option<+T> = None | Some(value: T)

  datatype Result<+R, +E> = Ok(value: R) | Err(error: E)
}
