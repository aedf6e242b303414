/** Optional values and results, standing in for JavaScript's `undefined`
    and for the exceptions the callable function throws. */
module Wrappers {

  datatype Option<+T> = None | Some(value: T)

  datatype Result<+T, +E> = Ok(value: T) | Err(error: E)
}
