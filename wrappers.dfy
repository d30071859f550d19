/** Optional values and fallible results, used wherever the JavaScript code
    works with `null`/`undefined` or with a rejected promise. */
module Wrappers {

  datatype Option<+T> = None | Some(value: T)

  datatype Result<+T, +E> = Success(value: T) | Failure(error: E)
}
