/** Optional values and success-or-error results, used for the calculator's
    absent metrics and for its error outcomes. */
module Wrappers {

  datatype Option<+T> = None | Some(value: T)

  datatype Result<+T, +E> = Ok(value: T) | Err(error: E)
}
