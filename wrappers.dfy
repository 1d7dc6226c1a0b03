/** Optional values and error-carrying results, used wherever the Python
    code returns `None` or exits with an error message. */
module Wrappers {

  datatype Option<+T> = None | Some(value: T)

  datatype Result<+T, +E> = Ok(value: T) | Err(error: E)
}
