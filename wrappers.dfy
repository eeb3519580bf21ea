/** Optional values and success/failure results, used for the source's
    nullable fields and for the errors it raises. */
module Wrappers {

  datatype Option<+T> = None | Some(value: T)

  datatype Result<+R, +E> = Ok(value: R) | Err(error: E)
}
