/** Optional values and success-or-error results, used for the store's nullable fields and for the
    collaborators (format converters, network calls) that can fail. */
module Wrappers {

  datatype Option<+T> = None | Some(value: T)

  datatype Result<+T, +E> = Ok(value: T) | Err(error: E)
}
