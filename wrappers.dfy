/** Optional values (a Java reference that may be null, an `Optional<T>`) and
    results of operations that may throw a business exception. */
module Wrappers {

  datatype Option<T> = None | Some(value: T)

  datatype Result<T, E> = Ok(value: T) | Err(error: E)
}
