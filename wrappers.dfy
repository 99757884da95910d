/** Optional values and results shared by the models of the container and of
    the validator. */
module Wrappers {
  datatype Option<T> = None | Some(value: T)

  /** The outcome of an operation that the Go code ends with a panic on
      failure: the panic becomes `Err`. */
  datatype Result<T, E> = Ok(value: T) | Err(error: E)
}
