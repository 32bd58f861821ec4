/** Option and Result values shared by the other modules. */
module Outcomes {

  datatype Option<T> = None | Some(value: T)

  /** The value of a computation that either succeeds or raises one of the errors in E. */
  datatype Result<T, E> = Ok(value: T) | Err(error: E)
}
