/** Failure-carrying values shared by every module of the model. */
module Wrappers {

  /** Python's `X | None`. */
  datatype Option<+T> = None | Some(value: T)

  /** A value, or the Python exception that the operation lets escape. */
  datatype Result<+T, +E> = Ok(value: T) | Err(error: E)

  /** The Python exceptions that can escape the modelled code. */
  datatype PyError = ValueError | TypeError | AttributeError | KeyError
}
