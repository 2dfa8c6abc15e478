/** Plain wrapper datatypes used across the model: `Option` for Python's
    `None`-or-value and `Result` for an operation that may raise. */
module Wrappers {

  datatype Option<+T> = None | Some(value: T)

  datatype Result<+T, +E> = Success(value: T) | Failure(error: E)
}
