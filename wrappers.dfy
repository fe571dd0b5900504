/** Option and Result values used throughout the model. A Go `error` is modelled as
    `Option<string>`: `None` is a nil error, `Some(msg)` a non-nil error whose
    `Error()` text is `msg`. */
module Wrappers {

  datatype Option<+T> = None | Some(value: T)

  /** The outcome of a library call that returns `(T, error)`. */
  datatype Result<+T> = Ok(value: T) | Err(error: string)
}
