/** Option and Result values used where the Python code returns None or raises. */
module Wrappers {

  datatype Option<+T> = None | Some(value: T)

  /** The exceptions the modelled Python code can raise. */
  datatype PyError =
    | IndexError    // list assignment index out of range
    | ValueError    // raised explicitly by a renderer
    | AssertionError  // a failed `assert` statement

  datatype Result<+T> = Ok(value: T) | Err(error: PyError)
}
