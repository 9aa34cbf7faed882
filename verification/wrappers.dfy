/** Optional values and results with an error case, used by the lexer model. */
module Wrappers {

  /** An optional value. */
  datatype Option<+T> = None | Some(value: T)

  /** The outcome of a lexing step: a value, or the first error met. */
  datatype Result<+T, +E> = Ok(value: T) | Err(error: E)
}
