/** Option and Result, the value-or-nothing and value-or-error results used throughout the model. */
module Wrappers {

  /** A value that may be absent: Python's `Optional[T]`, or a SQL column that may be NULL. */
  datatype Option<+T> = None | Some(value: T)

  /** The outcome of an operation that either returns a value or raises an error. */
  datatype Result<+T, +E> = Ok(value: T) | Err(error: E)

  /** Python truthiness of an `Optional[str]`: present and non-empty. */
  predicate Truthy(s: Option<string>)
  {
    s.Some? && s.value != ""
  }
}
