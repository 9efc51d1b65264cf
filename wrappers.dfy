/** Values that stand in for Java's null references and thrown exceptions. */
module Wrappers {

  /** A reference that may be null: None is null. */
  datatype Option<+T> = None | Some(value: T)

  /** A call that either returns a value or throws: Err carries what was thrown. */
  datatype Result<+T, +E> = Ok(value: T) | Err(error: E)
}
