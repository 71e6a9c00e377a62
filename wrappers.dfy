/** Small failure-carrying datatypes shared by the catalog and contact modules. */
module Wrappers {
  /** A JavaScript value that may be absent (`undefined` or `null`), or present. */
  datatype Option<+T> = None | Some(value: T)

  /** The outcome of an operation that either yields a value or throws an error. */
  datatype Result<+T, +E> = Ok(value: T) | Err(error: E)
}
