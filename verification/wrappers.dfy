/** Small failure-carrying datatypes shared by the other modules. */
module Wrappers {

  /** A value that may be absent (a missing property, an unset hook). */
  datatype Option<+T> = None | Some(value: T)

  /** A computation that either yields a value or an error description. */
  datatype Result<+T> = Ok(value: T) | Err(error: string)
}
