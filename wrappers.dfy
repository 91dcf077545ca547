/** Python's None-or-value and raise-or-return, as values. */
module Wrappers {

  /** A value that may be Python's None. */
  datatype Option<+T> = None | Some(value: T)

  /** The outcome of a Python call that either returns a value or raises;
      the error names the exception class ("ValueError", "AttributeError", ...). */
  datatype Result<+T> = Ok(value: T) | Err(error: string)
}
