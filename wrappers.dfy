/** Python's `None`-or-value and raise-or-return, as values. */
module Wrappers {

  /** A value that may be Python's `None`. */
  datatype Option<T> = None | Some(value: T)

  /** The outcome of a conversion that either returns a value or raises
      an exception whose text is `message`. */
  datatype Result<T> = Ok(value: T) | Err(message: string)
}
