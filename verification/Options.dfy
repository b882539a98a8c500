/** A value that may be missing: a Python `None`, or an exception that the caller turns into nothing. */
module Options {
  datatype Option<T> = None | Some(value: T)
}
