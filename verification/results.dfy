/** Optional values and results with an error side, used for the program's
    `None` returns and its raised exceptions. */
module Results {

  /** A value that may be absent, as Python's `None`. */
  datatype Option<+T> = None | Some(value: T)

  /** Either the value an operation returns or the error it raises. */
  datatype Result<+T, +E> = Ok(value: T) | Err(error: E)
}
