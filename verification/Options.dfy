/** Data types shared by every component: a value that may be absent, an operation that either
    succeeds or raises a named error, and bytes. */
module Options {
  datatype Option<+T> = None | Some(value: T)

  datatype Result<+T, +E> = Ok(value: T) | Err(error: E)

  type Byte = b: int | 0 <= b < 256
}
