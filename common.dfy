/** Values shared by every part of the model: Go's `(value, error)` pairs and nil-able results. */
module Common {

  /** A value that may be absent (a nil pointer, a nil error). */
  datatype Option<+T> = None | Some(value: T)

  /** A Go `error` value, identified by its message. */
  datatype Error = Error(message: string)

  /** A Go result pair `(T, error)` where exactly one side is meaningful. */
  datatype Result<+T> = Ok(value: T) | Err(error: Error)

  /** One octet of a Go `[]byte`. */
  type Byte = x: int | 0 <= x < 256
}
