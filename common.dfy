/** Small result types shared by the other modules. */
module Common {

  /** A value that may be absent (JavaScript `null` / `undefined`, SQL NULL). */
  datatype Option<+T> = None | Some(value: T)

  /** The outcome of a step that either produces a value or fails with an error. */
  datatype Result<+T, +E> = Success(value: T) | Failure(error: E)
}
