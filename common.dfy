/** The two shapes the rest of the model uses for values that may be absent
    (JavaScript's `null`/`undefined`) and for operations that may throw. */
module Common {

  datatype Option<+T> = None | Some(value: T)

  /** `Failure` stands for a thrown exception; `error` is what was thrown. */
  datatype Result<+T, +E> = Success(value: T) | Failure(error: E)
}
