/** Small value wrappers shared by the other modules. */
module Common {

  /** Python's `X | None`. */
  datatype Option<+T> = None | Some(value: T)

  /** Either the value a call returned or what it raised. */
  datatype Result<+T, +E> = Ok(value: T) | Err(error: E)
}
