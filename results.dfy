/** Option and Result values: the model's stand-ins for JavaScript's `undefined`
    and for errors that the source throws. */
module Results {

  /** A value that may be absent (`undefined` in the source). */
  datatype Option<+T> = None | Some(value: T)

  /** Either a value or the error the source would have thrown. */
  datatype Result<+T, +E> = Ok(value: T) | Err(error: E)
}
