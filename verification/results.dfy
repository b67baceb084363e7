/** The success-or-error outcome that the program's constructors and conversions return. */
module Results {

  /** A computed value, or the error that prevented it. */
  datatype Result<+T, +E> = Ok(value: T) | Err(error: E)
}
