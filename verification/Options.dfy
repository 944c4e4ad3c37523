/** Optional values and error results. */
module Options {
  datatype Option<+T> = None | Some(value: T)

  datatype Result<+T> = Ok(value: T) | Err(error: Error)

  /** Which of the source's refusals fired. */
  datatype Error =
    | ValueError
    | AssertionError
    | ZeroDivisionError
    | IndexError
    | RuntimeError
    | KeyError
}
