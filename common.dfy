/** Small value types shared by the other modules. */
module Common {

  datatype Option<T> = None | Some(value: T)

  /** The Python exceptions the modelled code can raise on well-typed data. */
  datatype Error =
    | IndexError  // `[][-1]`: a run whose event list is empty
    | TypeError   // indexing a `str` with a `str` key

  datatype Result<T> = Ok(value: T) | Err(error: Error)
}
