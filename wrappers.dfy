/** Option and Result, the two wrappers the model uses for JavaScript's
    `undefined`/`null` and for thrown errors. */
module Wrappers {
  datatype Option<T> = None | Some(value: T)

  datatype Result<T> = Ok(value: T) | Err(message: string)
  {
    predicate IsFailure() { Err? }
  }
}
