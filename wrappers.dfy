/** Optional values and results that carry an error message, standing in for
    JavaScript's `undefined`/`null` and for thrown `Error` objects. */
module Wrappers {

  datatype Option<+T> = None | Some(value: T)

  /** `Err(message)` stands for `throw new Error(message)`. */
  datatype Result<+T> = Ok(value: T) | Err(message: string)
}
