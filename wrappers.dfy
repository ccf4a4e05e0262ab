/** The nullable value (`T | null`, an optional property) and the success-or-thrown-error
    shapes that the modelled TypeScript code uses. */
module Wrappers {

  /** `None` stands for `null` or `undefined`. */
  datatype Option<+T> = None | Some(value: T)

  /** The outcome of an async call: a resolved value or a rejection. */
  datatype Result<+T, +E> = Ok(value: T) | Err(error: E)
}
