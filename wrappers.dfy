/** Option and Result values used for optional argument bags and for conversion outcomes. */
module Wrappers {

  /** A value that may be absent (TypeScript's `undefined`). */
  datatype Option<+T> = None | Some(value: T)

  /** The outcome of a conversion: the converted value, or the check that failed. */
  datatype Result<+R, +E> = Success(value: R) | Failure(error: E)
}
