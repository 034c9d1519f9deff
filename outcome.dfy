/** JavaScript's "a value or nothing" and "a value or a thrown error", as datatypes. */
module Outcome {

  /** `undefined` (None) or a value; also the result of `Array.prototype.find`. */
  datatype Option<+T> = None | Some(value: T)

  /** A completed evaluation (Ok) or an exception thrown while evaluating (Err). */
  datatype Result<+T, +E> = Ok(value: T) | Err(error: E)
}
