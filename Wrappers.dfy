/** Option and result wrappers shared by the other modules. */
module Wrappers {

  /** A value that may be absent: JavaScript's `null` / `undefined`. */
  datatype Option<+T> = None | Some(value: T)

  /** Either a value or an error, for operations that refuse some inputs. */
  datatype Result<+R, +E> = Success(value: R) | Failure(error: E)
}
