/** Optional values, used for the source's `null`-able fields and callbacks. */
module Wrappers {

  datatype Option<+T> = None | Some(value: T)

  /** A step that either produced a value or raised an uncaught error. */
  datatype Result<+R, +E> = Ok(value: R) | Threw(error: E)
}
