/** Optional values and success/failure outcomes shared by the browser and the backend model. */
module Wrappers {

  /** A value that may be missing: JavaScript `undefined`/`null`, Python `None`. */
  datatype Option<+T> = None | Some(value: T)

  /** The outcome of a call that may fail: a resolved promise or a raised exception. */
  datatype Result<+T, +E> = Ok(value: T) | Err(error: E)
}
