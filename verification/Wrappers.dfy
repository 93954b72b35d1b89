/** Small failure-carrying datatypes shared by every module. */
module Wrappers {

  datatype Option<+T> = None | Some(value: T)

  /** A handler's reply: `Ok` for `success: true`, `Err` for `success: false`. */
  datatype Result<+T> = Ok(value: T) | Err(error: string)
}
