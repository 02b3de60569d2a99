/** Option and Result, the two failure-carrying shapes the model uses
    for JavaScript's `null`/`undefined` values and thrown errors. */
module Wrappers {

  datatype Option<+T> = None | Some(value: T)

  /** `Err` carries the message of the `Error` the source throws. */
  datatype Result<+T> = Ok(value: T) | Err(message: string)
}
