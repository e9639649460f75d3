/** Failure-carrying return values: the source signals a missing value with
    `undefined` and a failed computation by throwing. */
module Wrappers {

  datatype Option<+T> = None | Some(value: T)

  datatype Result<+R, +E> = Ok(value: R) | Err(error: E)
}
