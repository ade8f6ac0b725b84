/** Optional values and the two ways an operation of the hub can end. */
module Wrappers {

  datatype Option<+T> = None | Some(value: T)

  /** The exception families the store and the lifecycle rules raise.
      `NotFound` to `Unavailable` are storage errors; `IllegalTransition`, `BadTime` and `Invalid`
      are the value errors raised by the lifecycle rules and by record validation. */
  datatype Error =
    | NotFound
    | Duplicate
    | Conflict
    | Integrity
    | Unavailable
    | IllegalTransition
    | BadTime
    | Invalid

  datatype Result<+T> = Ok(value: T) | Err(error: Error)
}
