/** Failure-carrying results shared by every module of the dashboard model. */
module Wrappers {

  /** An optional value: a selection that may be empty, a lookup that may miss. */
  datatype Option<+T> = None | Some(value: T)

  /** The outcome of a step that JavaScript would end by throwing: `Err` carries
      the thrown error's `message`. */
  datatype Result<+T> = Ok(value: T) | Err(message: string)
}
