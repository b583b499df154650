/** Results of lookups, and of operations that may end in an error. */
module Wrappers {

  datatype Option<+T> = None | Some(value: T)

  /** Why an operation failed. `NotFound` is the one error callers of the
      repositories tell apart from the rest. */
  datatype Error = NotFound | Refused

  datatype Result<+T> = Ok(value: T) | Err(error: Error)
}
