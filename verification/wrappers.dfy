/** Optional values and fallible results used across the model. */
module Wrappers {

  /** A value that may be absent; stands for a nullable reference. */
  datatype Option<+T> = None | Some(value: T)

  /** The two runtime failures the hierarchy raises through its precondition checks. */
  datatype Error =
    | NullPointer      // a required argument was null
    | IllegalArgument  // an argument failed a range check

  /** Either the updated value or the error raised before anything was changed. */
  datatype Result<+T> = Ok(value: T) | Err(error: Error)
}
