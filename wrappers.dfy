/** Absent-or-present values and results that can fail, shared by every module of the model. */
module Wrappers {

  /** `None` stands for JavaScript's `null` or `undefined` where the source treats them alike. */
  datatype Option<+T> = None | Some(value: T)
  {
    /** The value, or `default` when absent. */
    function GetOr(default: T): T {
      if Some? then value else default
    }
  }

  /** `Failure` stands for a thrown error; its string is the error's message. */
  datatype Result<+T> = Success(value: T) | Failure(error: string)
}
