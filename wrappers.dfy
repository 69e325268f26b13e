/** Failure-compatible wrappers shared by every module of the model. */
module Wrappers {

  /** A value that may be absent (Python's `None`). */
  datatype Option<+T> = None | Some(value: T)

  /** The outcome of a check that either passes or raises an error. */
  datatype Outcome<+E> = Pass | Fail(error: E)

  /** `x or default` for an optional string: `None` and `""` are both falsy. */
  function OrElse(o: Option<string>, default: string): string
  {
    if o.Some? && o.value != "" then o.value else default
  }
}
