/**
 Optional values, and results that may be an error.
 */
module Outcomes {
  datatype Option<+T> = None | Some(value: T)

  datatype Outcome<+T, +E> = Ok(value: T) | Error(error: E)
}
