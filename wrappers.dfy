/** The optional-value type used wherever the harness either gets a value or an exception is raised. */
module Wrappers {
  datatype Option<+T> = None | Some(value: T)
}
