/** A value that may be missing: a number that failed to parse, a line that was ignored. */
module Wrappers {
  datatype Option<T> = None | Some(value: T)
}
