/** The optional value used where Swift returns an optional or halts. */
module Wrappers {
  datatype Option<+T> = None | Some(value: T)
}
