/** The optional value used wherever the program has a nullable result. */
module Wrappers {
  datatype Option<+T> = None | Some(value: T)
}
