/** The nullable values of the source (a missing row, a NULL column). */
module Wrappers {
  datatype Option<+T> = None | Some(value: T)
}
