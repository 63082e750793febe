/** The optional value used for prompt answers and for random draws that ran out. */
module Wrappers {
  datatype Option<+T> = None | Some(value: T)
}
