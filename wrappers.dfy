/** The optional value used for C's NULL: a token reference or the end-of-arguments sentinel. */
module Wrappers {
  datatype Option<+T> = None | Some(value: T)
}
