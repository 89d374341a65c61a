/** The optional value used for computations that can fail. */
module Wrappers {

  datatype Option<+T> = None | Some(value: T)
}
