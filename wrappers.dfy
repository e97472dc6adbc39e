/** The optional value returned by a parse that may fail (Swift's `Double?`). */
module Wrappers {

  datatype Option<+T> = None | Some(value: T)
}
