/** The nullable results of Kotlin's `find`, as a value. */
module Wrappers {
  datatype Option<+T> = None | Some(value: T)
}
