/** Absence as a first-class value: Python's `None` for an optional field. */
module Wrappers {

  datatype Option<+T> = None | Some(value: T)

}
