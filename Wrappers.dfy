/** Java references that may be null are modelled as values of Option. */
module Wrappers {

  datatype Option<+T> = None | Some(value: T)
}
