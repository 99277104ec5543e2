/** The optional value used for quotes, parsed numbers and purchase prices. */
module Wrappers {

  datatype Option<+T> = None | Some(value: T)
}
