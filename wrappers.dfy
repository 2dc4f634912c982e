/** The optional value used wherever FpmManager.java keeps a nullable reference. */
module Wrappers {

  datatype Option<+T> = None | Some(value: T)
}
