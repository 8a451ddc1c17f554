/** The optional value used where the Java code returns a reference or null. */
module Wrappers {

  datatype Option<+T> = None | Some(value: T)
}
