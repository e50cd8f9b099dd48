/** A value that may be absent: Java's nullable references and the
    exceptions a parse can throw. */
module Wrappers {
  datatype Option<+T> = None | Some(value: T)
}
