/** The usual optional value, used where the connector holds a reference that may be null. */
module Wrappers {

  datatype Option<+T> = None | Some(value: T)
}
