/** An optional value: stands for a Java reference that may be null, or for the
    outcome of a parse that may throw. */
module Wrappers {

  datatype Option<+T> = None | Some(value: T)
}
