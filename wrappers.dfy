/** A nullable reference of the source (a `Type*` that may be null, an
    owned child slot that may be empty) is an Option here. */
module Wrappers {
  datatype Option<+T> = None | Some(value: T)
}
