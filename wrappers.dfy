/** A possibly absent value: a C pointer that may be NULL, or an option the
    engine has not been told about. */
module Wrappers {

  datatype Option<+T> = None | Some(value: T)
}
