/** The optional value used for inputs that may be absent (a missing header,
    an unparsable body) and for partial conversions. */
module Wrappers {
  datatype Option<+T> = None | Some(value: T)
}
