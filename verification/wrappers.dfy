/** The optional value used wherever the server reads a JSON field or a
    request header that may be absent. */
module Wrappers {
  datatype Option<+T> = None | Some(value: T)
}
