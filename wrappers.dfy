/** An optional value: a request field, a header or an environment variable
    that may be absent. */
module Wrappers {

  datatype Option<+T> = None | Some(value: T)
}
