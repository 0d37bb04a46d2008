/** The absent-or-present value used wherever the engine works with a pointer
    that may be null or an optional attribute array. */
module Wrappers {

  datatype Option<+T> = None | Some(value: T)
}
