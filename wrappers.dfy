/** The optional value used wherever the app holds something that may be
    null or undefined. */
module Wrappers {

  datatype Option<+T> = None | Some(value: T)
}
