/** The conventional optional value, used for "no error" / "an error message". */
module Wrappers {

  datatype Option<+T> = None | Some(value: T)
}
