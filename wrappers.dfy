/** An optional value, for a dictionary entry that may be absent. */
module Wrappers {

  datatype Option<+T> = None | Some(value: T)
}
