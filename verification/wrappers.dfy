/** A value that may be absent: a missing fetch, an empty label, a moving
    average whose window has not filled yet. */
module Wrappers {

  datatype Option<+T> = None | Some(value: T)

}
