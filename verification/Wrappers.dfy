/** A value that may be missing: a failed read, a failed parse, a step that cannot be taken. */
module Wrappers {

  datatype Option<+T> = None | Some(value: T)
}
