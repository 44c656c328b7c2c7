module Wrappers {

  /** An optional value, standing for a field or result that may be None. */
  datatype Option<+T> = None | Some(value: T)
}
