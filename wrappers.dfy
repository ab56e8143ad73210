/** Small shared wrapper types. */
module Wrappers {

  /** A value that may be absent: PHP's `false`/`null` stand-ins. */
  datatype Option<T> = None | Some(value: T)
}
