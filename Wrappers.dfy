/** An optional value, for Go's (value, ok) and nil-or-pointer results. */
module Wrappers {
  datatype Option<T> = None | Some(value: T)
}
