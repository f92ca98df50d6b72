/** A value that may be absent (`null` / `undefined`, or an operation the backend refuses). */
module Wrappers {
  datatype Option<T> = None | Some(value: T)
}
