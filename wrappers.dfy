/** Shared value wrappers. */
module Wrappers {

  /** An optional value. `None` stands for JavaScript's `undefined` (or `null`). */
  datatype Option<T> = None | Some(value: T)
}
