/** Shared value types used by several components. */
module Common {

  /** An optional value: JavaScript's `null`/`undefined` next to a present value. */
  datatype Option<+T> = None | Some(value: T)
}
