/** Shared value types. */
module Common {

  /** An optional value: `None` stands for Python's `None` or for an absent key. */
  datatype Option<+T> = None | Some(value: T)
}
