/** The optional value used where the Go code returns a pointer that may be nil. */
module Wrappers {

  /** `None` stands for a nil pointer, `Some(v)` for a pointer to `v`; two
      values compare the pointed-to contents, not pointer identity. */
  datatype Option<+T> = None | Some(value: T)
}
