/** Small helper types shared by the modules of this model. */
module Common {

  /** A value that may be absent; `None` stands for a Go runtime panic
      (an index out of range, a negative slice length) in this model. */
  datatype Option<T> = None | Some(value: T)
}
