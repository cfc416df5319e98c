/** The optional value used wherever the scripts return `None` or a value. */
module Optional {

  /** `None` stands for Python's `None`; `Some(v)` for a present value. */
  datatype Option<+T> = None | Some(value: T)
}
