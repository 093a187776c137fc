/**
  Small shared vocabulary: the optional value used for Python's `None`.
 */
module Base {

  /** `None` stands for Python's `None`; `Some(v)` for a present value. */
  datatype Option<+T> = None | Some(value: T)

}
