/** Values shared by every module of the model: Python's `Optional[T]`. */
module Common {

  /** `None` or a value, as Python's `Optional[T]`. */
  datatype Option<+T> = None | Some(value: T)
}
