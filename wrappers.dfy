/** The nullable-reference convention of the C# code, written as an Option. */
module Wrappers {

  /** `None` stands for a C# `null`; `Some(v)` for a present value. */
  datatype Option<+T> = None | Some(value: T)
}
