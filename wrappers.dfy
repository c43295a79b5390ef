/** Optional result type used where the C# code throws. */
module Wrappers {

  /** `None` stands for "the operation throws"; `Some(v)` for a returned value. */
  datatype Option<+T> = None | Some(value: T)
}
