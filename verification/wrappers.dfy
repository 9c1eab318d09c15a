/** Optional values: the model's rendering of C# nullable fields and references. */
module Wrappers {

  /** `None` stands for C#'s `null`. */
  datatype Option<+T> = None | Some(value: T)
}
