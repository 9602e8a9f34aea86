/** Optional values: the model's stand-in for Java's `null` and `Optional`. */
module Wrappers {

  /** `None` plays the part of a Java `null` (or an empty `Optional`). */
  datatype Option<+T> = None | Some(value: T)
}
