/** Optional values, used where the Java code has a nullable reference. */
module Wrappers {
  datatype Option<+T> = None | Some(value: T)
}
