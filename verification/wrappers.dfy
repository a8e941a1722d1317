/** Optional values, standing in for the nullable references of the listener. */
module Wrappers {

  /** `None` plays the role of a Java `null` result. */
  datatype Option<+T> = None | Some(value: T)
}
