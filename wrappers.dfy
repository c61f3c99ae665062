/** Optional values, standing for Kotlin's nullable types and for a JVM
    exception path (`None` is "threw" or "was null"). */
module Wrappers {

  datatype Option<+T> = None | Some(value: T)
}
