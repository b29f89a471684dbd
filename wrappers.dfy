/** Optional values. In this model `None` also stands for a floating-point
    value that is not finite (NaN or an infinity) and for Kotlin's `null`. */
module Wrappers {

  datatype Option<+T> = None | Some(value: T)

}
