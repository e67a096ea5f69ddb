/** A nullable value: Kotlin's `T?` (a missing key function, a null content type,
    a retry key that has not been observed yet). */
module Wrappers {

  datatype Option<+T> = None | Some(value: T)
}
