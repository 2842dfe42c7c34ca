/** The optional value the Kotlin code writes as a nullable type (`String?`, `ICryptographicPlugin?`). */
module Wrappers {

  datatype Option<+T> = None | Some(value: T)
}
