/** Swift's optional values (`T?`), used for `Error?`, `CloudError?` and `Int?`. */
module Wrappers {

  datatype Option<+T> = None | Some(value: T)
}
