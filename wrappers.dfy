/** Optional values: a nullable column, a header that may be absent, a lookup that may fail. */
module Wrappers {

  datatype Option<+T> = None | Some(value: T)

  /** Python truthiness of a nullable string: None and "" are both false. */
  predicate Truthy(s: Option<string>) {
    s.Some? && s.value != ""
  }
}
