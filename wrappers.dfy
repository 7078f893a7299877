/** Optional values, standing for Python's `None`-or-value results. */
module Wrappers {

  datatype Option<+T> = None | Some(value: T)

  /** Python truthiness of an optional string: `None` and `""` are both falsy. */
  predicate Given(s: Option<string>) {
    s.Some? && s.value != ""
  }
}
