/** Optional values: Go's nilable references (an `error`, a `func` field) become `Option`. */
module Wrappers {
  datatype Option<+T> = None | Some(value: T)
}
