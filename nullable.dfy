/** JavaScript's `null`/absent values as an option type. */
module Nullable {

  datatype Option<+T> = None | Some(value: T)
}
