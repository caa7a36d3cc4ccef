/** Optional values: `None` stands for Go's `nil` in a pointer, function,
    interface or map field. */
module Wrappers {

  datatype Option<+T> = None | Some(value: T) {

    /** The value itself if present, otherwise `fallback`: Go's
        `if x == nil { x = fallback }`. */
    function OrElse(fallback: Option<T>): (r: Option<T>) {
      if Some? then this else fallback
    }
  }
}
