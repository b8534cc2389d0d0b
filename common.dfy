/** Optional values, standing in for JavaScript's `undefined` / `null`. */
module Common {
  datatype Option<+T> = None | Some(value: T)
}
