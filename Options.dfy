/** Optional values: JavaScript's `null`/`undefined` and absent object keys. */
module Options {
  datatype Option<+T> = None | Some(value: T)
}
