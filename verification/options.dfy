/** Optional values, used for what the program leaves `null` or `undefined`. */
module Options {

  datatype Option<+T> = None | Some(value: T)
}
