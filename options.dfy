/** Optional values: Go's nil pointers, nil interfaces and missing results. */
module Options {

  datatype Option<+T> = None | Some(value: T)
}
