/** Optional values: JavaScript's `null` for the weather record and an unset credential. */
module Common {

  datatype Option<+T> = None | Some(value: T)

}
