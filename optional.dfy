/** A value that may be missing: an unset date field, an absent key, a JavaScript `null`. */
module Optional {

  datatype Option<+T> = None | Some(value: T)
}
