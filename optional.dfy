/** The usual optional value, used wherever the source has `undefined`, a missing
    query parameter or a lookup that finds nothing. */
module Optional {

  datatype Option<T> = None | Some(value: T)
}
