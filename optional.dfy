/** A value that may be absent: a `T | null` cell, or a key left out of a partial record. */
module Optional {

  datatype Option<T> = None | Some(value: T)
}
