/** Python's `None`-or-value, used for optional fields, lookups and parses. */
module Optional {

  datatype Option<T> = None | Some(value: T)

}
