/** An optional value: a nullable column, an absent keyword argument, or a
    lookup that finds nothing. */
module Optional {
  datatype Option<T> = None | Some(value: T)
}
