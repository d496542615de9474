/** A field that JavaScript may leave `undefined`, made explicit. */
module Optional {

  datatype Option<T> = None | Some(value: T)
}
