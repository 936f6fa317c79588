/** Java's null references, as a value. */
module Optional {
  datatype Option<+T> = None | Some(value: T)
}
