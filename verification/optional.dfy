/** A value that may be absent: the outcome of a nullable deserialisation or of
    a search that can fail. */
module Optional {

  datatype Option<+T> = None | Some(value: T)
}
