/** An optional value: stands in for Java's `null`-or-reference and for a call that
    either returns a value or throws. */
module Optional {

  datatype Option<+T> = None | Some(value: T)

}
