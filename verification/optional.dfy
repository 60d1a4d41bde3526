/** The optional value used wherever the source works with `null`, `undefined`
    or a missing environment variable. */
module Optional {

  datatype Option<+T> = None | Some(value: T)
}
