/** The optional value used for a field's error message: `None` when the field
    has no error, `Some(message)` when it has one. */
module Optional {

  datatype Option<+T> = None | Some(value: T)

}
