/** The conventional Some/None datatype, used where a reading of a tag
    sequence may fail. */
module Options {

  datatype Option<+T> = None | Some(value: T)
}
