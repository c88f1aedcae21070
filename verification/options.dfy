/** The optional value used wherever the broker reads something that may be absent:
    a missing query parameter, a missing frame field, a missing store key. */
module Options {

  datatype Option<+T> = None | Some(value: T)
}
