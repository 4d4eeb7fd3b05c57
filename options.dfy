/** The optional value used for the source's nullable fields (`Date`, `Integer`, `String`). */
module Options {

  datatype Option<T> = None | Some(value: T)
}
