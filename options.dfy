/** The optional value used for nullable model fields (Python's None). */
module Options {

  datatype Option<+T> = None | Some(value: T)

}
