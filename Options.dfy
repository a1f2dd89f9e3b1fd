/** The optional value used wherever the chatbot works with Python's `None`. */
module Options {

  datatype Option<T> = None | Some(value: T)

}
