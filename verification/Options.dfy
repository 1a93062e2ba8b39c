/** The optional value returned where the program uses std::optional, a null pointer or None. */
module Options {
  datatype Option<T> = None | Some(value: T)
}
