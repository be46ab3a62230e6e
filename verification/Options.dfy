/** An optional value, where the program has std::optional or a flag beside the value. */
module Options {

  datatype Option<T> = None | Some(value: T)
}
