/** The conventional option type: the source's std::optional and `T | null`. */
module Options {
  datatype Option<+T> = None | Some(value: T)
}
