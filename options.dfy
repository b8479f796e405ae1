/** The optional value that `std::optional<std::string>` carries throughout the platform code. */
module Options {

  datatype Option<+T> = None | Some(value: T)

}
