/** The optional value used in place of a null pointer or of `std::string::npos`. */
module Wrappers {

  datatype Option<+T> = None | Some(value: T)
}
