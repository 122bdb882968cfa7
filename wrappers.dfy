/** The optional value the storefront uses for "no item found" and "no payment method chosen". */
module Wrappers {
  datatype Option<+T> = None | Some(value: T)
}
