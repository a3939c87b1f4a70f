/** The e-mail address record that the address lists of callbacks and messages hold. */
module Addresses {
  import opened GoTypes

  datatype Address = Address(email: GoString, name: GoString)

  /** The zero value of `Address`. */
  const ZeroAddress := Address("", "")
}
