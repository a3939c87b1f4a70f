/**
 * The Go value types the client manipulates.
 *
 * A Go `string` is an immutable sequence of bytes. The model keeps each byte
 * as the character with the same code point (0 to 255), so that Go string
 * literals can be written as Dafny string literals.
 */
module GoTypes {

  /** One byte of a Go string. */
  type Byte = c: char | c as int < 256

  /** A Go `string` (equivalently a `[]byte`). */
  type GoString = seq<Byte>

  /** A Go `error`, reduced to its message. */
  datatype Error = Error(message: string)
}
