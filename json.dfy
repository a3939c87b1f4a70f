/**
 * What the decoders need from `encoding/json`: an abstract structured decoder
 * and a mutable cell standing for the pointer receiver `*m`.
 */
module Json {
  import opened Wrappers
  import opened GoTypes

  /** `json.Unmarshal` into a value of type `T`: the JSON grammar itself is not modelled. */
  type Decoder<T> = GoString -> Result<T, Error>

  /** The memory a pointer receiver `m *T` refers to. */
  class Ref<T> {
    var value: T

    constructor (v: T)
      ensures value == v
    {
      value := v;
    }
  }
}
