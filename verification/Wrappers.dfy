/** What several of the modules need. */
module Wrappers {
  datatype Option<T> = None | Some(value: T)

  type Byte = x: int | 0 <= x < 256

  type Bytes = seq<Byte>
}
