/** Shared vocabulary: options, bytes and the largest timestamp. */
module Basics {
  datatype Option<+T> = None | Some(value: T)

  newtype Byte = x: int | 0 <= x < 256
  type Bytes = seq<Byte>

  const MAX_TS: nat := 0xffff_ffff_ffff_ffff
}
