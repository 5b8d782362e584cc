/** Small data types shared by every component. */
module Common {
  datatype Option<+T> = None | Some(value: T)

  /** One octet, as Python's `bytes` holds them. */
  type Byte = b: int | 0 <= b < 256
  type Bytes = seq<Byte>

  function Min(a: int, b: int): int {
    if a <= b then a else b
  }

  function Max(a: int, b: int): int {
    if a <= b then b else a
  }

  type Bit = b: int | b == 0 || b == 1

  function Xor(a: Bit, b: Bit): Bit {
    if a == b then 0 else 1
  }

  /** Pieces put end to end. */
  function Join<T>(pieces: seq<seq<T>>): seq<T> {
    if pieces == [] then [] else Join(pieces[..|pieces| - 1]) + pieces[|pieces| - 1]
  }
}
