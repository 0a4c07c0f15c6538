/** Bytes and byte strings, as all parts of the model see them. */
module Bytes {

  newtype byte = x: int | 0 <= x < 256

  function Min(a: nat, b: nat): nat { if a < b then a else b }

  function Zeros(n: nat): seq<byte> { seq(n, i => 0) }
}
