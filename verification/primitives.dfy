/** Byte strings shared by the fault-dispute model and the game monitor. */
module Primitives {

  newtype byte = x: int | 0 <= x < 256

  type Bytes = seq<byte>

  /** A 32-byte word, Go's `common.Hash`. */
  type Hash = h: Bytes | |h| == 32 witness seq(32, _ => 0)

  /** A 20-byte account address, Go's `common.Address`. */
  type Address = a: Bytes | |a| == 20 witness seq(20, _ => 0)

  /** Go's conversion `byte(i)` of an unsigned integer: it keeps the low eight bits. */
  function ByteOf(i: nat): (b: byte)
    ensures b as int == i % 256
    ensures i < 256 ==> b as int == i
  {
    (i % 256) as byte
  }
}
