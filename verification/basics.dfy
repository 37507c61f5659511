/** Machine words and small types that several modules share. */
module Basics {

  const TWO31: nat := 0x8000_0000
  const TWO32: nat := 0x1_0000_0000
  const TWO49: nat := 0x2_0000_0000_0000
  const TWO63: nat := 0x8000_0000_0000_0000
  const TWO64: nat := 0x1_0000_0000_0000_0000

  const MIN64: int := -0x8000_0000_0000_0000

  type U64 = x: nat | x < TWO64

  /** Unsigned 64-bit arithmetic: what is left of a number in 64 bits. */
  function Wrap64(x: int): U64 {
    x % TWO64
  }

  /** Signed 64-bit arithmetic, in two's complement. */
  function SignedWrap64(x: int): (r: int)
    ensures MIN64 <= r < TWO63
    ensures MIN64 <= x < TWO63 ==> r == x
  {
    (x + TWO63) % TWO64 - TWO63
  }

  datatype Option<T> = None | Some(value: T)

  /** How a method reports a panic of the original. */
  datatype Fault<P> = NoFault | Fault(why: P)

  function One(b: bool): nat {
    if b then 1 else 0
  }

  function Elements<T(==)>(s: seq<T>): set<T> {
    set x | x in s
  }
}
