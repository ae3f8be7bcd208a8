/**
  Unsigned machine integers of the 8080 core.

  The C code stores its registers in `uint8_t` and `uint16_t` fields and does
  its arithmetic in `int` after the usual promotions; storing an `int` back
  into such a field truncates it.  Here the field types are bounded integers
  and every truncation is written out as `Trunc8` or `Trunc16`.
 */
module Bytes {

  /** A `uint8_t`. */
  type byte = x: int | 0 <= x < 0x100

  /** A `uint16_t`. */
  type word = x: int | 0 <= x < 0x1_0000

  /** The value of a single flag bit, or of a C comparison. */
  type bit = x: int | 0 <= x <= 1

  /** Storing an `int` into a `uint8_t`: reduction modulo 256. */
  function Trunc8(x: int): (r: byte)
    ensures 0 <= x < 0x100 ==> r == x
    ensures (r - x) % 0x100 == 0
  {
    x % 0x100
  }

  /** Storing an `int` into a `uint16_t`: reduction modulo 65536. */
  function Trunc16(x: int): (r: word)
    ensures 0 <= x < 0x1_0000 ==> r == x
    ensures (r - x) % 0x1_0000 == 0
  {
    x % 0x1_0000
  }

  /** A C comparison or `!` yields 1 for true and 0 for false. */
  function FromBool(b: bool): (r: bit)
    ensures r == 1 <==> b
  {
    if b then 1 else 0
  }

  /** `hi << 8 | lo`: the 16-bit value of a register pair or of the operand `D16`. */
  function Word(hi: byte, lo: byte): (w: word)
    ensures Hi(w) == hi && Lo(w) == lo
  {
    hi * 0x100 + lo
  }

  /** `(v & 0xFF00) >> 8` */
  function Hi(v: word): byte {
    v / 0x100
  }

  /** `v & 0xFF` */
  function Lo(v: word): byte {
    v % 0x100
  }

  /** Splitting a word into its halves and joining them again gives the word back. */
  lemma WordOfHalves(v: word)
    ensures Word(Hi(v), Lo(v)) == v
  {
  }

  /** `(x >> k) & 1`: bit `k` of a byte. */
  function BitOf(x: byte, k: nat): bit
    requires k < 8
  {
    x / [1, 2, 4, 8, 16, 32, 64, 128][k] % 2
  }

  /** `a & b` on bytes. */
  function And(a: byte, b: byte): byte {
    ((a as bv8) & (b as bv8)) as int
  }

  /** `a ^ b` on bytes. */
  function Xor(a: byte, b: byte): byte {
    ((a as bv8) ^ (b as bv8)) as int
  }
}
