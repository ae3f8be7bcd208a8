/**
  The flag register and the flag unit: `getFlag`, `setFlag`, `parity` and the
  `fZ`/`fS`/`fP` macros of 8080.c.

  The register is one byte.  Its bit positions are those of `enum flag` in
  8080.h: Z = 0, S = 1, P = 2, CY = 3, AC = 4.  The code also uses two flags
  the enum does not declare, EI (interrupts enabled) and HLT (halted); they
  are given the free bits 5 and 6.  Bit 7 is never used.
 */
module Flags {
  import opened Bytes

  datatype Flag = Z | S | P | CY | AC | EI | HLT

  /** `1 << flag` */
  function Mask(f: Flag): bv8 {
    match f
    case Z => 0x01
    case S => 0x02
    case P => 0x04
    case CY => 0x08
    case AC => 0x10
    case EI => 0x20
    case HLT => 0x40
  }

  /** `getFlag`: `(flags >> flag) & 1`. */
  function Get(flags: bv8, f: Flag): bit {
    if flags & Mask(f) != 0 then 1 else 0
  }

  /**
    `setFlag`: clear the flag's bit, then OR in `(1 << flag) * val`.
    Every caller in 8080.c passes 0 or 1 as the value.
   */
  function Set(flags: bv8, f: Flag, v: bit): bv8 {
    (flags & !Mask(f)) | (if v == 1 then Mask(f) else 0)
  }

  /** After `setFlag(f, v)`, `getFlag(f)` is `v` and every other bit of the register is as before. */
  lemma SetOnlyChangesItsBit(flags: bv8, f: Flag, v: bit)
    ensures Get(Set(flags, f, v), f) == v
    ensures Set(flags, f, v) & !Mask(f) == flags & !Mask(f)
    ensures forall g :: g != f ==> Get(Set(flags, f, v), g) == Get(flags, g)
  {
    forall g | g != f
      ensures Get(Set(flags, f, v), g) == Get(flags, g)
    {
      assert Mask(g) & Mask(f) == 0;
    }
  }

  /** Setting a flag to the value it already has changes nothing. */
  lemma SetToItself(flags: bv8, f: Flag)
    ensures Set(flags, f, Get(flags, f)) == flags
  {
  }

  /**
    Bit 0 of `x>>0 ^ x>>1 ^ ... ^ x>>(k-1)`: the exclusive or of the low `k`
    bits of `x`, that is their sum modulo 2.
   */
  function LowBitsParity(x: nat, k: nat): bit {
    if k == 0 then 0 else (x % 2 + LowBitsParity(x / 2, k - 1)) % 2
  }

  /** `parity`: the exclusive or of the eight bits of a byte. */
  function Parity(x: byte): bit {
    LowBitsParity(x, 8)
  }

  /** The number of set bits of `x`. */
  function Ones(x: nat): nat {
    if x == 0 then 0 else x % 2 + Ones(x / 2)
  }

  function Pow2(k: nat): nat {
    if k == 0 then 1 else 2 * Pow2(k - 1)
  }

  /** For `x` below `2^k`, the parity of the low `k` bits is that of all set bits. */
  lemma {:induction false} LowBitsParityCountsOnes(x: nat, k: nat)
    requires x < Pow2(k)
    ensures LowBitsParity(x, k) == Ones(x) % 2
  {
    if k == 0 {
      assert x == 0;
    } else {
      LowBitsParityCountsOnes(x / 2, k - 1);
    }
  }

  /** `parity(x)` is 1 exactly when `x` has an odd number of set bits. */
  lemma ParityCountsOnes(x: byte)
    ensures Parity(x) == 1 <==> Ones(x) % 2 == 1
  {
    LowBitsParityCountsOnes(x, 8);
  }

  /** `fZ(x); fS(x); fP(x)`: Z from `x == 0`, S from bit 7 of `x`, P from `!parity(x)`. */
  function SetZSP(flags: bv8, x: byte): bv8 {
    Set(Set(Set(flags, Z, FromBool(x == 0)), S, x / 0x80), P, 1 - Parity(x))
  }

  /** Setting Z, S and P in turn gives each its value and leaves the other flags alone. */
  lemma SetThreeFlags(flags: bv8, z: bit, s: bit, p: bit)
    ensures Get(Set(Set(Set(flags, Z, z), S, s), P, p), Z) == z
    ensures Get(Set(Set(Set(flags, Z, z), S, s), P, p), S) == s
    ensures Get(Set(Set(Set(flags, Z, z), S, s), P, p), P) == p
    ensures forall g :: g !in {Z, S, P} ==> Get(Set(Set(Set(flags, Z, z), S, s), P, p), g) == Get(flags, g)
  {
    var withZ := Set(flags, Z, z);
    var withS := Set(withZ, S, s);
    SetOnlyChangesItsBit(flags, Z, z);
    SetOnlyChangesItsBit(withZ, S, s);
    SetOnlyChangesItsBit(withS, P, p);
  }

  /**
    After `fZ(x); fS(x); fP(x)`, Z is set iff the result is zero, S iff it is
    0x80 or more, and P iff it has an even number of set bits; CY, AC, EI
    and HLT are left alone.
   */
  lemma SetZSPFlags(flags: bv8, x: byte)
    ensures Get(SetZSP(flags, x), Z) == 1 <==> x == 0
    ensures Get(SetZSP(flags, x), S) == 1 <==> x >= 0x80
    ensures Get(SetZSP(flags, x), P) == 1 <==> Ones(x) % 2 == 0
    ensures forall g :: g !in {Z, S, P} ==> Get(SetZSP(flags, x), g) == Get(flags, g)
  {
    SetThreeFlags(flags, FromBool(x == 0), x / 0x80, 1 - Parity(x));
    ParityCountsOnes(x);
  }

  /** The parity flag for three sample bytes. */
  lemma ParityFlagExamples(flags: bv8)
    ensures Get(SetZSP(flags, 0x00), P) == 1
    ensures Get(SetZSP(flags, 0xFF), P) == 1
    ensures Get(SetZSP(flags, 0x01), P) == 0
  {
    SetZSPFlags(flags, 0x00);
    SetZSPFlags(flags, 0xFF);
    SetZSPFlags(flags, 0x01);
    assert Ones(0x01) == 1;
    assert Ones(0x03) == 2;
    assert Ones(0x07) == 3;
    assert Ones(0x0F) == 4;
    assert Ones(0x1F) == 5;
    assert Ones(0x3F) == 6;
    assert Ones(0x7F) == 7;
    assert Ones(0xFF) == 8;
  }
}
