/**
  What the arithmetic and logical instructions of 8080.c compute: the carry
  and the wrapped result of ADD/ADI and DAD, the comparison CPI, and the
  flags the logical instructions clear or keep.
 */
module AluProperties {
  import opened Bytes
  import opened Flags
  import opened CpuState
  import opened Decoder
  import opened Semantics

  /**
    The flag sequence of ADD, ADC and CPI: CY is set to `carry`, then Z, S
    and P are taken from `a`; AC, EI and HLT keep their values.
   */
  lemma CarryThenZSP(flags: bv8, carry: bit, a: byte)
    ensures Get(SetZSP(Set(flags, CY, carry), a), CY) == carry
    ensures Get(SetZSP(Set(flags, CY, carry), a), Z) == 1 <==> a == 0
    ensures Get(SetZSP(Set(flags, CY, carry), a), S) == 1 <==> a >= 0x80
    ensures Get(SetZSP(Set(flags, CY, carry), a), P) == 1 <==> Ones(a) % 2 == 0
    ensures forall g :: g in {AC, EI, HLT} ==> Get(SetZSP(Set(flags, CY, carry), a), g) == Get(flags, g)
  {
    var withCarry := Set(flags, CY, carry);
    SetOnlyChangesItsBit(flags, CY, carry);
    SetZSPFlags(withCarry, a);
    forall g | g in {AC, EI, HLT}
      ensures Get(SetZSP(withCarry, a), g) == Get(flags, g)
    {
      assert Get(SetZSP(withCarry, a), g) == Get(withCarry, g);
    }
  }

  /**
    ADD and ADI: CY is set iff `A + x` does not fit in a byte, A becomes
    `(A + x) mod 256`, and Z, S, P describe the new A; AC, EI, HLT and every
    other register are left alone.
   */
  lemma AddComputesSum(s: State, x: byte)
    ensures AddA(s, x).A == (s.A + x) % 0x100
    ensures Get(AddA(s, x).flags, CY) == 1 <==> s.A + x > 0xFF
    ensures Get(AddA(s, x).flags, Z) == 1 <==> (s.A + x) % 0x100 == 0
    ensures Get(AddA(s, x).flags, S) == 1 <==> (s.A + x) % 0x100 >= 0x80
    ensures Get(AddA(s, x).flags, P) == 1 <==> Ones((s.A + x) % 0x100) % 2 == 0
    ensures forall g :: g in {AC, EI, HLT} ==> Get(AddA(s, x).flags, g) == Get(s.flags, g)
    ensures AddA(s, x).(A := s.A, flags := s.flags) == s
  {
    CarryThenZSP(s.flags, FromBool(s.A > 0xFF - x), Trunc8(s.A + x));
  }

  /** The ADD r opcodes (0x80-0x87) add the register operand and advance `pc` by one. */
  lemma AddInstruction(s: State, mem: seq<byte>, r: Reg)
    requires CanStep(s, mem) && Decode(mem[s.pc]) == Add(r)
    ensures Step(s, mem).cpu == Advance(AddA(s, Read(s, mem, r)), 1).(instr := s.instr + 1)
    ensures Step(s, mem).mem == mem && Step(s, mem).outcome == Running
  {
  }

  /** ADI (0xc6) adds the byte after the opcode and advances `pc` by two. */
  lemma AdiInstruction(s: State, mem: seq<byte>)
    requires CanStep(s, mem) && Decode(mem[s.pc]) == Adi
    ensures Step(s, mem).cpu == Advance(AddA(s, mem[s.pc + 1]), 2).(instr := s.instr + 1)
    ensures Step(s, mem).mem == mem && Step(s, mem).outcome == Running
  {
  }

  /**
    DAD rp and DAD SP: CY is set iff `HL + x` does not fit in 16 bits, HL
    becomes `(HL + x) mod 65536`, and no other flag and no other register
    changes.
   */
  lemma DadComputesSum(s: State, x: word)
    ensures GetPair(DadHL(s, x), HL) == (GetPair(s, HL) + x) % 0x1_0000
    ensures Get(DadHL(s, x).flags, CY) == 1 <==> GetPair(s, HL) + x > 0xFFFF
    ensures forall g :: g != CY ==> Get(DadHL(s, x).flags, g) == Get(s.flags, g)
    ensures DadHL(s, x).(H := s.H, L := s.L, flags := s.flags) == s
  {
    SetOnlyChangesItsBit(s.flags, CY, FromBool(GetPair(s, HL) > 0xFFFF - x));
  }

  /**
    CPI: A is not changed, CY is set iff A is below the operand, Z iff they
    are equal, and S and P describe `(A - x) mod 256`; AC, EI and HLT keep
    their values.
   */
  lemma CpiCompares(s: State, x: byte)
    ensures CpiA(s, x).(flags := s.flags) == s
    ensures Get(CpiA(s, x).flags, CY) == 1 <==> s.A < x
    ensures Get(CpiA(s, x).flags, Z) == 1 <==> s.A == x
    ensures Get(CpiA(s, x).flags, S) == 1 <==> (s.A - x) % 0x100 >= 0x80
    ensures Get(CpiA(s, x).flags, P) == 1 <==> Ones((s.A - x) % 0x100) % 2 == 0
    ensures forall g :: g in {AC, EI, HLT} ==> Get(CpiA(s, x).flags, g) == Get(s.flags, g)
  {
    CarryThenZSP(s.flags, FromBool(s.A < x), Trunc8(s.A - x));
  }

  /**
    The flag sequence shared by ANA and XRA: Z, S and P are taken from `a`,
    then CY is cleared; AC, EI and HLT keep their values.
   */
  lemma ZSPThenClear(flags: bv8, a: byte)
    ensures Get(Set(SetZSP(flags, a), CY, 0), CY) == 0
    ensures Get(Set(SetZSP(flags, a), CY, 0), Z) == 1 <==> a == 0
    ensures Get(Set(SetZSP(flags, a), CY, 0), S) == 1 <==> a >= 0x80
    ensures Get(Set(SetZSP(flags, a), CY, 0), P) == 1 <==> Ones(a) % 2 == 0
    ensures forall g :: g in {AC, EI, HLT} ==> Get(Set(SetZSP(flags, a), CY, 0), g) == Get(flags, g)
  {
    var withZSP := SetZSP(flags, a);
    SetZSPFlags(flags, a);
    SetOnlyChangesItsBit(withZSP, CY, 0);
    forall g | g in {AC, EI, HLT}
      ensures Get(Set(withZSP, CY, 0), g) == Get(flags, g)
    {
      assert Get(Set(withZSP, CY, 0), g) == Get(withZSP, g);
    }
  }

  /**
    ANA: A becomes `A & x`, Z, S, P describe it, CY is cleared, and AC, EI
    and HLT keep their values (the code leaves AC alone); no other register
    changes.
   */
  lemma AnaKeepsAuxCarry(s: State, x: byte)
    ensures AnaA(s, x).A == And(s.A, x)
    ensures Get(AnaA(s, x).flags, CY) == 0
    ensures Get(AnaA(s, x).flags, Z) == 1 <==> And(s.A, x) == 0
    ensures Get(AnaA(s, x).flags, S) == 1 <==> And(s.A, x) >= 0x80
    ensures Get(AnaA(s, x).flags, P) == 1 <==> Ones(And(s.A, x)) % 2 == 0
    ensures forall g :: g in {AC, EI, HLT} ==> Get(AnaA(s, x).flags, g) == Get(s.flags, g)
    ensures AnaA(s, x).(A := s.A, flags := s.flags) == s
  {
    ZSPThenClear(s.flags, And(s.A, x));
  }

  /**
    XRA: A becomes `A ^ x`, Z, S, P describe it, CY and AC are cleared, and
    EI and HLT keep their values; no other register changes.
   */
  lemma XraClearsCarries(s: State, x: byte)
    ensures XraA(s, x).A == Xor(s.A, x)
    ensures Get(XraA(s, x).flags, CY) == 0 && Get(XraA(s, x).flags, AC) == 0
    ensures Get(XraA(s, x).flags, Z) == 1 <==> Xor(s.A, x) == 0
    ensures Get(XraA(s, x).flags, S) == 1 <==> Xor(s.A, x) >= 0x80
    ensures Get(XraA(s, x).flags, P) == 1 <==> Ones(Xor(s.A, x)) % 2 == 0
    ensures forall g :: g in {EI, HLT} ==> Get(XraA(s, x).flags, g) == Get(s.flags, g)
    ensures XraA(s, x).(A := s.A, flags := s.flags) == s
  {
    var cleared := Set(SetZSP(s.flags, Xor(s.A, x)), CY, 0);
    ZSPThenClear(s.flags, Xor(s.A, x));
    SetOnlyChangesItsBit(cleared, AC, 0);
  }

  /** XRA A (0xaf) clears A and sets Z: the usual way to zero the accumulator. */
  lemma XraAClearsA(s: State)
    ensures XraA(s, s.A).A == 0 && Get(XraA(s, s.A).flags, Z) == 1
  {
    XraClearsCarries(s, s.A);
  }

  /**
    ANI (0xe6): A becomes `A & b[1]`, CY is cleared, and nothing else
    changes -- Z, S, P and AC included -- apart from `pc`.
   */
  lemma AniChangesOnlyAAndCarry(s: State, mem: seq<byte>)
    requires s.pc < |mem| && InBounds(Ani, s, mem)
    ensures ExecAni(s, mem).cpu.A == And(s.A, mem[s.pc + 1])
    ensures Get(ExecAni(s, mem).cpu.flags, CY) == 0
    ensures forall g :: g != CY ==> Get(ExecAni(s, mem).cpu.flags, g) == Get(s.flags, g)
    ensures ExecAni(s, mem).cpu == s.(A := ExecAni(s, mem).cpu.A, flags := ExecAni(s, mem).cpu.flags, pc := (s.pc + 2) % 0x1_0000)
    ensures ExecAni(s, mem).mem == mem && ExecAni(s, mem).outcome == Running
  {
    SetOnlyChangesItsBit(s.flags, CY, 0);
  }

  /**
    DCR r and DCR M: the operand becomes `(r - 1) mod 256` (0 wraps to 0xFF),
    Z, S and P describe the new value, and CY, AC, EI and HLT keep their
    values (the code's DCR leaves CY alone); `pc` moves to the next opcode.
   */
  lemma DcrComputes(r: Reg, s: State, mem: seq<byte>)
    requires s.pc < |mem| && InBounds(Dcr(r), s, mem)
    ensures var res := ExecDcr(r, s, mem);
            var v := (Read(s, mem, r) - 1) % 0x100;
            && CanAccess(res.cpu, res.mem, r) && Read(res.cpu, res.mem, r) == v
            && (Get(res.cpu.flags, Z) == 1 <==> v == 0)
            && (Get(res.cpu.flags, S) == 1 <==> v >= 0x80)
            && (Get(res.cpu.flags, P) == 1 <==> Ones(v) % 2 == 0)
            && (forall g :: g in {CY, AC, EI, HLT} ==> Get(res.cpu.flags, g) == Get(s.flags, g))
            && res.cpu.sp == s.sp && res.cpu.pc == (s.pc + 1) % 0x1_0000
            && res.cpu.instr == s.instr && res.outcome == Running
  {
    var v := Trunc8(Read(s, mem, r) - 1);
    var w := Write(s, mem, r, v);
    SetZSPFlags(w.cpu.flags, v);
  }

  /**
    DCR changes no register but its operand, and memory only at HL, only
    for DCR M.
   */
  lemma DcrFrame(r: Reg, s: State, mem: seq<byte>)
    requires s.pc < |mem| && InBounds(Dcr(r), s, mem)
    ensures var res := ExecDcr(r, s, mem);
            && (forall q :: q != r && q != M ==> Read(res.cpu, res.mem, q) == Read(s, mem, q))
            && (r != M ==> res.mem == mem)
            && (r == M ==> res.mem == mem[GetPair(s, HL) := Trunc8(mem[GetPair(s, HL)] as int - 1)])
  {
    var v := Trunc8(Read(s, mem, r) - 1);
    var w := Write(s, mem, r, v);
    var res := ExecDcr(r, s, mem);
    assert res.cpu == Advance(w.cpu.(flags := SetZSP(w.cpu.flags, v)), 1) && res.mem == w.mem;
    if r == M {
      assert res.cpu == s.(flags := res.cpu.flags, pc := res.cpu.pc);
    } else {
      forall q | q != r && q != M
        ensures Read(res.cpu, res.mem, q) == Read(s, mem, q)
      {
        assert Read(res.cpu, res.mem, q) == Read(w.cpu, w.mem, q);
      }
    }
  }

  /** `srpXX(rpXX + 1)`: the pair steps up by one modulo 65536 and nothing else changes. */
  lemma IncrementPair(s: State, p: RegPair)
    ensures var t := SetPair(s, p, Trunc16(GetPair(s, p) + 1));
            && GetPair(t, p) == (GetPair(s, p) + 1) % 0x1_0000
            && (forall q :: q != p ==> GetPair(t, q) == GetPair(s, q))
            && t.flags == s.flags && t.A == s.A && t.sp == s.sp && t.pc == s.pc && t.instr == s.instr
  {
    match p
    case BC =>
    case DE =>
    case HL =>
  }

  /**
    INX B, D and H: the pair becomes `(pair + 1) mod 65536` (0xFFFF wraps to
    0); no flag, no other pair, neither A nor `sp`, and no memory byte
    changes.
   */
  lemma InxComputes(p: RegPair, s: State, mem: seq<byte>)
    requires s.pc < |mem| && InBounds(Inx(p), s, mem)
    ensures var res := ExecInx(p, s, mem);
            && GetPair(res.cpu, p) == (GetPair(s, p) + 1) % 0x1_0000
            && (forall q :: q != p ==> GetPair(res.cpu, q) == GetPair(s, q))
            && res.cpu.flags == s.flags && res.cpu.A == s.A && res.cpu.sp == s.sp
            && res.cpu.pc == (s.pc + 1) % 0x1_0000 && res.cpu.instr == s.instr
            && res.mem == mem && res.outcome == Running
  {
    IncrementPair(s, p);
  }

  /** INX SP: `sp` becomes `(sp + 1) mod 65536`, and only `pc` changes besides. */
  lemma InxSpComputes(s: State, mem: seq<byte>)
    requires s.pc < |mem| && InBounds(InxSp, s, mem)
    ensures ExecInxSp(s, mem).cpu == s.(sp := (s.sp + 1) % 0x1_0000, pc := (s.pc + 1) % 0x1_0000)
    ensures ExecInxSp(s, mem).mem == mem && ExecInxSp(s, mem).outcome == Running
  {
  }
}
