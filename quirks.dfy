/**
  Places where 8080.c does something other than the 8080 manual describes.
  The model follows the code; each lemma here states what the code does and
  the input on which it differs from the manual.
 */
module Quirks {
  import opened Bytes
  import opened Flags
  import opened CpuState
  import opened Decoder
  import opened Semantics
  import opened AluProperties

  /**
    ADC computes the carry of `A + x + CY` but never stores the sum: A keeps
    its value and Z, S, P describe the old A.  (The manual's ADC stores the
    sum; on A = 1, x = 1, CY = 0 the code leaves A at 1 instead of 2.)
   */
  lemma AdcDoesNotStoreSum(s: State, x: byte)
    ensures AdcA(s, x).(flags := s.flags) == s
    ensures Get(AdcA(s, x).flags, CY) == 1 <==> s.A + x + Get(s.flags, CY) > 0xFF
    ensures Get(AdcA(s, x).flags, Z) == 1 <==> s.A == 0
    ensures Get(AdcA(s, x).flags, S) == 1 <==> s.A >= 0x80
    ensures Get(AdcA(s, x).flags, P) == 1 <==> Ones(s.A) % 2 == 0
    ensures forall g :: g in {AC, EI, HLT} ==> Get(AdcA(s, x).flags, g) == Get(s.flags, g)
  {
    CarryThenZSP(s.flags, FromBool(s.A + x + Get(s.flags, CY) > 0xFF), s.A);
  }

  /**
    RRC moves bit 0 into CY but ORs it back in at bit 8, which the byte
    cannot hold, so A is simply halved and bit 7 is always clear.  The
    manual rotates bit 0 into bit 7, giving `A / 2 + 0x80 * (A % 2)`; the
    code's result differs from that exactly when A is odd.
   */
  lemma RrcDropsLowBit(s: State, mem: seq<byte>)
    requires s.pc < |mem|
    ensures var r := ExecRrc(s, mem).cpu;
            && r.A == s.A / 2 && r.A < 0x80
            && Get(r.flags, CY) == s.A % 2
            && (r.A != s.A / 2 + 0x80 * (s.A % 2) <==> s.A % 2 == 1)
            && (forall g :: g != CY ==> Get(r.flags, g) == Get(s.flags, g))
  {
    SetOnlyChangesItsBit(s.flags, CY, s.A % 2);
  }

  /** Bits 1, 3 and 5 of the PUSH PSW byte are 0 (the manual has bit 1 set). */
  lemma PswReservedBitsClear(flags: bv8)
    ensures BitOf(Psw(flags), 1) == 0 && BitOf(Psw(flags), 3) == 0 && BitOf(Psw(flags), 5) == 0
  {
    var cy: int, p: int, ac: int, z: int, sg: int := Get(flags, CY), Get(flags, P), Get(flags, AC), Get(flags, Z), Get(flags, S);
    var m := Psw(flags);
    assert m == cy + 4 * p + 16 * ac + 64 * z + 128 * sg;
    assert m / 2 == 2 * p + 8 * ac + 32 * z + 64 * sg;
    assert m / 8 == 2 * ac + 8 * z + 16 * sg;
    assert m / 32 == 2 * z + 4 * sg;
  }

  /** PUSH PSW stores A at `sp - 1` and, at `sp - 2`, a byte whose bits 1, 3 and 5 are clear. */
  lemma PushPswStoresReservedBitsClear(s: State, mem: seq<byte>)
    requires s.pc < |mem| && CanPush(s, mem)
    ensures var m := ExecPushPsw(s, mem).mem;
            && m[s.sp - 1] == s.A && m[s.sp - 2] == Psw(s.flags)
            && BitOf(m[s.sp - 2], 1) == 0 && BitOf(m[s.sp - 2], 3) == 0 && BitOf(m[s.sp - 2], 5) == 0
  {
    PswReservedBitsClear(s.flags);
  }

  /**
    RST stores the address of the RST opcode itself, so a RET at the target
    restores the whole state, `pc` included, and the RST runs again.  (The
    manual pushes the address of the next instruction.)
   */
  lemma RstThenRetRepeatsRst(s: State, mem: seq<byte>, n: byte)
    requires s.pc < |mem| && CanPush(s, mem) && 8 * n < |mem|
    ensures var r := ExecRst(n, s, mem);
            && r.cpu.pc < |r.mem| && InBounds(Ret, r.cpu, r.mem)
            && ExecRet(r.cpu, r.mem).cpu == s
  {
    WordOfHalves(s.pc);
  }

  /**
    CALL pushes the return address before it reads its operand; when the two
    stack bytes are the operand bytes (`sp - 2 == pc + 1`), the operand read
    is the return address, and the call lands on the next instruction.
   */
  lemma CallOverItsOperand(s: State, mem: seq<byte>)
    requires s.pc < |mem| && InBounds(Call, s, mem) && s.sp - 2 == s.pc + 1
    ensures ExecCall(s, mem).cpu.pc == (s.pc + 3) % 0x1_0000
    ensures ExecCall(s, mem).cpu.sp == s.sp - 2
  {
    var v := Trunc16(s.pc + 3);
    var pushed := PushWord(s, mem, v);
    assert pushed.mem[s.pc + 2] == Hi(v) && pushed.mem[s.pc + 1] == Lo(v);
    WordOfHalves(v);
  }

  /**
    The AC flag each instruction leaves behind: XRA clears it, POP PSW loads
    it from bit 4 of the byte at `sp`, and every other instruction keeps it
    (no instruction computes an auxiliary carry).
   */
  function AuxCarryAfter(i: Instr, s: State, mem: seq<byte>): bit
    requires s.pc < |mem| && InBounds(i, s, mem)
  {
    if i.Xra? then 0
    else if i == PopPsw then BitOf(mem[s.sp], 4)
    else Get(s.flags, AC)
  }

  lemma AuxCarryDataTransfer(i: Instr, s: State, mem: seq<byte>)
    requires GroupOf(i) == DataTransfer && s.pc < |mem| && InBounds(i, s, mem)
    ensures Exec(i, s, mem).cpu.flags == s.flags
  {
    if i.Mov? {
    } else if i.Mvi? {
    } else if i.Lxi? {
    } else if i.LxiSp? {
    } else if i.Lda? {
    } else if i.Sta? {
    } else if i.LdaxD? {
    } else if i.StaxB? {
    } else {
    }
  }

  lemma AuxCarryArithmetic(i: Instr, s: State, mem: seq<byte>)
    requires GroupOf(i) == Arithmetic && s.pc < |mem| && InBounds(i, s, mem)
    ensures Get(Exec(i, s, mem).cpu.flags, AC) == Get(s.flags, AC)
  {
    if i.Add? {
      AddComputesSum(s, Read(s, mem, i.r));
    } else if i.Adc? {
      AdcDoesNotStoreSum(s, Read(s, mem, i.r));
    } else if i.Adi? {
      AddComputesSum(s, Imm8(s, mem));
    } else if i.Dcr? {
      var v := Trunc8(Read(s, mem, i.r) - 1);
      SetZSPFlags(Write(s, mem, i.r, v).cpu.flags, v);
    } else if i.Dad? {
      DadComputesSum(s, GetPair(s, i.p));
    } else if i.DadSp? {
      DadComputesSum(s, s.sp);
    } else if i.Inx? {
    } else {
    }
  }

  lemma AuxCarryLogical(i: Instr, s: State, mem: seq<byte>)
    requires GroupOf(i) == Logical && s.pc < |mem| && InBounds(i, s, mem)
    ensures Get(Exec(i, s, mem).cpu.flags, AC) == AuxCarryAfter(i, s, mem)
  {
    if i.Ana? {
      AnaKeepsAuxCarry(s, Read(s, mem, i.r));
    } else if i.Xra? {
      XraClearsCarries(s, Read(s, mem, i.r));
    } else if i.Ani? {
      SetOnlyChangesItsBit(s.flags, CY, 0);
    } else if i.Cpi? {
      CpiCompares(s, Imm8(s, mem));
    } else {
      SetOnlyChangesItsBit(s.flags, CY, s.A % 2);
    }
  }

  lemma AuxCarryBranch(i: Instr, s: State, mem: seq<byte>)
    requires GroupOf(i) == Branch && s.pc < |mem| && InBounds(i, s, mem)
    ensures Exec(i, s, mem).cpu.flags == s.flags
  {
    if i.Jmp? {
    } else if i.Jnz? {
    } else if i.Jm? {
    } else if i.Call? {
    } else if i.Ret? {
    } else if i.Rz? {
    } else if i.Rp? {
    } else {
    }
  }

  lemma AuxCarryStack(i: Instr, s: State, mem: seq<byte>)
    requires GroupOf(i) == Stack && s.pc < |mem| && InBounds(i, s, mem)
    ensures Get(Exec(i, s, mem).cpu.flags, AC) == AuxCarryAfter(i, s, mem)
  {
    if i == PopPsw {
      var psw := mem[s.sp];
      var f := Set(Set(Set(s.flags, CY, BitOf(psw, 0)), P, BitOf(psw, 2)), AC, BitOf(psw, 4));
      SetOnlyChangesItsBit(Set(Set(s.flags, CY, BitOf(psw, 0)), P, BitOf(psw, 2)), AC, BitOf(psw, 4));
      SetOnlyChangesItsBit(f, Z, BitOf(psw, 6));
      SetOnlyChangesItsBit(Set(f, Z, BitOf(psw, 6)), S, BitOf(psw, 7));
    } else if i.Pop? {
    }
  }

  lemma AuxCarryControl(i: Instr, s: State, mem: seq<byte>)
    requires GroupOf(i) == Control && s.pc < |mem| && InBounds(i, s, mem)
    ensures Get(Exec(i, s, mem).cpu.flags, AC) == Get(s.flags, AC)
  {
    if i.Ei? {
      SetOnlyChangesItsBit(s.flags, EI, 1);
    } else if i.Di? {
      SetOnlyChangesItsBit(s.flags, EI, 0);
    } else if i.Unimplemented? {
      SetOnlyChangesItsBit(s.flags, HLT, 1);
    }
  }

  /**
    No instruction computes the auxiliary carry: after any instruction AC
    is 0 (XRA), bit 4 of the popped byte (POP PSW) or its old value.
   */
  lemma AuxCarryNeverComputed(i: Instr, s: State, mem: seq<byte>)
    requires s.pc < |mem| && InBounds(i, s, mem)
    ensures Get(Exec(i, s, mem).cpu.flags, AC) == AuxCarryAfter(i, s, mem)
  {
    match GroupOf(i)
    case DataTransfer => AuxCarryDataTransfer(i, s, mem);
    case Arithmetic => AuxCarryArithmetic(i, s, mem);
    case Logical => AuxCarryLogical(i, s, mem);
    case Branch => AuxCarryBranch(i, s, mem);
    case Stack => AuxCarryStack(i, s, mem);
    case Control => AuxCarryControl(i, s, mem);
  }
}
