/**
  What one call of `execute_instruction` and one call of `request_interrupt`
  do to the CPU record and to the memory buffer, as functions of the state
  before the call.  The class in cpu.dfy performs the same calls in place and
  is proved to agree with these functions.

  Memory is the host's flat byte buffer; every access the C code makes must
  fall inside it (the code does no bounds checking, and `memory[sp - 1]` is
  computed in `int`, so it points before the buffer when `sp` is 0).
  `CanStep` says that the instruction at `pc` stays inside the buffer.
 */
module Semantics {
  import opened Bytes
  import opened Flags
  import opened CpuState
  import opened Decoder

  /** What the host sees when a call returns. */
  datatype Outcome =
    | Running
    | Output(port: byte, value: byte)    // the `out(port, A)` callback of OUT
    | Halted(pc: word, opcode: byte)     // `unimplemented` was reached: the C program exits

  datatype Result = Result(cpu: State, mem: seq<byte>, outcome: Outcome)

  function Next(s: State, mem: seq<byte>): Result {
    Result(s, mem, Running)
  }

  /** `cpu->pc += n` on a `uint16_t`. */
  function Advance(s: State, n: nat): State {
    s.(pc := Trunc16(s.pc + n))
  }

  function AdvanceResult(r: Result, n: nat): Result {
    r.(cpu := Advance(r.cpu, n))
  }

  /** `b[1]`, the byte after the opcode. */
  function Imm8(s: State, mem: seq<byte>): byte
    requires s.pc + 1 < |mem|
  {
    mem[s.pc + 1]
  }

  /** `D16`: `b[2] << 8 | b[1]`. */
  function Imm16(s: State, mem: seq<byte>): word
    requires s.pc + 2 < |mem|
  {
    Word(mem[s.pc + 2], mem[s.pc + 1])
  }

  /** A register operand is a register, or the byte at address HL for M. */
  predicate CanAccess(s: State, mem: seq<byte>, r: Reg) {
    r == M ==> GetPair(s, HL) < |mem|
  }

  function Read(s: State, mem: seq<byte>, r: Reg): byte
    requires CanAccess(s, mem, r)
  {
    match r
    case B => s.B
    case C => s.C
    case D => s.D
    case E => s.E
    case H => s.H
    case L => s.L
    case M => mem[GetPair(s, HL)]
    case A => s.A
  }

  function Write(s: State, mem: seq<byte>, r: Reg, v: byte): (res: Result)
    requires CanAccess(s, mem, r)
    ensures |res.mem| == |mem| && res.outcome == Running
    ensures res.cpu.pc == s.pc && res.cpu.sp == s.sp && res.cpu.flags == s.flags
    ensures res.cpu.instr == s.instr && res.cpu.inputPorts == s.inputPorts
    ensures CanAccess(res.cpu, res.mem, r) && Read(res.cpu, res.mem, r) == v
    ensures r == M ==> res.cpu == s && res.mem == mem[GetPair(s, HL) := v]
    ensures r != M ==> res.mem == mem
    ensures r != A ==> res.cpu.A == s.A
    ensures r != B ==> res.cpu.B == s.B
    ensures r != C ==> res.cpu.C == s.C
    ensures r != D ==> res.cpu.D == s.D
    ensures r != E ==> res.cpu.E == s.E
    ensures r != H ==> res.cpu.H == s.H
    ensures r != L ==> res.cpu.L == s.L
  {
    match r
    case B => Next(s.(B := v), mem)
    case C => Next(s.(C := v), mem)
    case D => Next(s.(D := v), mem)
    case E => Next(s.(E := v), mem)
    case H => Next(s.(H := v), mem)
    case L => Next(s.(L := v), mem)
    case M => Next(s, mem[GetPair(s, HL) := v])
    case A => Next(s.(A := v), mem)
  }

  /** PUSH and the RST macro write `memory[sp - 1]` and `memory[sp - 2]` in `int` arithmetic. */
  predicate CanPush(s: State, mem: seq<byte>) {
    2 <= s.sp && s.sp - 1 < |mem|
  }

  /** POP and RET read `memory[sp]` and `memory[sp + 1]`. */
  predicate CanPop(s: State, mem: seq<byte>) {
    s.sp + 1 < |mem|
  }

  /** The high byte of `v` goes to `sp - 1`, the low byte to `sp - 2`, and `sp` drops by 2. */
  function PushWord(s: State, mem: seq<byte>, v: word): (r: Result)
    requires CanPush(s, mem)
    ensures |r.mem| == |mem| && r.outcome == Running
    ensures r.cpu == s.(sp := s.sp - 2)
    ensures r.mem[s.sp - 1] == Hi(v) && r.mem[s.sp - 2] == Lo(v)
    ensures forall i :: 0 <= i < |mem| && i != s.sp - 1 && i != s.sp - 2 ==> r.mem[i] == mem[i]
  {
    Next(s.(sp := Trunc16(s.sp - 2)), mem[s.sp - 1 := Hi(v)][s.sp - 2 := Lo(v)])
  }

  /** The word on top of the stack: `memory[sp + 1] << 8 | memory[sp]`. */
  function PopWord(s: State, mem: seq<byte>): word
    requires CanPop(s, mem)
  {
    Word(mem[s.sp + 1], mem[s.sp])
  }

  /** RET: `pc` := the word on top of the stack, `sp += 2`. */
  function Return(s: State, mem: seq<byte>): State
    requires CanPop(s, mem)
  {
    s.(pc := PopWord(s, mem), sp := Trunc16(s.sp + 2))
  }

  /** The RST macro: push the current `pc`, then `pc = n * 8`. */
  function Restart(s: State, mem: seq<byte>, n: byte): (r: Result)
    requires CanPush(s, mem)
    ensures |r.mem| == |mem| && r.outcome == Running
    ensures r.cpu == s.(sp := s.sp - 2, pc := 8 * n)
    ensures r.mem[s.sp - 1] == Hi(s.pc) && r.mem[s.sp - 2] == Lo(s.pc)
    ensures forall i :: 0 <= i < |mem| && i != s.sp - 1 && i != s.sp - 2 ==> r.mem[i] == mem[i]
  {
    var pushed := PushWord(s, mem, s.pc);
    pushed.(cpu := pushed.cpu.(pc := n * 8))
  }

  /** The ADD macro (also ADI): CY from `A > 255 - x`, A wraps, then Z, S, P from the new A. */
  function AddA(s: State, x: byte): State {
    var a := Trunc8(s.A + x);
    s.(A := a, flags := SetZSP(Set(s.flags, CY, FromBool(s.A > 0xFF - x)), a))
  }

  /** The ADC macro: CY from `A + x + CY > 255`, Z, S, P from A; A itself is not written. */
  function AdcA(s: State, x: byte): State {
    var sum := s.A + x + Get(s.flags, CY);
    s.(flags := SetZSP(Set(s.flags, CY, FromBool(sum > 0xFF)), s.A))
  }

  /** The ANA macro: A &= x, Z, S, P from A, CY cleared. */
  function AnaA(s: State, x: byte): State {
    var a := And(s.A, x);
    s.(A := a, flags := Set(SetZSP(s.flags, a), CY, 0))
  }

  /** The XRA macro: A ^= x, Z, S, P from A, CY and AC cleared. */
  function XraA(s: State, x: byte): State {
    var a := Xor(s.A, x);
    s.(A := a, flags := Set(Set(SetZSP(s.flags, a), CY, 0), AC, 0))
  }

  /** The DAD macro: CY from `HL > 0xFFFF - x`, HL := HL + x truncated to 16 bits. */
  function DadHL(s: State, x: word): State {
    var hl := GetPair(s, HL);
    SetPair(s.(flags := Set(s.flags, CY, FromBool(hl > 0xFFFF - x))), HL, Trunc16(hl + x))
  }

  /** CPI: CY from `A < x`, Z, S, P from `(uint8_t)(A - x)`; A is not written. */
  function CpiA(s: State, x: byte): State {
    s.(flags := SetZSP(Set(s.flags, CY, FromBool(s.A < x)), Trunc8(s.A - x)))
  }

  /**
    The byte PUSH PSW stores below A: CY in bit 0, P in bit 2, AC in bit 4,
    Z in bit 6, S in bit 7, and 0 in bits 1, 3 and 5.
   */
  function Psw(flags: bv8): byte {
    Get(flags, CY) * 1 + 0 * 2 + Get(flags, P) * 4 + 0 * 8
    + Get(flags, AC) * 16 + 0 * 32 + Get(flags, Z) * 64 + Get(flags, S) * 128
  }

  /** The flags POP PSW loads: CY, P, AC, Z, S from bits 0, 2, 4, 6, 7 of `m`; EI and HLT are kept. */
  function FlagsFromPsw(flags: bv8, m: byte): bv8 {
    Set(Set(Set(Set(Set(flags, CY, BitOf(m, 0)), P, BitOf(m, 2)), AC, BitOf(m, 4)), Z, BitOf(m, 6)), S, BitOf(m, 7))
  }

  /** POP PSW: A from `sp + 1`, the flags from the byte at `sp`. */
  function PopPswState(s: State, mem: seq<byte>): State
    requires CanPop(s, mem)
  {
    s.(A := mem[s.sp + 1], flags := FlagsFromPsw(s.flags, mem[s.sp]), sp := Trunc16(s.sp + 2))
  }

  /** Every memory access the instruction makes in state `s` is inside the buffer. */
  predicate InBounds(i: Instr, s: State, mem: seq<byte>) {
    match i
    case Nop | Deb | Rrc | Inx(_) | InxSp | Dad(_) | DadSp | Xchg | Di | Ei | Unimplemented => true
    case Lxi(_) | LxiSp | Jmp => s.pc + 2 < |mem|
    case Sta | Lda => s.pc + 2 < |mem| && Imm16(s, mem) < |mem|
    case StaxB => GetPair(s, BC) < |mem|
    case LdaxD => GetPair(s, DE) < |mem|
    case Dcr(r) => CanAccess(s, mem, r)
    case Add(r) => CanAccess(s, mem, r)
    case Adc(r) => CanAccess(s, mem, r)
    case Ana(r) => CanAccess(s, mem, r)
    case Xra(r) => CanAccess(s, mem, r)
    case Mvi(r) => s.pc + 1 < |mem| && CanAccess(s, mem, r)
    case Mov(d, r) => CanAccess(s, mem, d) && CanAccess(s, mem, r)
    case Pop(_) | PopPsw | Ret => CanPop(s, mem)
    case Push(_) | PushPsw | Rst(_) => CanPush(s, mem)
    case Call => s.pc + 2 < |mem| && CanPush(s, mem)
    case Jnz => Get(s.flags, Z) == 0 ==> s.pc + 2 < |mem|
    case Jm => Get(s.flags, S) == 1 ==> s.pc + 2 < |mem|
    case Rz => Get(s.flags, Z) == 1 ==> CanPop(s, mem)
    case Rp => Get(s.flags, P) == 1 ==> CanPop(s, mem)
    case Adi | Ani | Cpi | Out | In => s.pc + 1 < |mem|
  }

  /** The opcode at `pc` can be fetched and executed without leaving the buffer. */
  predicate CanStep(s: State, mem: seq<byte>) {
    s.pc < |mem| && InBounds(Decode(mem[s.pc]), s, mem)
  }

  function ExecNop(s: State, mem: seq<byte>): Result
    requires s.pc < |mem| && InBounds(Nop, s, mem)
  {
    Next(Advance(s, 1), mem)
  }

  function ExecLxi(p: RegPair, s: State, mem: seq<byte>): Result
    requires s.pc < |mem| && InBounds(Lxi(p), s, mem)
  {
    Next(Advance(SetPair(s, p, Imm16(s, mem)), 3), mem)
  }

  function ExecLxiSp(s: State, mem: seq<byte>): Result
    requires s.pc < |mem| && InBounds(LxiSp, s, mem)
  {
    Next(Advance(s.(sp := Imm16(s, mem)), 3), mem)
  }

  function ExecStaxB(s: State, mem: seq<byte>): Result
    requires s.pc < |mem| && InBounds(StaxB, s, mem)
  {
    Next(Advance(s, 1), mem[GetPair(s, BC) := s.A])
  }

  function ExecInx(p: RegPair, s: State, mem: seq<byte>): Result
    requires s.pc < |mem| && InBounds(Inx(p), s, mem)
  {
    Next(Advance(SetPair(s, p, Trunc16(GetPair(s, p) + 1)), 1), mem)
  }

  function ExecInxSp(s: State, mem: seq<byte>): Result
    requires s.pc < |mem| && InBounds(InxSp, s, mem)
  {
    Next(Advance(s.(sp := Trunc16(s.sp + 1)), 1), mem)
  }

  function ExecDcr(r: Reg, s: State, mem: seq<byte>): Result
    requires s.pc < |mem| && InBounds(Dcr(r), s, mem)
  {
    var v := Trunc8(Read(s, mem, r) - 1);
    var w := Write(s, mem, r, v);
    Next(Advance(w.cpu.(flags := SetZSP(w.cpu.flags, v)), 1), w.mem)
  }

  function ExecMvi(r: Reg, s: State, mem: seq<byte>): Result
    requires s.pc < |mem| && InBounds(Mvi(r), s, mem)
  {
    AdvanceResult(Write(s, mem, r, Imm8(s, mem)), 2)
  }

  function ExecDad(p: RegPair, s: State, mem: seq<byte>): Result
    requires s.pc < |mem| && InBounds(Dad(p), s, mem)
  {
    Next(Advance(DadHL(s, GetPair(s, p)), 1), mem)
  }

  function ExecDadSp(s: State, mem: seq<byte>): Result
    requires s.pc < |mem| && InBounds(DadSp, s, mem)
  {
    Next(Advance(DadHL(s, s.sp), 1), mem)
  }

  function ExecRrc(s: State, mem: seq<byte>): Result
    requires s.pc < |mem| && InBounds(Rrc, s, mem)
  {
    // the bit shifted out is ORed in at bit 8, which a uint8_t cannot hold
    var bit := s.A % 2;
    Next(Advance(s.(A := Trunc8(s.A / 2 + bit * 0x100), flags := Set(s.flags, CY, bit)), 1), mem)
  }

  function ExecDeb(s: State, mem: seq<byte>): Result
    requires s.pc < |mem| && InBounds(Deb, s, mem)
  {
    Next(Advance(s, 1), mem)
  }

  function ExecLdaxD(s: State, mem: seq<byte>): Result
    requires s.pc < |mem| && InBounds(LdaxD, s, mem)
  {
    Next(Advance(s.(A := mem[GetPair(s, DE)]), 1), mem)
  }

  function ExecSta(s: State, mem: seq<byte>): Result
    requires s.pc < |mem| && InBounds(Sta, s, mem)
  {
    Next(Advance(s, 3), mem[Imm16(s, mem) := s.A])
  }

  function ExecLda(s: State, mem: seq<byte>): Result
    requires s.pc < |mem| && InBounds(Lda, s, mem)
  {
    Next(Advance(s.(A := mem[Imm16(s, mem)]), 3), mem)
  }

  function ExecMov(d: Reg, r: Reg, s: State, mem: seq<byte>): Result
    requires s.pc < |mem| && InBounds(Mov(d, r), s, mem)
  {
    AdvanceResult(Write(s, mem, d, Read(s, mem, r)), 1)
  }

  function ExecAdd(r: Reg, s: State, mem: seq<byte>): Result
    requires s.pc < |mem| && InBounds(Add(r), s, mem)
  {
    Next(Advance(AddA(s, Read(s, mem, r)), 1), mem)
  }

  function ExecAdc(r: Reg, s: State, mem: seq<byte>): Result
    requires s.pc < |mem| && InBounds(Adc(r), s, mem)
  {
    Next(Advance(AdcA(s, Read(s, mem, r)), 1), mem)
  }

  function ExecAna(r: Reg, s: State, mem: seq<byte>): Result
    requires s.pc < |mem| && InBounds(Ana(r), s, mem)
  {
    Next(Advance(AnaA(s, Read(s, mem, r)), 1), mem)
  }

  function ExecXra(r: Reg, s: State, mem: seq<byte>): Result
    requires s.pc < |mem| && InBounds(Xra(r), s, mem)
  {
    Next(Advance(XraA(s, Read(s, mem, r)), 1), mem)
  }

  function ExecPop(p: RegPair, s: State, mem: seq<byte>): Result
    requires s.pc < |mem| && InBounds(Pop(p), s, mem)
  {
    Next(Advance(SetPair(s, p, PopWord(s, mem)).(sp := Trunc16(s.sp + 2)), 1), mem)
  }

  function ExecPopPsw(s: State, mem: seq<byte>): Result
    requires s.pc < |mem| && InBounds(PopPsw, s, mem)
  {
    Next(Advance(PopPswState(s, mem), 1), mem)
  }

  function ExecPush(p: RegPair, s: State, mem: seq<byte>): Result
    requires s.pc < |mem| && InBounds(Push(p), s, mem)
  {
    AdvanceResult(PushWord(s, mem, GetPair(s, p)), 1)
  }

  function ExecPushPsw(s: State, mem: seq<byte>): Result
    requires s.pc < |mem| && InBounds(PushPsw, s, mem)
  {
    AdvanceResult(PushWord(s, mem, Word(s.A, Psw(s.flags))), 1)
  }

  function ExecJnz(s: State, mem: seq<byte>): Result
    requires s.pc < |mem| && InBounds(Jnz, s, mem)
  {
    if Get(s.flags, Z) == 0 then Next(s.(pc := Imm16(s, mem)), mem) else Next(Advance(s, 3), mem)
  }

  function ExecJmp(s: State, mem: seq<byte>): Result
    requires s.pc < |mem| && InBounds(Jmp, s, mem)
  {
    Next(s.(pc := Imm16(s, mem)), mem)
  }

  function ExecAdi(s: State, mem: seq<byte>): Result
    requires s.pc < |mem| && InBounds(Adi, s, mem)
  {
    Next(Advance(AddA(s, Imm8(s, mem)), 2), mem)
  }

  function ExecRst(n: byte, s: State, mem: seq<byte>): Result
    requires s.pc < |mem| && InBounds(Rst(n), s, mem)
  {
    Restart(s, mem, n)
  }

  function ExecRz(s: State, mem: seq<byte>): Result
    requires s.pc < |mem| && InBounds(Rz, s, mem)
  {
    if Get(s.flags, Z) == 0 then Next(s, mem) else Next(Return(s, mem), mem)
  }

  function ExecRet(s: State, mem: seq<byte>): Result
    requires s.pc < |mem| && InBounds(Ret, s, mem)
  {
    Next(Return(s, mem), mem)
  }

  function ExecCall(s: State, mem: seq<byte>): Result
    requires s.pc < |mem| && InBounds(Call, s, mem)
  {
    // pc is advanced and pushed first; D16 is then read from the updated buffer
    var pushed := PushWord(s, mem, Trunc16(s.pc + 3));
    Next(pushed.cpu.(pc := Word(pushed.mem[s.pc + 2], pushed.mem[s.pc + 1])), pushed.mem)
  }

  function ExecOut(s: State, mem: seq<byte>): Result
    requires s.pc < |mem| && InBounds(Out, s, mem)
  {
    Result(Advance(s, 2), mem, Output(Imm8(s, mem), s.A))
  }

  function ExecIn(s: State, mem: seq<byte>): Result
    requires s.pc < |mem| && InBounds(In, s, mem)
  {
    Next(Advance(s.(A := s.inputPorts[Imm8(s, mem)]), 2), mem)
  }

  function ExecAni(s: State, mem: seq<byte>): Result
    requires s.pc < |mem| && InBounds(Ani, s, mem)
  {
    Next(Advance(s.(A := And(s.A, Imm8(s, mem)), flags := Set(s.flags, CY, 0)), 2), mem)
  }

  function ExecXchg(s: State, mem: seq<byte>): Result
    requires s.pc < |mem| && InBounds(Xchg, s, mem)
  {
    Next(Advance(s.(D := s.H, E := s.L, H := s.D, L := s.E), 1), mem)
  }

  function ExecRp(s: State, mem: seq<byte>): Result
    requires s.pc < |mem| && InBounds(Rp, s, mem)
  {
    if Get(s.flags, P) == 1 then Next(Return(s, mem), mem) else Next(Advance(s, 1), mem)
  }

  function ExecDi(s: State, mem: seq<byte>): Result
    requires s.pc < |mem| && InBounds(Di, s, mem)
  {
    Next(Advance(s.(flags := Set(s.flags, EI, 0)), 1), mem)
  }

  function ExecJm(s: State, mem: seq<byte>): Result
    requires s.pc < |mem| && InBounds(Jm, s, mem)
  {
    if Get(s.flags, S) == 1 then Next(s.(pc := Imm16(s, mem)), mem) else Next(s, mem)
  }

  function ExecEi(s: State, mem: seq<byte>): Result
    requires s.pc < |mem| && InBounds(Ei, s, mem)
  {
    Next(Advance(s.(flags := Set(s.flags, EI, 1)), 1), mem)
  }

  function ExecCpi(s: State, mem: seq<byte>): Result
    requires s.pc < |mem| && InBounds(Cpi, s, mem)
  {
    Next(Advance(CpiA(s, Imm8(s, mem)), 2), mem)
  }

  function ExecUnimplemented(s: State, mem: seq<byte>): Result
    requires s.pc < |mem| && InBounds(Unimplemented, s, mem)
  {
    Result(s.(flags := Set(s.flags, HLT, 1)), mem, Halted(s.pc, mem[s.pc]))
  }

  /** Instructions of the data transfer group. */
  function ExecDataTransfer(i: Instr, s: State, mem: seq<byte>): Result
    requires GroupOf(i) == DataTransfer && s.pc < |mem| && InBounds(i, s, mem)
  {
    if i.Mov? then ExecMov(i.dst, i.src, s, mem)
    else if i.Mvi? then ExecMvi(i.r, s, mem)
    else if i.Lxi? then ExecLxi(i.p, s, mem)
    else if i.LxiSp? then ExecLxiSp(s, mem)
    else if i.Lda? then ExecLda(s, mem)
    else if i.Sta? then ExecSta(s, mem)
    else if i.LdaxD? then ExecLdaxD(s, mem)
    else if i.StaxB? then ExecStaxB(s, mem)
    else ExecXchg(s, mem)
  }

  /** Instructions of the arithmetic group. */
  function ExecArithmetic(i: Instr, s: State, mem: seq<byte>): Result
    requires GroupOf(i) == Arithmetic && s.pc < |mem| && InBounds(i, s, mem)
  {
    if i.Add? then ExecAdd(i.r, s, mem)
    else if i.Adc? then ExecAdc(i.r, s, mem)
    else if i.Adi? then ExecAdi(s, mem)
    else if i.Inx? then ExecInx(i.p, s, mem)
    else if i.InxSp? then ExecInxSp(s, mem)
    else if i.Dcr? then ExecDcr(i.r, s, mem)
    else if i.Dad? then ExecDad(i.p, s, mem)
    else ExecDadSp(s, mem)
  }

  /** Instructions of the logical group. */
  function ExecLogical(i: Instr, s: State, mem: seq<byte>): Result
    requires GroupOf(i) == Logical && s.pc < |mem| && InBounds(i, s, mem)
  {
    if i.Ana? then ExecAna(i.r, s, mem)
    else if i.Xra? then ExecXra(i.r, s, mem)
    else if i.Ani? then ExecAni(s, mem)
    else if i.Cpi? then ExecCpi(s, mem)
    else ExecRrc(s, mem)
  }

  /** Instructions of the branch group. */
  function ExecBranch(i: Instr, s: State, mem: seq<byte>): Result
    requires GroupOf(i) == Branch && s.pc < |mem| && InBounds(i, s, mem)
  {
    if i.Jmp? then ExecJmp(s, mem)
    else if i.Jnz? then ExecJnz(s, mem)
    else if i.Jm? then ExecJm(s, mem)
    else if i.Call? then ExecCall(s, mem)
    else if i.Ret? then ExecRet(s, mem)
    else if i.Rz? then ExecRz(s, mem)
    else if i.Rp? then ExecRp(s, mem)
    else ExecRst(i.n, s, mem)
  }

  /** Instructions of the stack group. */
  function ExecStack(i: Instr, s: State, mem: seq<byte>): Result
    requires GroupOf(i) == Stack && s.pc < |mem| && InBounds(i, s, mem)
  {
    if i.Push? then ExecPush(i.p, s, mem)
    else if i.PushPsw? then ExecPushPsw(s, mem)
    else if i.Pop? then ExecPop(i.p, s, mem)
    else ExecPopPsw(s, mem)
  }

  /** Instructions of the I/O and machine control group. */
  function ExecControl(i: Instr, s: State, mem: seq<byte>): Result
    requires GroupOf(i) == Control && s.pc < |mem| && InBounds(i, s, mem)
  {
    if i.In? then ExecIn(s, mem)
    else if i.Out? then ExecOut(s, mem)
    else if i.Ei? then ExecEi(s, mem)
    else if i.Di? then ExecDi(s, mem)
    else if i.Nop? then ExecNop(s, mem)
    else if i.Deb? then ExecDeb(s, mem)
    else ExecUnimplemented(s, mem)
  }

  /**
    The effect of one `case` of the switch, before the instruction counter is
    bumped.  Opcodes that set `pc` themselves (jumps, calls, returns, RST) do
    not advance it; the others advance it by their length.
   */
  function Exec(i: Instr, s: State, mem: seq<byte>): Result
    requires s.pc < |mem| && InBounds(i, s, mem)
  {
    match GroupOf(i)
    case DataTransfer => ExecDataTransfer(i, s, mem)
    case Arithmetic => ExecArithmetic(i, s, mem)
    case Logical => ExecLogical(i, s, mem)
    case Branch => ExecBranch(i, s, mem)
    case Stack => ExecStack(i, s, mem)
    case Control => ExecControl(i, s, mem)
  }

  /**
    No instruction changes the size of memory, the instruction counter or
    the input ports, and only the unimplemented ones halt.
   */
  predicate Frame(i: Instr, s: State, mem: seq<byte>)
    requires s.pc < |mem| && InBounds(i, s, mem)
  {
    var r := Exec(i, s, mem);
    && |r.mem| == |mem|
    && r.cpu.instr == s.instr
    && r.cpu.inputPorts == s.inputPorts
    && (r.outcome.Halted? <==> i == Unimplemented)
  }

  lemma ExecFrameDataTransfer(i: Instr, s: State, mem: seq<byte>)
    requires GroupOf(i) == DataTransfer && s.pc < |mem| && InBounds(i, s, mem)
    ensures Frame(i, s, mem)
  {
    if i.Mov? {
    } else if i.Mvi? {
    } else if i.Lxi? {
    } else if i.LxiSp? {
    } else if i.Lda? {
    } else if i.Sta? {
    } else if i.LdaxD? {
    } else if i.StaxB? {
    } else {
    }
  }

  lemma ExecFrameArithmetic(i: Instr, s: State, mem: seq<byte>)
    requires GroupOf(i) == Arithmetic && s.pc < |mem| && InBounds(i, s, mem)
    ensures Frame(i, s, mem)
  {
    if i.Add? {
    } else if i.Adc? {
    } else if i.Adi? {
    } else if i.Inx? {
    } else if i.InxSp? {
    } else if i.Dcr? {
    } else if i.Dad? {
    } else {
    }
  }

  lemma ExecFrameLogical(i: Instr, s: State, mem: seq<byte>)
    requires GroupOf(i) == Logical && s.pc < |mem| && InBounds(i, s, mem)
    ensures Frame(i, s, mem)
  {
    if i.Ana? {
    } else if i.Xra? {
    } else if i.Ani? {
    } else if i.Cpi? {
    } else {
    }
  }

  lemma ExecFrameJumps(i: Instr, s: State, mem: seq<byte>)
    requires (i.Jmp? || i.Jnz? || i.Jm? || i.Call?) && s.pc < |mem| && InBounds(i, s, mem)
    ensures Frame(i, s, mem)
  {
    if i.Jmp? {
    } else if i.Jnz? {
    } else if i.Jm? {
    } else {
    }
  }

  lemma ExecFrameReturns(i: Instr, s: State, mem: seq<byte>)
    requires (i.Ret? || i.Rz? || i.Rp? || i.Rst?) && s.pc < |mem| && InBounds(i, s, mem)
    ensures Frame(i, s, mem)
  {
    if i.Ret? {
    } else if i.Rz? {
    } else if i.Rp? {
    } else {
    }
  }

  lemma ExecFrameBranch(i: Instr, s: State, mem: seq<byte>)
    requires GroupOf(i) == Branch && s.pc < |mem| && InBounds(i, s, mem)
    ensures Frame(i, s, mem)
  {
    if i.Jmp? || i.Jnz? || i.Jm? || i.Call? {
      ExecFrameJumps(i, s, mem);
    } else {
      ExecFrameReturns(i, s, mem);
    }
  }

  lemma ExecFrameStack(i: Instr, s: State, mem: seq<byte>)
    requires GroupOf(i) == Stack && s.pc < |mem| && InBounds(i, s, mem)
    ensures Frame(i, s, mem)
  {
    if i.Push? {
    } else if i.PushPsw? {
    } else if i.Pop? {
    } else {
    }
  }

  lemma ExecFrameControl(i: Instr, s: State, mem: seq<byte>)
    requires GroupOf(i) == Control && s.pc < |mem| && InBounds(i, s, mem)
    ensures Frame(i, s, mem)
  {
    if i.In? {
    } else if i.Out? {
    } else if i.Ei? {
    } else if i.Di? {
    } else if i.Nop? {
    } else if i.Deb? {
    } else {
    }
  }

  lemma ExecFrame(i: Instr, s: State, mem: seq<byte>)
    requires s.pc < |mem| && InBounds(i, s, mem)
    ensures |Exec(i, s, mem).mem| == |mem|
    ensures Exec(i, s, mem).cpu.instr == s.instr
    ensures Exec(i, s, mem).cpu.inputPorts == s.inputPorts
    ensures Exec(i, s, mem).outcome.Halted? <==> i == Unimplemented
  {
    match GroupOf(i)
    case DataTransfer => ExecFrameDataTransfer(i, s, mem);
    case Arithmetic => ExecFrameArithmetic(i, s, mem);
    case Logical => ExecFrameLogical(i, s, mem);
    case Branch => ExecFrameBranch(i, s, mem);
    case Stack => ExecFrameStack(i, s, mem);
    case Control => ExecFrameControl(i, s, mem);
  }

  /** One call of `execute_instruction`: run the case of the opcode at `pc`, then count it unless it halted. */
  function Step(s: State, mem: seq<byte>): Result
    requires CanStep(s, mem)
  {
    var r := Exec(Decode(mem[s.pc]), s, mem);
    if r.outcome.Halted? then r else r.(cpu := r.cpu.(instr := s.instr + 1))
  }

  /**
    An implemented opcode is executed and the instruction counter goes up by
    exactly one; an unimplemented one sets HLT and reports the halt with its
    `pc` and opcode, and nothing else changes (the C program exits before the
    counter is bumped).  The memory keeps its size and the ports are never
    written.
   */
  lemma StepFrame(s: State, mem: seq<byte>)
    requires CanStep(s, mem)
    ensures |Step(s, mem).mem| == |mem| && Step(s, mem).cpu.inputPorts == s.inputPorts
    ensures Step(s, mem).outcome.Halted? <==> Decode(mem[s.pc]) == Unimplemented
    ensures !Step(s, mem).outcome.Halted? ==> Step(s, mem).cpu.instr == s.instr + 1
    ensures Step(s, mem).outcome.Halted? ==>
              Step(s, mem) == Result(s.(flags := Set(s.flags, HLT, 1)), mem, Halted(s.pc, mem[s.pc]))
  {
    ExecFrame(Decode(mem[s.pc]), s, mem);
  }

  /** `request_interrupt` needs stack room only when interrupts are enabled. */
  predicate CanInterrupt(s: State, mem: seq<byte>) {
    Get(s.flags, EI) == 1 ==> CanPush(s, mem)
  }

  /**
    `request_interrupt(n)`: ignored while EI is clear; otherwise EI is
    cleared and the RST macro runs with `n` (which is not range-checked).
   */
  function Interrupt(s: State, mem: seq<byte>, n: byte): (r: Result)
    requires CanInterrupt(s, mem)
    ensures |r.mem| == |mem| && r.outcome == Running
    ensures r.cpu.instr == s.instr
    ensures Get(s.flags, EI) == 0 ==> r == Next(s, mem)
    ensures Get(s.flags, EI) == 1 ==> Get(r.cpu.flags, EI) == 0 && r.cpu.sp == s.sp - 2 && r.cpu.pc == 8 * n
  {
    if Get(s.flags, EI) == 0 then Next(s, mem)
    else Restart(s.(flags := Set(s.flags, EI, 0)), mem, n)
  }
}
