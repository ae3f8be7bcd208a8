/**
  The CPU record updated in place, as 8080.c does it: `execute_instruction`
  and `request_interrupt` assign the fields of `struct i8080` one after the
  other and write the memory buffer passed to them as `memory`.

  Every method states its effect on the whole record (`Snapshot()`) and on
  the buffer in terms of the functions of the Semantics module, so the
  properties proved about those functions hold of the in-place code.
 */
module Cpu {
  import opened Bytes
  import opened Flags
  import opened CpuState
  import opened Decoder
  import opened Semantics

  class I8080 {
    var A: byte
    var B: byte
    var C: byte
    var D: byte
    var E: byte
    var H: byte
    var L: byte
    var flags: bv8
    var sp: word
    var pc: word
    var instr: int
    var inputPorts: PortTable

    /** The record as a value. */
    function Snapshot(): State
      reads this
    {
      State(A, B, C, D, E, H, L, flags, sp, pc, instr, inputPorts)
    }

    /** A record with every register, flag and counter at zero, reading `ports` on IN. */
    constructor (ports: PortTable)
      ensures Snapshot() == State(0, 0, 0, 0, 0, 0, 0, 0, 0, 0, 0, ports)
    {
      A, B, C, D, E, H, L := 0, 0, 0, 0, 0, 0, 0;
      flags, sp, pc, instr := 0, 0, 0, 0;
      inputPorts := ports;
    }

    /** `rpBC`, `rpDE`, `rpHL` */
    function Pair(p: RegPair): word
      reads this
    {
      GetPair(Snapshot(), p)
    }

    /** `srpBC`, `srpDE`, `srpHL` */
    method SetPair(p: RegPair, v: word)
      modifies this
      ensures Snapshot() == CpuState.SetPair(old(Snapshot()), p, v)
    {
      match p
      case BC => B := Hi(v); C := Lo(v);
      case DE => D := Hi(v); E := Lo(v);
      case HL => H := Hi(v); L := Lo(v);
    }

    /** A register operand, or `memory[gHL]` for M. */
    method Read(r: Reg, memory: array<byte>) returns (v: byte)
      requires CanAccess(Snapshot(), memory[..], r)
      ensures v == Semantics.Read(Snapshot(), memory[..], r)
    {
      match r
      case B => v := B;
      case C => v := C;
      case D => v := D;
      case E => v := E;
      case H => v := H;
      case L => v := L;
      case M => v := memory[Pair(HL)];
      case A => v := A;
    }

    /** Assignment to a register operand, or to `memory[gHL]` for M. */
    method Write(r: Reg, memory: array<byte>, v: byte)
      requires CanAccess(Snapshot(), memory[..], r)
      modifies this, memory
      ensures Next(Snapshot(), memory[..]) == Semantics.Write(old(Snapshot()), old(memory[..]), r, v)
    {
      match r
      case B => B := v;
      case C => C := v;
      case D => D := v;
      case E => E := v;
      case H => H := v;
      case L => L := v;
      case M => memory[Pair(HL)] := v;
      case A => A := v;
    }

    /** `memory[sp-1] = hi; memory[sp-2] = lo; sp -= 2;` as in PUSH, CALL and RST. */
    method PushWord(memory: array<byte>, v: word)
      requires CanPush(Snapshot(), memory[..])
      modifies this, memory
      ensures Next(Snapshot(), memory[..]) == Semantics.PushWord(old(Snapshot()), old(memory[..]), v)
    {
      memory[sp - 1] := Hi(v);
      memory[sp - 2] := Lo(v);
      sp := Trunc16(sp - 2);
    }

    /** The RST macro. */
    method Restart(memory: array<byte>, n: byte)
      requires CanPush(Snapshot(), memory[..])
      modifies this, memory
      ensures Next(Snapshot(), memory[..]) == Semantics.Restart(old(Snapshot()), old(memory[..]), n)
    {
      PushWord(memory, pc);
      pc := n * 8;
    }

    /** `request_interrupt`: nothing happens unless EI is set; then EI is cleared and RST n runs. */
    method RequestInterrupt(memory: array<byte>, n: byte)
      requires CanInterrupt(Snapshot(), memory[..])
      modifies this, memory
      ensures Next(Snapshot(), memory[..]) == Interrupt(old(Snapshot()), old(memory[..]), n)
    {
      if Get(flags, EI) == 0 {
        return;
      }
      flags := Set(flags, EI, 0);
      Restart(memory, n);
    }

    method ExecNop(memory: array<byte>)
      requires pc < memory.Length && InBounds(Nop, Snapshot(), memory[..])
      modifies this
      ensures Next(Snapshot(), memory[..]) == Semantics.ExecNop(old(Snapshot()), old(memory[..]))
    {
      pc := Trunc16(pc + 1);
    }

    method ExecLxi(p: RegPair, memory: array<byte>)
      requires pc < memory.Length && InBounds(Lxi(p), Snapshot(), memory[..])
      modifies this
      ensures Next(Snapshot(), memory[..]) == Semantics.ExecLxi(p, old(Snapshot()), old(memory[..]))
    {
      var at := pc;
      SetPair(p, Word(memory[at + 2], memory[at + 1]));
      pc := Trunc16(pc + 3);
    }

    method ExecLxiSp(memory: array<byte>)
      requires pc < memory.Length && InBounds(LxiSp, Snapshot(), memory[..])
      modifies this
      ensures Next(Snapshot(), memory[..]) == Semantics.ExecLxiSp(old(Snapshot()), old(memory[..]))
    {
      var at := pc;
      sp := Word(memory[at + 2], memory[at + 1]);
      pc := Trunc16(pc + 3);
    }

    method ExecStaxB(memory: array<byte>)
      requires pc < memory.Length && InBounds(StaxB, Snapshot(), memory[..])
      modifies this, memory
      ensures Next(Snapshot(), memory[..]) == Semantics.ExecStaxB(old(Snapshot()), old(memory[..]))
    {
      memory[Pair(BC)] := A;
      pc := Trunc16(pc + 1);
    }

    method ExecInx(p: RegPair, memory: array<byte>)
      requires pc < memory.Length && InBounds(Inx(p), Snapshot(), memory[..])
      modifies this
      ensures Next(Snapshot(), memory[..]) == Semantics.ExecInx(p, old(Snapshot()), old(memory[..]))
    {
      SetPair(p, Trunc16(Pair(p) + 1));
      pc := Trunc16(pc + 1);
    }

    method ExecInxSp(memory: array<byte>)
      requires pc < memory.Length && InBounds(InxSp, Snapshot(), memory[..])
      modifies this
      ensures Next(Snapshot(), memory[..]) == Semantics.ExecInxSp(old(Snapshot()), old(memory[..]))
    {
      sp := Trunc16(sp + 1);
      pc := Trunc16(pc + 1);
    }

    method ExecDcr(r: Reg, memory: array<byte>)
      requires pc < memory.Length && InBounds(Dcr(r), Snapshot(), memory[..])
      modifies this, memory
      ensures Next(Snapshot(), memory[..]) == Semantics.ExecDcr(r, old(Snapshot()), old(memory[..]))
    {
      var v := Read(r, memory);
      var dec := Trunc8(v as int - 1);
      Write(r, memory, dec);
      ghost var written := memory[..];
      flags := SetZSP(flags, dec);
      assert memory[..] == written;
      pc := Trunc16(pc + 1);
    }

    method ExecMvi(r: Reg, memory: array<byte>)
      requires pc < memory.Length && InBounds(Mvi(r), Snapshot(), memory[..])
      modifies this, memory
      ensures Next(Snapshot(), memory[..]) == Semantics.ExecMvi(r, old(Snapshot()), old(memory[..]))
    {
      var at := pc;
      Write(r, memory, memory[at + 1]);
      pc := Trunc16(pc + 2);
    }

    /** The ADD macro: CY from `A > 255 - x`, A += x, then Z, S, P from A. */
    method AddToA(x: byte)
      modifies this
      ensures Snapshot() == AddA(old(Snapshot()), x)
    {
      flags := Set(flags, CY, FromBool(A > 255 - x));
      A := Trunc8(A + x);
      flags := SetZSP(flags, A);
    }

    /** The ADC macro: CY from `A + x + CY > 255`, then Z, S, P from A, which is not written. */
    method AddWithCarry(x: byte)
      modifies this
      ensures Snapshot() == AdcA(old(Snapshot()), x)
    {
      var sum := A + x + Get(flags, CY);
      flags := Set(flags, CY, FromBool(sum > 255));
      flags := SetZSP(flags, A);
    }

    /** The ANA macro: A &= x, Z, S, P from A, CY cleared. */
    method AndWithA(x: byte)
      modifies this
      ensures Snapshot() == AnaA(old(Snapshot()), x)
    {
      A := And(A, x);
      flags := SetZSP(flags, A);
      flags := Set(flags, CY, 0);
    }

    /** The XRA macro: A ^= x, Z, S, P from A, CY and AC cleared. */
    method XorWithA(x: byte)
      modifies this
      ensures Snapshot() == XraA(old(Snapshot()), x)
    {
      A := Xor(A, x);
      flags := SetZSP(flags, A);
      flags := Set(flags, CY, 0);
      flags := Set(flags, AC, 0);
    }

    /** The DAD macro: CY from `HL > 0xFFFF - x`, then HL := HL + x. */
    method DoubleAdd(x: word)
      modifies this
      ensures Snapshot() == DadHL(old(Snapshot()), x)
    {
      var hl := Pair(HL);
      flags := Set(flags, CY, FromBool(hl > 0xFFFF - x));
      SetPair(HL, Trunc16(hl as int + x));
    }

    method ExecDad(p: RegPair, memory: array<byte>)
      requires pc < memory.Length && InBounds(Dad(p), Snapshot(), memory[..])
      modifies this
      ensures Next(Snapshot(), memory[..]) == Semantics.ExecDad(p, old(Snapshot()), old(memory[..]))
    {
      DoubleAdd(Pair(p));
      pc := Trunc16(pc + 1);
    }

    method ExecDadSp(memory: array<byte>)
      requires pc < memory.Length && InBounds(DadSp, Snapshot(), memory[..])
      modifies this
      ensures Next(Snapshot(), memory[..]) == Semantics.ExecDadSp(old(Snapshot()), old(memory[..]))
    {
      DoubleAdd(sp);
      pc := Trunc16(pc + 1);
    }

    method ExecRrc(memory: array<byte>)
      requires pc < memory.Length && InBounds(Rrc, Snapshot(), memory[..])
      modifies this
      ensures Next(Snapshot(), memory[..]) == Semantics.ExecRrc(old(Snapshot()), old(memory[..]))
    {
      var bit := A % 2;
      A := A / 2;
      // `A |= bit << 8`: bit 8 lies above the A register, so the OR is an addition that is truncated away
      A := Trunc8(A + bit * 0x100);
      flags := Set(flags, CY, bit);
      pc := Trunc16(pc + 1);
    }

    method ExecDeb(memory: array<byte>)
      requires pc < memory.Length && InBounds(Deb, Snapshot(), memory[..])
      modifies this
      ensures Next(Snapshot(), memory[..]) == Semantics.ExecDeb(old(Snapshot()), old(memory[..]))
    {
      pc := Trunc16(pc + 1);
    }

    method ExecLdaxD(memory: array<byte>)
      requires pc < memory.Length && InBounds(LdaxD, Snapshot(), memory[..])
      modifies this
      ensures Next(Snapshot(), memory[..]) == Semantics.ExecLdaxD(old(Snapshot()), old(memory[..]))
    {
      A := memory[Pair(DE)];
      pc := Trunc16(pc + 1);
    }

    method ExecSta(memory: array<byte>)
      requires pc < memory.Length && InBounds(Sta, Snapshot(), memory[..])
      modifies this, memory
      ensures Next(Snapshot(), memory[..]) == Semantics.ExecSta(old(Snapshot()), old(memory[..]))
    {
      var at := pc;
      memory[Word(memory[at + 2], memory[at + 1])] := A;
      pc := Trunc16(pc + 3);
    }

    method ExecLda(memory: array<byte>)
      requires pc < memory.Length && InBounds(Lda, Snapshot(), memory[..])
      modifies this
      ensures Next(Snapshot(), memory[..]) == Semantics.ExecLda(old(Snapshot()), old(memory[..]))
    {
      var at := pc;
      A := memory[Word(memory[at + 2], memory[at + 1])];
      pc := Trunc16(pc + 3);
    }

    method ExecMov(d: Reg, r: Reg, memory: array<byte>)
      requires pc < memory.Length && InBounds(Mov(d, r), Snapshot(), memory[..])
      modifies this, memory
      ensures Next(Snapshot(), memory[..]) == Semantics.ExecMov(d, r, old(Snapshot()), old(memory[..]))
    {
      var v := Read(r, memory);
      Write(d, memory, v);
      pc := Trunc16(pc + 1);
    }

    method ExecAdd(r: Reg, memory: array<byte>)
      requires pc < memory.Length && InBounds(Add(r), Snapshot(), memory[..])
      modifies this
      ensures Next(Snapshot(), memory[..]) == Semantics.ExecAdd(r, old(Snapshot()), old(memory[..]))
    {
      var x := Read(r, memory);
      AddToA(x);
      pc := Trunc16(pc + 1);
    }

    method ExecAdc(r: Reg, memory: array<byte>)
      requires pc < memory.Length && InBounds(Adc(r), Snapshot(), memory[..])
      modifies this
      ensures Next(Snapshot(), memory[..]) == Semantics.ExecAdc(r, old(Snapshot()), old(memory[..]))
    {
      var x := Read(r, memory);
      AddWithCarry(x);
      pc := Trunc16(pc + 1);
    }

    method ExecAna(r: Reg, memory: array<byte>)
      requires pc < memory.Length && InBounds(Ana(r), Snapshot(), memory[..])
      modifies this
      ensures Next(Snapshot(), memory[..]) == Semantics.ExecAna(r, old(Snapshot()), old(memory[..]))
    {
      var x := Read(r, memory);
      AndWithA(x);
      pc := Trunc16(pc + 1);
    }

    method ExecXra(r: Reg, memory: array<byte>)
      requires pc < memory.Length && InBounds(Xra(r), Snapshot(), memory[..])
      modifies this
      ensures Next(Snapshot(), memory[..]) == Semantics.ExecXra(r, old(Snapshot()), old(memory[..]))
    {
      var x := Read(r, memory);
      XorWithA(x);
      pc := Trunc16(pc + 1);
    }

    method ExecPop(p: RegPair, memory: array<byte>)
      requires pc < memory.Length && InBounds(Pop(p), Snapshot(), memory[..])
      modifies this
      ensures Next(Snapshot(), memory[..]) == Semantics.ExecPop(p, old(Snapshot()), old(memory[..]))
    {
      SetPair(p, Word(memory[sp + 1], memory[sp]));
      sp := Trunc16(sp + 2);
      pc := Trunc16(pc + 1);
    }

    method ExecPopPsw(memory: array<byte>)
      requires pc < memory.Length && InBounds(PopPsw, Snapshot(), memory[..])
      modifies this
      ensures Next(Snapshot(), memory[..]) == Semantics.ExecPopPsw(old(Snapshot()), old(memory[..]))
    {
      var psw := memory[sp];
      A := memory[sp + 1];
      flags := Set(flags, CY, BitOf(psw, 0));
      flags := Set(flags, P, BitOf(psw, 2));
      flags := Set(flags, AC, BitOf(psw, 4));
      flags := Set(flags, Z, BitOf(psw, 6));
      flags := Set(flags, S, BitOf(psw, 7));
      sp := Trunc16(sp + 2);
      pc := Trunc16(pc + 1);
    }

    method ExecPush(p: RegPair, memory: array<byte>)
      requires pc < memory.Length && InBounds(Push(p), Snapshot(), memory[..])
      modifies this, memory
      ensures Next(Snapshot(), memory[..]) == Semantics.ExecPush(p, old(Snapshot()), old(memory[..]))
    {
      PushWord(memory, Pair(p));
      pc := Trunc16(pc + 1);
    }

    method ExecPushPsw(memory: array<byte>)
      requires pc < memory.Length && InBounds(PushPsw, Snapshot(), memory[..])
      modifies this, memory
      ensures Next(Snapshot(), memory[..]) == Semantics.ExecPushPsw(old(Snapshot()), old(memory[..]))
    {
      PushWord(memory, Word(A, Psw(flags)));
      pc := Trunc16(pc + 1);
    }

    method ExecJnz(memory: array<byte>)
      requires pc < memory.Length && InBounds(Jnz, Snapshot(), memory[..])
      modifies this
      ensures Next(Snapshot(), memory[..]) == Semantics.ExecJnz(old(Snapshot()), old(memory[..]))
    {
      var at := pc;
      if Get(flags, Z) == 0 {
        pc := Word(memory[at + 2], memory[at + 1]);
      } else {
        pc := Trunc16(pc + 3);
      }
    }

    method ExecJmp(memory: array<byte>)
      requires pc < memory.Length && InBounds(Jmp, Snapshot(), memory[..])
      modifies this
      ensures Next(Snapshot(), memory[..]) == Semantics.ExecJmp(old(Snapshot()), old(memory[..]))
    {
      var at := pc;
      pc := Word(memory[at + 2], memory[at + 1]);
    }

    method ExecAdi(memory: array<byte>)
      requires pc < memory.Length && InBounds(Adi, Snapshot(), memory[..])
      modifies this
      ensures Next(Snapshot(), memory[..]) == Semantics.ExecAdi(old(Snapshot()), old(memory[..]))
    {
      AddToA(memory[pc + 1]);
      pc := Trunc16(pc + 2);
    }

    method ExecRst(n: byte, memory: array<byte>)
      requires pc < memory.Length && InBounds(Rst(n), Snapshot(), memory[..])
      modifies this, memory
      ensures Next(Snapshot(), memory[..]) == Semantics.ExecRst(n, old(Snapshot()), old(memory[..]))
    {
      Restart(memory, n);
    }

    method ExecRz(memory: array<byte>)
      requires pc < memory.Length && InBounds(Rz, Snapshot(), memory[..])
      modifies this
      ensures Next(Snapshot(), memory[..]) == Semantics.ExecRz(old(Snapshot()), old(memory[..]))
    {
      if Get(flags, Z) != 0 {
        pc := Word(memory[sp + 1], memory[sp]);
        sp := Trunc16(sp + 2);
      }
    }

    method ExecRet(memory: array<byte>)
      requires pc < memory.Length && InBounds(Ret, Snapshot(), memory[..])
      modifies this
      ensures Next(Snapshot(), memory[..]) == Semantics.ExecRet(old(Snapshot()), old(memory[..]))
    {
      pc := Word(memory[sp + 1], memory[sp]);
      sp := Trunc16(sp + 2);
    }

    method ExecCall(memory: array<byte>)
      requires pc < memory.Length && InBounds(Call, Snapshot(), memory[..])
      modifies this, memory
      ensures Next(Snapshot(), memory[..]) == Semantics.ExecCall(old(Snapshot()), old(memory[..]))
    {
      var at := pc;
      pc := Trunc16(pc + 3);
      PushWord(memory, pc);
      pc := Word(memory[at + 2], memory[at + 1]);
    }

    method ExecOut(memory: array<byte>) returns (outcome: Outcome)
      requires pc < memory.Length && InBounds(Out, Snapshot(), memory[..])
      modifies this
      ensures Result(Snapshot(), memory[..], outcome) == Semantics.ExecOut(old(Snapshot()), old(memory[..]))
    {
      var at := pc;
      outcome := Output(memory[at + 1], A);
      pc := Trunc16(pc + 2);
    }

    method ExecIn(memory: array<byte>)
      requires pc < memory.Length && InBounds(In, Snapshot(), memory[..])
      modifies this
      ensures Next(Snapshot(), memory[..]) == Semantics.ExecIn(old(Snapshot()), old(memory[..]))
    {
      var at := pc;
      A := inputPorts[memory[at + 1]];
      pc := Trunc16(pc + 2);
    }

    method ExecAni(memory: array<byte>)
      requires pc < memory.Length && InBounds(Ani, Snapshot(), memory[..])
      modifies this
      ensures Next(Snapshot(), memory[..]) == Semantics.ExecAni(old(Snapshot()), old(memory[..]))
    {
      A := And(A, memory[pc + 1]);
      flags := Set(flags, CY, 0);
      pc := Trunc16(pc + 2);
    }

    method ExecXchg(memory: array<byte>)
      requires pc < memory.Length && InBounds(Xchg, Snapshot(), memory[..])
      modifies this
      ensures Next(Snapshot(), memory[..]) == Semantics.ExecXchg(old(Snapshot()), old(memory[..]))
    {
      H, D := D, H;
      L, E := E, L;
      pc := Trunc16(pc + 1);
    }

    method ExecRp(memory: array<byte>)
      requires pc < memory.Length && InBounds(Rp, Snapshot(), memory[..])
      modifies this
      ensures Next(Snapshot(), memory[..]) == Semantics.ExecRp(old(Snapshot()), old(memory[..]))
    {
      if Get(flags, P) == 1 {
        pc := Word(memory[sp + 1], memory[sp]);
        sp := Trunc16(sp + 2);
      } else {
        pc := Trunc16(pc + 1);
      }
    }

    method ExecDi(memory: array<byte>)
      requires pc < memory.Length && InBounds(Di, Snapshot(), memory[..])
      modifies this
      ensures Next(Snapshot(), memory[..]) == Semantics.ExecDi(old(Snapshot()), old(memory[..]))
    {
      flags := Set(flags, EI, 0);
      pc := Trunc16(pc + 1);
    }

    method ExecJm(memory: array<byte>)
      requires pc < memory.Length && InBounds(Jm, Snapshot(), memory[..])
      modifies this
      ensures Next(Snapshot(), memory[..]) == Semantics.ExecJm(old(Snapshot()), old(memory[..]))
    {
      var at := pc;
      if Get(flags, S) == 1 {
        pc := Word(memory[at + 2], memory[at + 1]);
      }
    }

    method ExecEi(memory: array<byte>)
      requires pc < memory.Length && InBounds(Ei, Snapshot(), memory[..])
      modifies this
      ensures Next(Snapshot(), memory[..]) == Semantics.ExecEi(old(Snapshot()), old(memory[..]))
    {
      flags := Set(flags, EI, 1);
      pc := Trunc16(pc + 1);
    }

    method ExecCpi(memory: array<byte>)
      requires pc < memory.Length && InBounds(Cpi, Snapshot(), memory[..])
      modifies this
      ensures Next(Snapshot(), memory[..]) == Semantics.ExecCpi(old(Snapshot()), old(memory[..]))
    {
      var at := pc;
      var x := memory[at + 1];
      flags := Set(flags, CY, FromBool(A < x));
      var tmp := Trunc8(A - x);
      flags := SetZSP(flags, tmp);
      pc := Trunc16(pc + 2);
    }

    method ExecUnimplemented(memory: array<byte>) returns (outcome: Outcome)
      requires pc < memory.Length && InBounds(Unimplemented, Snapshot(), memory[..])
      modifies this
      ensures Result(Snapshot(), memory[..], outcome) == Semantics.ExecUnimplemented(old(Snapshot()), old(memory[..]))
    {
      var at := pc;
      flags := Set(flags, HLT, 1);
      outcome := Halted(at, memory[at]);
    }

    /** The cases of the switch for the data transfer group: MOV, MVI, LXI, LDA, STA, LDAX, STAX, XCHG. */
    method ExecDataTransfer(i: Instr, memory: array<byte>) returns (outcome: Outcome)
      requires GroupOf(i) == DataTransfer && pc < memory.Length && InBounds(i, Snapshot(), memory[..])
      modifies this, memory
      ensures Result(Snapshot(), memory[..], outcome) == Semantics.ExecDataTransfer(i, old(Snapshot()), old(memory[..]))
    {
      outcome := Running;
      if i.Mov? {
        ExecMov(i.dst, i.src, memory);
      } else if i.Mvi? {
        ExecMvi(i.r, memory);
      } else if i.Lxi? {
        ExecLxi(i.p, memory);
      } else if i.LxiSp? {
        ExecLxiSp(memory);
      } else if i.Lda? {
        ExecLda(memory);
      } else if i.Sta? {
        ExecSta(memory);
      } else if i.LdaxD? {
        ExecLdaxD(memory);
      } else if i.StaxB? {
        ExecStaxB(memory);
      } else {
        ExecXchg(memory);
      }
    }

    /** The cases of the switch for the arithmetic group: ADD, ADC, ADI, INX, DCR, DAD. */
    method ExecArithmetic(i: Instr, memory: array<byte>) returns (outcome: Outcome)
      requires GroupOf(i) == Arithmetic && pc < memory.Length && InBounds(i, Snapshot(), memory[..])
      modifies this, memory
      ensures Result(Snapshot(), memory[..], outcome) == Semantics.ExecArithmetic(i, old(Snapshot()), old(memory[..]))
    {
      outcome := Running;
      if i.Add? {
        ExecAdd(i.r, memory);
      } else if i.Adc? {
        ExecAdc(i.r, memory);
      } else if i.Adi? {
        ExecAdi(memory);
      } else if i.Inx? {
        ExecInx(i.p, memory);
      } else if i.InxSp? {
        ExecInxSp(memory);
      } else if i.Dcr? {
        ExecDcr(i.r, memory);
      } else if i.Dad? {
        ExecDad(i.p, memory);
      } else {
        ExecDadSp(memory);
      }
    }

    /** The cases of the switch for the logical group: ANA, XRA, ANI, CPI, RRC. */
    method ExecLogical(i: Instr, memory: array<byte>) returns (outcome: Outcome)
      requires GroupOf(i) == Logical && pc < memory.Length && InBounds(i, Snapshot(), memory[..])
      modifies this, memory
      ensures Result(Snapshot(), memory[..], outcome) == Semantics.ExecLogical(i, old(Snapshot()), old(memory[..]))
    {
      outcome := Running;
      if i.Ana? {
        ExecAna(i.r, memory);
      } else if i.Xra? {
        ExecXra(i.r, memory);
      } else if i.Ani? {
        ExecAni(memory);
      } else if i.Cpi? {
        ExecCpi(memory);
      } else {
        ExecRrc(memory);
      }
    }

    /** The cases of the switch for the branch group: JMP, JNZ, JM, CALL, RET, RZ, RP, RST. */
    method ExecBranch(i: Instr, memory: array<byte>) returns (outcome: Outcome)
      requires GroupOf(i) == Branch && pc < memory.Length && InBounds(i, Snapshot(), memory[..])
      modifies this, memory
      ensures Result(Snapshot(), memory[..], outcome) == Semantics.ExecBranch(i, old(Snapshot()), old(memory[..]))
    {
      outcome := Running;
      if i.Jmp? {
        ExecJmp(memory);
      } else if i.Jnz? {
        ExecJnz(memory);
      } else if i.Jm? {
        ExecJm(memory);
      } else if i.Call? {
        ExecCall(memory);
      } else if i.Ret? {
        ExecRet(memory);
      } else if i.Rz? {
        ExecRz(memory);
      } else if i.Rp? {
        ExecRp(memory);
      } else {
        ExecRst(i.n, memory);
      }
    }

    /** The cases of the switch for the stack group: PUSH, POP. */
    method ExecStack(i: Instr, memory: array<byte>) returns (outcome: Outcome)
      requires GroupOf(i) == Stack && pc < memory.Length && InBounds(i, Snapshot(), memory[..])
      modifies this, memory
      ensures Result(Snapshot(), memory[..], outcome) == Semantics.ExecStack(i, old(Snapshot()), old(memory[..]))
    {
      outcome := Running;
      if i.Push? {
        ExecPush(i.p, memory);
      } else if i.PushPsw? {
        ExecPushPsw(memory);
      } else if i.Pop? {
        ExecPop(i.p, memory);
      } else {
        ExecPopPsw(memory);
      }
    }

    /** The cases of the switch for I/O and machine control: IN, OUT, EI, DI, NOP, DEB and the unimplemented opcodes. */
    method ExecControl(i: Instr, memory: array<byte>) returns (outcome: Outcome)
      requires GroupOf(i) == Control && pc < memory.Length && InBounds(i, Snapshot(), memory[..])
      modifies this, memory
      ensures Result(Snapshot(), memory[..], outcome) == Semantics.ExecControl(i, old(Snapshot()), old(memory[..]))
    {
      outcome := Running;
      if i.In? {
        ExecIn(memory);
      } else if i.Out? {
        outcome := ExecOut(memory);
      } else if i.Ei? {
        ExecEi(memory);
      } else if i.Di? {
        ExecDi(memory);
      } else if i.Nop? {
        ExecNop(memory);
      } else if i.Deb? {
        ExecDeb(memory);
      } else {
        outcome := ExecUnimplemented(memory);
      }
    }

    /** The `case` of the switch that handles `i`. */
    method Execute(i: Instr, memory: array<byte>) returns (outcome: Outcome)
      requires pc < memory.Length && InBounds(i, Snapshot(), memory[..])
      modifies this, memory
      ensures Result(Snapshot(), memory[..], outcome) == Exec(i, old(Snapshot()), old(memory[..]))
    {
      match GroupOf(i)
      case DataTransfer =>
        outcome := ExecDataTransfer(i, memory);
      case Arithmetic =>
        outcome := ExecArithmetic(i, memory);
      case Logical =>
        outcome := ExecLogical(i, memory);
      case Branch =>
        outcome := ExecBranch(i, memory);
      case Stack =>
        outcome := ExecStack(i, memory);
      case Control =>
        outcome := ExecControl(i, memory);
    }

    /**
      `execute_instruction`: fetch the opcode at `pc`, run its case and count
      the instruction; an unimplemented opcode stops the machine before the
      count.  The new record, buffer and outcome are those of `Step`.
     */
    method ExecuteInstruction(memory: array<byte>) returns (outcome: Outcome)
      requires CanStep(Snapshot(), memory[..])
      modifies this, memory
      ensures Result(Snapshot(), memory[..], outcome) == Step(old(Snapshot()), old(memory[..]))
    {
      var i := Decode(memory[pc]);
      ghost var r := Exec(i, Snapshot(), memory[..]);
      assert Step(Snapshot(), memory[..]) == if r.outcome.Halted? then r else r.(cpu := r.cpu.(instr := instr + 1));
      ExecFrame(i, Snapshot(), memory[..]);
      outcome := Execute(i, memory);
      if !outcome.Halted? {
        instr := instr + 1;
      }
    }
  }
}
