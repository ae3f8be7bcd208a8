/**
  The opcode of each implemented instruction -- the `case` label of the
  switch in 8080.c -- and the round trips between it and the decoder.
 */
module DecodeProperties {
  import opened Bytes
  import opened CpuState
  import opened Decoder

  /** The number of a register operand in an opcode field. */
  function RegIndex(r: Reg): (k: int)
    ensures 0 <= k < 8 && RegOf(k) == r
  {
    match r
    case B => 0
    case C => 1
    case D => 2
    case E => 3
    case H => 4
    case L => 5
    case M => 6
    case A => 7
  }

  /** The number of a register pair in an opcode field. */
  function PairIndex(p: RegPair): (k: int)
    ensures 0 <= k < 3 && PairOf(k) == p
  {
    match p
    case BC => 0
    case DE => 1
    case HL => 2
  }

  /**
    The instructions that have a `case` of their own in the switch: all but
    `Unimplemented`, an RST number below 8, and no MOV M,M (0x76 is HLT).
   */
  predicate Implemented(i: Instr) {
    && i != Unimplemented
    && (i.Rst? ==> i.n < 8)
    && (i.Mov? ==> !(i.dst == M && i.src == M))
  }

  /** The opcode byte whose `case` performs `i`. */
  function Opcode(i: Instr): byte
    requires Implemented(i)
  {
    match i
    case Nop => 0x00
    case Lxi(p) => 0x01 + 16 * PairIndex(p)
    case LxiSp => 0x31
    case StaxB => 0x02
    case Inx(p) => 0x03 + 16 * PairIndex(p)
    case InxSp => 0x33
    case Dcr(r) => 0x05 + 8 * RegIndex(r)
    case Mvi(r) => 0x06 + 8 * RegIndex(r)
    case Dad(p) => 0x09 + 16 * PairIndex(p)
    case DadSp => 0x39
    case Rrc => 0x0f
    case Deb => 0x10
    case LdaxD => 0x1a
    case Sta => 0x32
    case Lda => 0x3a
    case Mov(d, r) => 0x40 + 8 * RegIndex(d) + RegIndex(r)
    case Add(r) => 0x80 + RegIndex(r)
    case Adc(r) => 0x88 + RegIndex(r)
    case Ana(r) => 0xa0 + RegIndex(r)
    case Xra(r) => 0xa8 + RegIndex(r)
    case Pop(p) => 0xc1 + 16 * PairIndex(p)
    case PopPsw => 0xf1
    case Push(p) => 0xc5 + 16 * PairIndex(p)
    case PushPsw => 0xf5
    case Jnz => 0xc2
    case Jmp => 0xc3
    case Adi => 0xc6
    case Rst(n) => 0xc7 + 8 * n
    case Rz => 0xc8
    case Ret => 0xc9
    case Call => 0xcd
    case Out => 0xd3
    case In => 0xdb
    case Ani => 0xe6
    case Xchg => 0xeb
    case Rp => 0xf0
    case Di => 0xf3
    case Jm => 0xfa
    case Ei => 0xfb
    case Cpi => 0xfe
  }

  /** MOV: the destination in bits 5-3, the source in bits 2-0. */
  lemma RoundTripMov(i: Instr)
    requires Implemented(i) && i.Mov?
    ensures Decode(Opcode(i)) == i
  {
    assert Opcode(i) / 8 % 8 == RegIndex(i.dst) && Opcode(i) % 8 == RegIndex(i.src);
  }

  /** ADD, ADC, ANA and XRA: the source register in bits 2-0. */
  lemma RoundTripAccumulatorRows(i: Instr)
    requires i.Add? || i.Adc? || i.Ana? || i.Xra?
    ensures Decode(Opcode(i)) == i
  {
    assert Opcode(i) % 8 == RegIndex(i.r);
  }

  /** DCR and MVI: the register in bits 5-3. */
  lemma RoundTripRegisterField(i: Instr)
    requires i.Dcr? || i.Mvi?
    ensures Decode(Opcode(i)) == i
  {
    assert Opcode(i) / 8 % 8 == RegIndex(i.r);
  }

  /** LXI, INX and DAD: the register pair in bits 5-4. */
  lemma RoundTripLowPairField(i: Instr)
    requires i.Lxi? || i.Inx? || i.Dad?
    ensures Decode(Opcode(i)) == i
  {
    assert Opcode(i) / 16 % 4 == PairIndex(i.p);
  }

  /** POP and PUSH: the register pair in bits 5-4. */
  lemma RoundTripHighPairField(i: Instr)
    requires i.Pop? || i.Push?
    ensures Decode(Opcode(i)) == i
  {
    assert Opcode(i) / 16 % 4 == PairIndex(i.p);
  }

  /** RST: the vector number in bits 5-3. */
  lemma RoundTripRst(i: Instr)
    requires i.Rst? && i.n < 8
    ensures Decode(Opcode(i)) == i
  {
    assert Opcode(i) / 8 % 8 == i.n;
  }

  lemma RoundTripLowSingles(i: Instr)
    requires i in {Nop, StaxB, Rrc, Deb, LdaxD, Sta, Lda}
    ensures Decode(Opcode(i)) == i
  {
  }

  /** The opcodes naming SP or PSW in the pair field. */
  lemma RoundTripSpAndPsw(i: Instr)
    requires i in {LxiSp, InxSp, DadSp, PopPsw, PushPsw}
    ensures Decode(Opcode(i)) == i
  {
  }

  lemma RoundTripJumps(i: Instr)
    requires i in {Jnz, Jmp, Jm}
    ensures Decode(Opcode(i)) == i
  {
  }

  lemma RoundTripCallsAndReturns(i: Instr)
    requires i in {Rz, Ret, Call, Rp}
    ensures Decode(Opcode(i)) == i
  {
  }

  lemma RoundTripImmediates(i: Instr)
    requires i in {Adi, Ani, Cpi, Xchg}
    ensures Decode(Opcode(i)) == i
  {
  }

  lemma RoundTripMachineControl(i: Instr)
    requires i in {Out, In, Di, Ei}
    ensures Decode(Opcode(i)) == i
  {
  }

  /** Decoding the opcode of an implemented instruction gives the instruction back. */
  lemma DecodeOpcode(i: Instr)
    requires Implemented(i)
    ensures Decode(Opcode(i)) == i
  {
    if i.Mov? {
      RoundTripMov(i);
    } else if i.Add? || i.Adc? || i.Ana? || i.Xra? {
      RoundTripAccumulatorRows(i);
    } else if i.Dcr? || i.Mvi? {
      RoundTripRegisterField(i);
    } else if i.Lxi? || i.Inx? || i.Dad? {
      RoundTripLowPairField(i);
    } else if i.Pop? || i.Push? {
      RoundTripHighPairField(i);
    } else if i.Rst? {
      RoundTripRst(i);
    } else if i in {Nop, StaxB, Rrc, Deb, LdaxD, Sta, Lda} {
      RoundTripLowSingles(i);
    } else if i in {LxiSp, InxSp, DadSp, PopPsw, PushPsw} {
      RoundTripSpAndPsw(i);
    } else if i in {Jnz, Jmp, Jm} {
      RoundTripJumps(i);
    } else if i in {Rz, Ret, Call, Rp} {
      RoundTripCallsAndReturns(i);
    } else if i in {Adi, Ani, Cpi, Xchg} {
      RoundTripImmediates(i);
    } else {
      RoundTripMachineControl(i);
    }
  }

  lemma RegIndexOf(k: int)
    requires 0 <= k < 8
    ensures RegIndex(RegOf(k)) == k
  {
  }

  lemma PairIndexOf(k: int)
    requires 0 <= k < 3
    ensures PairIndex(PairOf(k)) == k
  {
  }

  /** The MOV block 0x40-0x7f, HLT (0x76) excepted. */
  lemma OpcodeOfMov(op: byte)
    requires 0x40 <= op < 0x80 && op != 0x76
    ensures Implemented(Decode(op)) && Opcode(Decode(op)) == op
  {
    RegIndexOf(op / 8 % 8);
    RegIndexOf(op % 8);
  }

  /** The ADD, ADC, ANA and XRA rows. */
  lemma OpcodeOfAccumulatorRows(op: byte)
    requires 0x80 <= op < 0x90 || 0xa0 <= op < 0xb0
    ensures Implemented(Decode(op)) && Opcode(Decode(op)) == op
  {
    RegIndexOf(op % 8);
  }

  /** DCR and MVI. */
  lemma OpcodeOfRegisterField(op: byte)
    requires op < 0x40 && (op % 8 == 5 || op % 8 == 6)
    ensures Implemented(Decode(op)) && Opcode(Decode(op)) == op
  {
    RegIndexOf(op / 8 % 8);
  }

  /** LXI, INX and DAD of BC, DE or HL. */
  lemma OpcodeOfLowPairField(op: byte)
    requires op < 0x30 && (op % 16 == 1 || op % 16 == 3 || op % 16 == 9)
    ensures Implemented(Decode(op)) && Opcode(Decode(op)) == op
  {
    PairIndexOf(op / 16 % 4);
  }

  /** POP and PUSH of BC, DE or HL. */
  lemma OpcodeOfHighPairField(op: byte)
    requires 0xc0 <= op < 0xf0 && (op % 16 == 1 || op % 16 == 5)
    ensures Implemented(Decode(op)) && Opcode(Decode(op)) == op
  {
    PairIndexOf(op / 16 % 4);
  }

  lemma OpcodeOfRst(op: byte)
    requires 0xc0 <= op && op % 8 == 7
    ensures Implemented(Decode(op)) && Opcode(Decode(op)) == op
  {
  }

  lemma OpcodeOfLowSingles(op: byte)
    requires op in {0x00, 0x02, 0x0f, 0x10, 0x1a, 0x32, 0x3a}
    ensures Implemented(Decode(op)) && Opcode(Decode(op)) == op
  {
  }

  lemma OpcodeOfSpAndPsw(op: byte)
    requires op in {0x31, 0x33, 0x39, 0xf1, 0xf5}
    ensures Implemented(Decode(op)) && Opcode(Decode(op)) == op
  {
  }

  lemma OpcodeOfJumps(op: byte)
    requires op in {0xc2, 0xc3, 0xfa}
    ensures Implemented(Decode(op)) && Opcode(Decode(op)) == op
  {
  }

  lemma OpcodeOfCallsAndReturns(op: byte)
    requires op in {0xc8, 0xc9, 0xcd, 0xf0}
    ensures Implemented(Decode(op)) && Opcode(Decode(op)) == op
  {
    if op == 0xc8 {
    } else if op == 0xc9 {
    } else if op == 0xcd {
    }
  }

  lemma OpcodeOfImmediates(op: byte)
    requires op in {0xc6, 0xe6, 0xfe, 0xeb}
    ensures Implemented(Decode(op)) && Opcode(Decode(op)) == op
  {
    if op == 0xc6 {
    } else if op == 0xe6 {
    } else if op == 0xfe {
    }
  }

  lemma OpcodeOfMachineControl(op: byte)
    requires op in {0xd3, 0xdb, 0xf3, 0xfb}
    ensures Implemented(Decode(op)) && Opcode(Decode(op)) == op
  {
    if op == 0xd3 {
    } else if op == 0xdb {
    } else if op == 0xf3 {
    }
  }

  /** The opcodes outside every family and every single `case` are the unimplemented ones. */
  lemma UnlistedOpcodes(op: byte)
    requires !((0x40 <= op < 0x90 && op != 0x76) || 0xa0 <= op < 0xb0)
    requires op < 0x40 ==> op % 8 != 5 && op % 8 != 6 && op % 16 != 1 && op % 16 != 3 && op % 16 != 9
    requires 0xc0 <= op ==> op % 8 != 7 && op % 16 != 1 && op % 16 != 5
    requires op !in {0x00, 0x02, 0x0f, 0x10, 0x1a, 0x32, 0x3a}
    requires op !in {0xc2, 0xc3, 0xfa, 0xc8, 0xc9, 0xcd, 0xf0}
    requires op !in {0xc6, 0xe6, 0xfe, 0xeb, 0xd3, 0xdb, 0xf3, 0xfb}
    ensures Decode(op) == Unimplemented
  {
  }

  /**
    Every opcode the decoder does not send to `unimplemented` is the opcode
    of the instruction it decodes to.
   */
  lemma OpcodeOfDecode(op: byte)
    requires Decode(op) != Unimplemented
    ensures Implemented(Decode(op)) && Opcode(Decode(op)) == op
  {
    if 0x40 <= op < 0x80 {
      OpcodeOfMov(op);
    } else if 0x80 <= op < 0x90 || 0xa0 <= op < 0xb0 {
      OpcodeOfAccumulatorRows(op);
    } else if op < 0x40 && (op % 8 == 5 || op % 8 == 6) {
      OpcodeOfRegisterField(op);
    } else if op < 0x30 && (op % 16 == 1 || op % 16 == 3 || op % 16 == 9) {
      OpcodeOfLowPairField(op);
    } else if 0xc0 <= op < 0xf0 && (op % 16 == 1 || op % 16 == 5) {
      OpcodeOfHighPairField(op);
    } else if 0xc0 <= op && op % 8 == 7 {
      OpcodeOfRst(op);
    } else if op in {0x31, 0x33, 0x39, 0xf1, 0xf5} {
      OpcodeOfSpAndPsw(op);
    } else if op in {0x00, 0x02, 0x0f, 0x10, 0x1a, 0x32, 0x3a} {
      OpcodeOfLowSingles(op);
    } else if op in {0xc2, 0xc3, 0xfa} {
      OpcodeOfJumps(op);
    } else if op in {0xc8, 0xc9, 0xcd, 0xf0} {
      OpcodeOfCallsAndReturns(op);
    } else if op in {0xc6, 0xe6, 0xfe, 0xeb} {
      OpcodeOfImmediates(op);
    } else if op in {0xd3, 0xdb, 0xf3, 0xfb} {
      OpcodeOfMachineControl(op);
    } else {
      UnlistedOpcodes(op);
      assert false;
    }
  }

  /** Two opcodes that decode to the same implemented instruction are the same opcode. */
  lemma DecodeInjective(op1: byte, op2: byte)
    requires Decode(op1) != Unimplemented && Decode(op1) == Decode(op2)
    ensures op1 == op2
  {
    OpcodeOfDecode(op1);
    OpcodeOfDecode(op2);
  }
}
