/**
  The opcode dispatch of `execute_instruction` (the `switch (b[0])` of
  8080.c), given as a decoding of each opcode byte into the operation its
  `case` performs.

  The regular families are decoded from the fields of the opcode, as in the
  8080 manual's encoding tables: a register operand is numbered
  B, C, D, E, H, L, M, A (M is the byte at address HL), a destination sits in
  bits 5-3 and a source in bits 2-0, a register pair in bits 5-4.  Every
  family decoded this way is implemented in full by 8080.c; the opcodes the
  code leaves to `unimplemented` decode to `Unimplemented`.
 */
module Decoder {
  import opened Bytes
  import opened CpuState

  datatype Reg = B | C | D | E | H | L | M | A

  datatype Instr =
    | Nop                   // 0x00
    | Lxi(p: RegPair)       // 0x01 0x11 0x21: pair := D16
    | LxiSp                 // 0x31: sp := D16
    | StaxB                 // 0x02: memory[BC] := A
    | Inx(p: RegPair)       // 0x03 0x13 0x23
    | InxSp                 // 0x33
    | Dcr(r: Reg)           // 0x05 0x0d ... 0x3d
    | Mvi(r: Reg)           // 0x06 0x0e ... 0x3e
    | Dad(p: RegPair)       // 0x09 0x19 0x29
    | DadSp                 // 0x39
    | Rrc                   // 0x0f
    | Deb                   // 0x10: debug print, otherwise a no-op
    | LdaxD                 // 0x1a: A := memory[DE]
    | Sta                   // 0x32
    | Lda                   // 0x3a
    | Mov(dst: Reg, src: Reg)  // 0x40 ... 0x7f except 0x76
    | Add(r: Reg)           // 0x80 ... 0x87
    | Adc(r: Reg)           // 0x88 ... 0x8f
    | Ana(r: Reg)           // 0xa0 ... 0xa7
    | Xra(r: Reg)           // 0xa8 ... 0xaf
    | Pop(p: RegPair)       // 0xc1 0xd1 0xe1
    | PopPsw                // 0xf1
    | Push(p: RegPair)      // 0xc5 0xd5 0xe5
    | PushPsw               // 0xf5
    | Jnz                   // 0xc2
    | Jmp                   // 0xc3
    | Adi                   // 0xc6
    | Rst(n: byte)          // 0xc7 0xcf ... 0xff
    | Rz                    // 0xc8
    | Ret                   // 0xc9
    | Call                  // 0xcd
    | Out                   // 0xd3
    | In                    // 0xdb
    | Ani                   // 0xe6
    | Xchg                  // 0xeb
    | Rp                    // 0xf0
    | Di                    // 0xf3
    | Jm                    // 0xfa
    | Ei                    // 0xfb
    | Cpi                   // 0xfe
    | Unimplemented         // every other opcode, HLT (0x76) included

  /** The instruction groups of the 8080 manual's instruction set chapter. */
  datatype Group = DataTransfer | Arithmetic | Logical | Branch | Stack | Control

  function GroupOf(i: Instr): Group {
    match i
    case Mov(_, _) | Mvi(_) | Lxi(_) | LxiSp | Lda | Sta | LdaxD | StaxB | Xchg => DataTransfer
    case Add(_) | Adc(_) | Adi | Inx(_) | InxSp | Dcr(_) | Dad(_) | DadSp => Arithmetic
    case Ana(_) | Xra(_) | Ani | Cpi | Rrc => Logical
    case Jmp | Jnz | Jm | Call | Ret | Rz | Rp | Rst(_) => Branch
    case Push(_) | PushPsw | Pop(_) | PopPsw => Stack
    case In | Out | Ei | Di | Nop | Deb | Unimplemented => Control
  }

  /** The register operand numbered `k` (0..7) in an opcode field. */
  function RegOf(k: int): Reg
    requires 0 <= k < 8
  {
    match k
    case 0 => B
    case 1 => C
    case 2 => D
    case 3 => E
    case 4 => H
    case 5 => L
    case 6 => M
    case _ => A
  }

  /** The register pair numbered `k` (0..2) in an opcode field. */
  function PairOf(k: int): RegPair
    requires 0 <= k < 3
  {
    match k
    case 0 => BC
    case 1 => DE
    case _ => HL
  }

  function Decode(op: byte): Instr {
    var dst := op / 8 % 8;
    var src := op % 8;
    var pair := op / 16 % 4;
    if op == 0x76 then Unimplemented  // HLT
    else if 0x40 <= op < 0x80 then Mov(RegOf(dst), RegOf(src))
    else if 0x80 <= op < 0x88 then Add(RegOf(src))
    else if 0x88 <= op < 0x90 then Adc(RegOf(src))
    else if 0xa0 <= op < 0xa8 then Ana(RegOf(src))
    else if 0xa8 <= op < 0xb0 then Xra(RegOf(src))
    else if op < 0x40 && src == 5 then Dcr(RegOf(dst))
    else if op < 0x40 && src == 6 then Mvi(RegOf(dst))
    else if op < 0x40 && op % 16 == 1 then (if pair == 3 then LxiSp else Lxi(PairOf(pair)))
    else if op < 0x40 && op % 16 == 3 then (if pair == 3 then InxSp else Inx(PairOf(pair)))
    else if op < 0x40 && op % 16 == 9 then (if pair == 3 then DadSp else Dad(PairOf(pair)))
    else if 0xc0 <= op && src == 7 then Rst(dst)
    else if 0xc0 <= op && op % 16 == 1 then (if pair == 3 then PopPsw else Pop(PairOf(pair)))
    else if 0xc0 <= op && op % 16 == 5 then (if pair == 3 then PushPsw else Push(PairOf(pair)))
    else
      match op
      case 0x00 => Nop
      case 0x02 => StaxB
      case 0x0f => Rrc
      case 0x10 => Deb
      case 0x1a => LdaxD
      case 0x32 => Sta
      case 0x3a => Lda
      case 0xc2 => Jnz
      case 0xc3 => Jmp
      case 0xc6 => Adi
      case 0xc8 => Rz
      case 0xc9 => Ret
      case 0xcd => Call
      case 0xd3 => Out
      case 0xdb => In
      case 0xe6 => Ani
      case 0xeb => Xchg
      case 0xf0 => Rp
      case 0xf3 => Di
      case 0xfa => Jm
      case 0xfb => Ei
      case 0xfe => Cpi
      case _ => Unimplemented
  }
}
