/**
  The CPU record of 8080.h (`struct i8080`) as a value, with the register
  pair accessors `rpBC`/`rpDE`/`rpHL` and `srpBC`/`srpDE`/`srpHL` of 8080.c.

  The record gains the 256-entry input port table that 8080.c reads (`IN`)
  but 8080.h does not declare.  The unused `clock_cnt` and `halted` fields
  are not part of the model.
 */
module CpuState {
  import opened Bytes

  /** The input port snapshot consulted by `IN`. */
  type PortTable = t: seq<byte> | |t| == 0x100 witness seq(0x100, _ => 0)

  datatype State = State(
    A: byte, B: byte, C: byte, D: byte, E: byte, H: byte, L: byte,
    flags: bv8,
    sp: word,
    pc: word,
    instr: int,
    inputPorts: PortTable)

  /** The three pairs a register-pair accessor can name. */
  datatype RegPair = BC | DE | HL

  /** `rpBC`, `rpDE`, `rpHL`: the high register shifted left by 8, ORed with the low one. */
  function GetPair(s: State, p: RegPair): word {
    match p
    case BC => Word(s.B, s.C)
    case DE => Word(s.D, s.E)
    case HL => Word(s.H, s.L)
  }

  /**
    `srpBC`, `srpDE`, `srpHL`: the high register receives `(v & 0xFF00) >> 8`,
    the low one `v & 0xFF`.  Reading the pair back gives `v`; the other pairs
    and every other field keep their values.
   */
  function SetPair(s: State, p: RegPair, v: word): (r: State)
    ensures GetPair(r, p) == v
    ensures p != BC ==> r.B == s.B && r.C == s.C
    ensures p != DE ==> r.D == s.D && r.E == s.E
    ensures p != HL ==> r.H == s.H && r.L == s.L
    ensures r.A == s.A && r.flags == s.flags && r.sp == s.sp && r.pc == s.pc
    ensures r.instr == s.instr && r.inputPorts == s.inputPorts
  {
    WordOfHalves(v);
    match p
    case BC => s.(B := Hi(v), C := Lo(v))
    case DE => s.(D := Hi(v), E := Lo(v))
    case HL => s.(H := Hi(v), L := Lo(v))
  }

  /** Writing a pair with the value it already holds changes nothing. */
  lemma SetPairToItself(s: State, p: RegPair)
    ensures SetPair(s, p, GetPair(s, p)) == s
  {
  }
}
