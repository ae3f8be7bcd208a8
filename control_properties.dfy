/**
  Control flow of 8080.c: the conditional jumps and returns (JNZ, JM, RZ,
  RP), the register exchange XCHG, the interrupt switches EI and DI, and a
  short program run to its halt.
 */
module ControlProperties {
  import opened Bytes
  import opened Flags
  import opened CpuState
  import opened Decoder
  import opened Semantics
  import opened AluProperties

  /**
    JNZ: with Z clear, `pc` becomes the operand `D16`; with Z set, `pc`
    moves past the three instruction bytes.  Nothing else changes.
   */
  lemma JnzBranchesOnZero(s: State, mem: seq<byte>)
    requires s.pc < |mem| && InBounds(Jnz, s, mem)
    ensures var r := ExecJnz(s, mem);
            && r.cpu == s.(pc := r.cpu.pc) && r.mem == mem && r.outcome == Running
            && (Get(s.flags, Z) == 0 ==> r.cpu.pc == Imm16(s, mem))
            && (Get(s.flags, Z) == 1 ==> r.cpu.pc == (s.pc + 3) % 0x1_0000)
  {
  }

  /**
    JM: with S set, `pc` becomes `D16`; with S clear the code does nothing
    at all -- `pc` is not advanced.
   */
  lemma JmBranchesOnSign(s: State, mem: seq<byte>)
    requires s.pc < |mem| && InBounds(Jm, s, mem)
    ensures var r := ExecJm(s, mem);
            && r.cpu == s.(pc := r.cpu.pc) && r.mem == mem && r.outcome == Running
            && (Get(s.flags, S) == 1 ==> r.cpu.pc == Imm16(s, mem))
            && (Get(s.flags, S) == 0 ==> r.cpu.pc == s.pc)
  {
  }

  /**
    RZ: with Z set it is RET -- `pc` is popped and `sp` rises by 2; with Z
    clear the code does nothing at all, `pc` included.
   */
  lemma RzReturnsOnZero(s: State, mem: seq<byte>)
    requires s.pc < |mem| && InBounds(Rz, s, mem)
    ensures var r := ExecRz(s, mem);
            && r.mem == mem && r.outcome == Running
            && (Get(s.flags, Z) == 1 ==> CanPop(s, mem) && r.cpu == s.(pc := PopWord(s, mem), sp := (s.sp + 2) % 0x1_0000))
            && (Get(s.flags, Z) == 0 ==> r.cpu == s)
  {
  }

  /** RZ with Z set does exactly what RET does (the `case` falls through). */
  lemma RzTakenIsRet(s: State, mem: seq<byte>)
    requires s.pc < |mem| && Get(s.flags, Z) == 1 && CanPop(s, mem)
    ensures ExecRz(s, mem) == ExecRet(s, mem)
  {
  }

  /**
    RP: with P set `pc` is popped and `sp` rises by 2; with P clear `pc`
    moves to the next opcode.  Nothing else changes.
   */
  lemma RpReturnsOnParity(s: State, mem: seq<byte>)
    requires s.pc < |mem| && InBounds(Rp, s, mem)
    ensures var r := ExecRp(s, mem);
            && r.mem == mem && r.outcome == Running
            && (Get(s.flags, P) == 1 ==> CanPop(s, mem) && r.cpu == s.(pc := PopWord(s, mem), sp := (s.sp + 2) % 0x1_0000))
            && (Get(s.flags, P) == 0 ==> r.cpu == s.(pc := (s.pc + 1) % 0x1_0000))
  {
  }

  /**
    A JM with S clear or an RZ with Z clear leaves `pc` on itself, so the
    next call of `execute_instruction` finds the same opcode under the same
    flags: the program stalls on it, only the instruction counter moving.
   */
  lemma UntakenJmOrRzStalls(s: State, mem: seq<byte>)
    requires CanStep(s, mem)
    requires (Decode(mem[s.pc]) == Jm && Get(s.flags, S) == 0) || (Decode(mem[s.pc]) == Rz && Get(s.flags, Z) == 0)
    ensures Step(s, mem) == Next(s.(instr := s.instr + 1), mem)
    ensures CanStep(Step(s, mem).cpu, Step(s, mem).mem)
    ensures Step(Step(s, mem).cpu, Step(s, mem).mem) == Next(s.(instr := s.instr + 2), mem)
  {
    var i := Decode(mem[s.pc]);
    if i == Jm {
      assert Step(s, mem) == Next(s.(instr := s.instr + 1), mem);
    } else {
      assert Step(s, mem) == Next(s.(instr := s.instr + 1), mem);
    }
  }

  /** XCHG swaps DE and HL and moves `pc` to the next opcode; nothing else changes. */
  lemma XchgSwapsPairs(s: State, mem: seq<byte>)
    requires s.pc < |mem|
    ensures var r := ExecXchg(s, mem);
            && GetPair(r.cpu, DE) == GetPair(s, HL) && GetPair(r.cpu, HL) == GetPair(s, DE)
            && r.cpu == s.(D := r.cpu.D, E := r.cpu.E, H := r.cpu.H, L := r.cpu.L, pc := (s.pc + 1) % 0x1_0000)
            && r.mem == mem && r.outcome == Running
  {
  }

  /** Two XCHGs in a row give DE and HL back. */
  lemma XchgTwiceRestores(s: State, mem: seq<byte>)
    requires s.pc < |mem| && (s.pc + 1) % 0x1_0000 < |mem|
    ensures var once := ExecXchg(s, mem).cpu;
            ExecXchg(once, mem).cpu == s.(pc := (s.pc + 2) % 0x1_0000)
  {
  }

  /** MVI A,5; ADI 3; HLT */
  const AddProgram: seq<byte> := [0x3e, 0x05, 0xc6, 0x03, 0x76]

  lemma AddProgramFirstStep(s: State, mem: seq<byte>)
    requires mem == AddProgram && s.pc == 0
    ensures CanStep(s, mem) && Step(s, mem) == Next(s.(A := 5, pc := 2, instr := s.instr + 1), mem)
  {
    assert Decode(mem[0]) == Mvi(A);
  }

  lemma AddProgramSecondStep(s: State, mem: seq<byte>)
    requires mem == AddProgram && s.pc == 2 && s.A == 5
    ensures CanStep(s, mem)
    ensures var r := Step(s, mem);
            && r.cpu.A == 8 && r.cpu.pc == 4 && r.cpu.instr == s.instr + 1 && r.mem == mem
            && Get(r.cpu.flags, Z) == 0 && Get(r.cpu.flags, CY) == 0
  {
    assert Decode(mem[2]) == Adi;
    AdiInstruction(s, mem);
    AddComputesSum(s, 3);
  }

  lemma AddProgramThirdStep(s: State, mem: seq<byte>)
    requires mem == AddProgram && s.pc == 4
    ensures CanStep(s, mem)
    ensures var r := Step(s, mem);
            r.outcome == Halted(4, 0x76) && r.cpu.A == s.A && r.cpu.instr == s.instr
  {
    assert Decode(mem[4]) == Unimplemented;
    StepFrame(s, mem);
  }

  /**
    The program MVI A,5; ADI 3; HLT (`3e 05 c6 03 76`) started at address 0:
    two steps leave A = 8 with Z and CY clear and count two instructions,
    and the third reaches HLT, which the code leaves unimplemented, so it
    halts at address 4 without counting it.
   */
  lemma AddProgramHalts(s: State, mem: seq<byte>)
    requires mem == AddProgram && s.pc == 0
    ensures CanStep(s, mem)
    ensures var r1 := Step(s, mem);
            && r1.cpu.A == 5 && r1.mem == mem
            && CanStep(r1.cpu, mem)
            && var r2 := Step(r1.cpu, mem);
               && r2.cpu.A == 8 && r2.mem == mem
               && Get(r2.cpu.flags, Z) == 0 && Get(r2.cpu.flags, CY) == 0
               && CanStep(r2.cpu, mem)
               && var r3 := Step(r2.cpu, mem);
                  && r3.outcome == Halted(4, 0x76)
                  && r3.cpu.A == 8 && r3.cpu.instr == s.instr + 2
  {
    AddProgramFirstStep(s, mem);
    var s1 := Step(s, mem).cpu;
    AddProgramSecondStep(s1, mem);
    var s2 := Step(s1, mem).cpu;
    AddProgramThirdStep(s2, mem);
  }

  /** DI clears the interrupt-enable flag; only that flag and `pc` change. */
  lemma DiClearsInterruptEnable(s: State, mem: seq<byte>)
    requires s.pc < |mem| && InBounds(Di, s, mem)
    ensures var r := ExecDi(s, mem);
            && Get(r.cpu.flags, EI) == 0
            && (forall g :: g != EI ==> Get(r.cpu.flags, g) == Get(s.flags, g))
            && r.cpu == s.(flags := r.cpu.flags, pc := (s.pc + 1) % 0x1_0000)
            && r.mem == mem && r.outcome == Running
  {
    SetOnlyChangesItsBit(s.flags, EI, 0);
  }

  /** EI sets the interrupt-enable flag; only that flag and `pc` change. */
  lemma EiSetsInterruptEnable(s: State, mem: seq<byte>)
    requires s.pc < |mem| && InBounds(Ei, s, mem)
    ensures var r := ExecEi(s, mem);
            && Get(r.cpu.flags, EI) == 1
            && (forall g :: g != EI ==> Get(r.cpu.flags, g) == Get(s.flags, g))
            && r.cpu == s.(flags := r.cpu.flags, pc := (s.pc + 1) % 0x1_0000)
            && r.mem == mem && r.outcome == Running
  {
    SetOnlyChangesItsBit(s.flags, EI, 1);
  }
}
