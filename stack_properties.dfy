/**
  Stack discipline of 8080.c: PUSH/POP of a register pair and of PSW,
  CALL/RET, the RST opcodes and `request_interrupt`.
 */
module StackProperties {
  import opened Bytes
  import opened Flags
  import opened CpuState
  import opened Decoder
  import opened Semantics

  /**
    PUSH rp followed by POP of the same pair: the pair is restored, `sp` is
    back where it was, every other register and flag is unchanged, and the
    pushed bytes stay in memory (high byte at `sp - 1`, low byte at `sp - 2`).
   */
  lemma PushThenPopRestoresPair(s: State, mem: seq<byte>, p: RegPair)
    requires s.pc + 1 < |mem| && CanPush(s, mem)
    ensures var pushed := ExecPush(p, s, mem);
            pushed.cpu.pc < |pushed.mem| && InBounds(Pop(p), pushed.cpu, pushed.mem)
    ensures var pushed := ExecPush(p, s, mem);
            var popped := ExecPop(p, pushed.cpu, pushed.mem);
            && pushed.mem[s.sp - 1] == Hi(GetPair(s, p)) && pushed.mem[s.sp - 2] == Lo(GetPair(s, p))
            && GetPair(popped.cpu, p) == GetPair(s, p)
            && popped.cpu == s.(pc := popped.cpu.pc)
            && popped.cpu.pc == Trunc16(Trunc16(s.pc + 1) + 1)
            && popped.mem == pushed.mem
  {
  }

  /** Bits 0, 2, 4, 6 and 7 of the PUSH PSW byte are CY, P, AC, Z and S. */
  lemma PswBits(flags: bv8)
    ensures BitOf(Psw(flags), 0) == Get(flags, CY)
    ensures BitOf(Psw(flags), 2) == Get(flags, P)
    ensures BitOf(Psw(flags), 4) == Get(flags, AC)
    ensures BitOf(Psw(flags), 6) == Get(flags, Z)
    ensures BitOf(Psw(flags), 7) == Get(flags, S)
  {
    var cy: int, p: int, ac: int, z: int, sg: int := Get(flags, CY), Get(flags, P), Get(flags, AC), Get(flags, Z), Get(flags, S);
    var m := Psw(flags);
    assert m == cy + 4 * p + 16 * ac + 64 * z + 128 * sg;
    assert m / 4 == p + 4 * ac + 16 * z + 32 * sg;
    assert m / 16 == ac + 4 * z + 8 * sg;
    assert m / 64 == z + 2 * sg;
    assert m / 128 == sg;
  }

  /** POP PSW of the byte PUSH PSW stored gives back the same flag register. */
  lemma FlagsFromPswOfPsw(flags: bv8)
    ensures FlagsFromPsw(flags, Psw(flags)) == flags
  {
    PswBits(flags);
    SetToItself(flags, CY);
    SetToItself(flags, P);
    SetToItself(flags, AC);
    SetToItself(flags, Z);
    SetToItself(flags, S);
  }

  /**
    PUSH PSW followed by POP PSW: A and the whole flag register -- Z, S, P,
    CY and AC, and EI and HLT, which POP PSW leaves alone -- are restored and
    `sp` is back where it was.
   */
  lemma PushPswThenPopPswRestores(s: State, mem: seq<byte>)
    requires s.pc + 1 < |mem| && CanPush(s, mem)
    ensures var pushed := ExecPushPsw(s, mem);
            pushed.cpu.pc < |pushed.mem| && InBounds(PopPsw, pushed.cpu, pushed.mem)
    ensures var pushed := ExecPushPsw(s, mem);
            var popped := ExecPopPsw(pushed.cpu, pushed.mem);
            && popped.cpu == s.(pc := popped.cpu.pc)
            && popped.cpu.pc == Trunc16(Trunc16(s.pc + 1) + 1)
            && popped.mem == pushed.mem
  {
    FlagsFromPswOfPsw(s.flags);
  }

  /**
    CALL at address `a` with operand `t`: the return address `a + 3` is
    stored high byte at `sp - 1`, low byte at `sp - 2`, `sp` drops by 2 and
    `pc` becomes `t`.  A RET at `t` then resumes at `a + 3` with the
    original `sp`.  (The operand is read after the push, so this needs the
    two stack slots to lie outside the operand bytes.)
   */
  lemma CallThenRet(s: State, mem: seq<byte>)
    requires s.pc < |mem| && InBounds(Call, s, mem)
    requires s.sp - 2 > s.pc + 2 || s.sp - 1 < s.pc + 1
    requires Imm16(s, mem) < |mem|
    ensures var called := ExecCall(s, mem);
            && called.cpu == s.(pc := Imm16(s, mem), sp := s.sp - 2)
            && called.mem[s.sp - 1] == Hi((s.pc + 3) % 0x1_0000)
            && called.mem[s.sp - 2] == Lo((s.pc + 3) % 0x1_0000)
            && called.cpu.pc < |called.mem| && InBounds(Ret, called.cpu, called.mem)
            && ExecRet(called.cpu, called.mem).cpu == s.(pc := (s.pc + 3) % 0x1_0000)
  {
    var called := ExecCall(s, mem);
    assert called.mem[s.pc + 1] == mem[s.pc + 1] && called.mem[s.pc + 2] == mem[s.pc + 2];
    WordOfHalves(Trunc16(s.pc + 3));
  }

  /**
    RST n (0xc7 + 8n) pushes the address of the RST opcode itself -- `pc`
    is not advanced first -- and jumps to `8n`; no register other than `sp`
    and `pc` and no flag changes, and only the two stack bytes are written.
   */
  lemma RstPushesOwnAddress(s: State, mem: seq<byte>, n: byte)
    requires s.pc < |mem| && InBounds(Rst(n), s, mem)
    ensures var r := ExecRst(n, s, mem);
            && r.cpu == s.(pc := 8 * n, sp := s.sp - 2)
            && r.mem[s.sp - 1] == Hi(s.pc) && r.mem[s.sp - 2] == Lo(s.pc)
            && (forall i :: 0 <= i < |mem| && i != s.sp - 1 && i != s.sp - 2 ==> r.mem[i] == mem[i])
            && r.outcome == Running
  {
  }

  /** `request_interrupt` does nothing while EI is clear. */
  lemma InterruptIgnoredWhileDisabled(s: State, mem: seq<byte>, n: byte)
    requires Get(s.flags, EI) == 0
    ensures Interrupt(s, mem, n) == Next(s, mem)
  {
  }

  /**
    With EI set, `request_interrupt(n)` clears EI and leaves every other
    flag alone, stores the current `pc` at `sp - 1` (high byte) and
    `sp - 2` (low byte), lowers `sp` by 2 and sets `pc` to `8n`; no other
    register and no other memory byte changes.
   */
  lemma InterruptEnabledPushesPc(s: State, mem: seq<byte>, n: byte)
    requires Get(s.flags, EI) == 1 && CanPush(s, mem)
    ensures var r := Interrupt(s, mem, n);
            && r.cpu == s.(flags := r.cpu.flags, pc := 8 * n, sp := s.sp - 2)
            && Get(r.cpu.flags, EI) == 0
            && (forall g :: g != EI ==> Get(r.cpu.flags, g) == Get(s.flags, g))
            && r.mem[s.sp - 1] == Hi(s.pc) && r.mem[s.sp - 2] == Lo(s.pc)
            && (forall i :: 0 <= i < |mem| && i != s.sp - 1 && i != s.sp - 2 ==> r.mem[i] == mem[i])
  {
    SetOnlyChangesItsBit(s.flags, EI, 0);
  }
}
