# Intel 8080 interpreter core, modelled in Dafny

This project models the single-instruction interpreter of `8080.c`. It also
models the interrupt entry `request_interrupt` and the CPU record of `8080.h`:
- registers A, B, C, D, E, H, L;
- a `flags` byte;
- the 16-bit `sp` and `pc`;
- the `instr` counter.

Memory is the host's flat byte buffer. The model follows the code as written,
including the places where it departs from Intel's 8080 manual. Module
`Quirks` states most of those departures as lemmas. Two are stated elsewhere:
- an untaken JM or RZ leaves `pc` in place, in
  `ControlProperties.UntakenJmOrRzStalls`;
- ANI leaves Z, S and P alone, in `AluProperties.AniChangesOnlyAAndCarry`.

The model has three layers.

- **Values.**
  - `Bytes` holds 8- and 16-bit truncation, words from halves, and bits.
  - `Flags` holds `getFlag`/`setFlag`, `parity` and the Z/S/P update.
  - `CpuState` holds the record as a datatype, with `rpXX`/`srpXX`.
  - `Decoder` maps each opcode byte to an instruction.
  - `Semantics` says what one `case` of the switch does (`Exec`), what one
    call of `execute_instruction` does (`Step`) and what `request_interrupt`
    does (`Interrupt`). All three are functions of the record and the buffer
    before the call.
- **The record updated in place.** Class `Cpu.I8080` has one field per
  member of `struct i8080` that the core uses (`clock_cnt` and `halted` are
  left out), plus the `inputPorts` table that IN reads. It executes every case on an `array<byte>`:
  - one method per opcode case;
  - one per macro (`ADD`, `ADC`, `ANA`, `XRA`, `DAD`, `RST`);
  - `ExecuteInstruction` and `RequestInterrupt`.

  Every method's postcondition says that the new record (`Snapshot()`), the
  new buffer contents and the outcome equal what the Semantics functions give
  for the old ones. So every property proved about those functions holds for
  the in-place code.
- **Properties.**
  - `DecodeProperties`: the decoder is a bijection between the implemented
    opcodes and their instructions.
  - `AluProperties`: the results and flags of ADD/ADI, DCR, INX, DAD, CPI,
    ANA, XRA and ANI.
  - `StackProperties`: PUSH/POP, PUSH PSW/POP PSW, CALL/RET, RST and
    interrupts.
  - `ControlProperties`: the conditional jumps and returns, XCHG, and a
    five-byte program run to its halt.
  - `Quirks`: the departures from the manual.

Two host-facing effects become values:
- The C program calls `exit(1)` on an unimplemented opcode. The model returns
  `Halted(pc, opcode)` instead.
- OUT calls the host's `out(port, A)` callback. The model returns
  `Output(port, A)` instead.

Two gaps in the header are filled by choice:
- `EI` and `HLT` are used as flag bits but are missing from the enum. They get
  bits 5 and 6.
- IN reads `input_ports`, which is not in the struct. It becomes a record
  field of 256 bytes that no instruction writes.

## Model

| member | source | states |
|---|---|---|
| Bytes.Trunc8 | 8080.c:84 | assigning an `int` to a `uint8_t` keeps the value when it fits and is congruent to it modulo 256 |
| Bytes.Trunc16 | 8080.c:47 | assigning an `int` to a `uint16_t` keeps the value when it fits and is congruent to it modulo 65536 |
| Bytes.FromBool | 8080.c:74 | a C comparison yields 1 exactly when it holds |
| Bytes.Word | 8080.c:66 | `hi << 8 \| lo` has `hi` as its high byte and `lo` as its low byte |
| Bytes.WordOfHalves | 8080.c:14-16 | splitting a word into its `& 0xFF00 >> 8` and `& 0xFF` halves and joining them gives the word back |
| Flags.SetOnlyChangesItsBit | 8080.c:18-24 | after `setFlag(f, v)`, `getFlag(f)` is v and every other bit of `flags` is unchanged |
| Flags.SetToItself | 8080.c:18-24 | `setFlag(f, getFlag(f))` leaves `flags` as it was |
| Flags.ParityCountsOnes | 8080.c:32-41 | `parity(x)` is 1 exactly when x has an odd number of set bits |
| Flags.LowBitsParityCountsOnes | 8080.c:33-40 | for x below 2^k, the xor of the low k bits of x is the number of set bits of x, mod 2 |
| Flags.SetZSPFlags | 8080.c:74-76 | `fZ`, `fS`, `fP` set Z iff x is 0, S iff bit 7 of x is set, P iff x has an even number of set bits, and leave CY, AC, EI and HLT alone |
| Flags.ParityFlagExamples | 8080.c:76 | `fP` sets P for 0x00 and 0xFF and clears it for 0x01 |
| CpuState.SetPair | 8080.c:14-16 | `srpXX(v)` makes `rpXX` equal v and changes no register outside the pair |
| CpuState.SetPairToItself | 8080.c:10-16 | `srpXX(rpXX)` leaves the record unchanged |
| DecodeProperties.RegIndex | 8080.c:171-241 | the register named by a 3-bit field of an opcode is the register given back for that field |
| DecodeProperties.PairIndex | 8080.c:99-161 | the pair named by a 2-bit field of an opcode is the pair given back for that field |
| DecodeProperties.DecodeOpcode | 8080.c:97-443 | each implemented case, decoded from its own opcode byte, is the same instruction again |
| DecodeProperties.OpcodeOfDecode | 8080.c:97-443 | every byte that is not an unimplemented case decodes to an implemented instruction whose opcode is that byte |
| DecodeProperties.UnlistedOpcodes | 8080.c:102-435 | every opcode byte that has no implemented case (0x04, 0x07, HLT 0x76, ...) decodes to the unimplemented instruction |
| DecodeProperties.DecodeInjective | 8080.c:97-443 | two different opcode bytes never select the same implemented case |
| Semantics.Write | 8080.c:157 | writing a register operand makes it read back as the written value. Writing a register changes no other register and no memory byte. Writing M changes only the byte at HL. `pc`, `sp`, `flags`, `instr` and the ports are kept |
| Semantics.PushWord | 8080.c:344-346 | the high byte goes to `sp - 1` and the low byte to `sp - 2`, `sp` drops by 2, and no other byte or register changes |
| Semantics.Restart | 8080.c:44-49 | the RST macro stores `pc` high byte at `sp - 1` and low byte at `sp - 2`, lowers `sp` by 2, sets `pc` to 8n, and changes no other register or byte |
| Semantics.Interrupt | 8080.c:51-61 | `request_interrupt` returns the state unchanged while EI is clear; otherwise it clears EI, lowers `sp` by 2 and sets `pc` to 8n; `instr` and the buffer length are kept |
| Semantics.ExecFrame | 8080.c:97-443 | no case changes the buffer length, `instr` or the ports, and a case halts exactly when it is unimplemented |
| Semantics.StepFrame | 8080.c:444 | every implemented opcode raises `instr` by exactly 1; an unimplemented one sets HLT, reports its `pc` and opcode, and changes nothing else |
| Cpu.I8080.constructor | 8080.h:3-10 | a new record has every register, flag, `sp`, `pc` and `instr` at 0 |
| Cpu.I8080.SetPair | 8080.c:14-16 | the in-place `srpXX` leaves the record that `CpuState.SetPair` gives |
| Cpu.I8080.Read | 8080.c:234-240 | a register operand, or `memory[gHL]` for M, is the value `Semantics.Read` gives |
| Cpu.I8080.Write | 8080.c:226-232 | assigning a register operand, or `memory[gHL]` for M, gives the record and buffer of `Semantics.Write` |
| Cpu.I8080.PushWord | 8080.c:344-346 | the in-place push gives the record and buffer of `Semantics.PushWord` |
| Cpu.I8080.Restart | 8080.c:44-49 | the in-place RST macro gives the record and buffer of `Semantics.Restart` |
| Cpu.I8080.RequestInterrupt | 8080.c:51-61 | `request_interrupt` gives the record and buffer of `Semantics.Interrupt`: nothing while EI is clear, otherwise EI cleared and RST n |
| Cpu.I8080.AddToA | 8080.c:82-86 | the `ADD` macro leaves the record that `Semantics.AddA` gives |
| Cpu.I8080.AddWithCarry | 8080.c:87-91 | the `ADC` macro leaves the record that `Semantics.AdcA` gives |
| Cpu.I8080.AndWithA | 8080.c:81 | the `ANA` macro leaves the record that `Semantics.AnaA` gives |
| Cpu.I8080.XorWithA | 8080.c:80 | the `XRA` macro leaves the record that `Semantics.XraA` gives |
| Cpu.I8080.DoubleAdd | 8080.c:78 | the `DAD` macro leaves the record that `Semantics.DadHL` gives |
| Cpu.I8080.ExecNop | 8080.c:98 | NOP gives the record and buffer of `Semantics.ExecNop` |
| Cpu.I8080.ExecLxi | 8080.c:99 | LXI B/D/H gives the record and buffer of `Semantics.ExecLxi` |
| Cpu.I8080.ExecLxiSp | 8080.c:153 | LXI SP gives the record and buffer of `Semantics.ExecLxiSp` |
| Cpu.I8080.ExecStaxB | 8080.c:100 | STAX B gives the record and buffer of `Semantics.ExecStaxB` |
| Cpu.I8080.ExecInx | 8080.c:101 | INX B/D/H gives the record and buffer of `Semantics.ExecInx` |
| Cpu.I8080.ExecInxSp | 8080.c:155 | INX SP gives the record and buffer of `Semantics.ExecInxSp` |
| Cpu.I8080.ExecDcr | 8080.c:103 | DCR r (and DCR M at line 157) gives the record and buffer of `Semantics.ExecDcr` |
| Cpu.I8080.ExecMvi | 8080.c:104 | MVI r (and MVI M at line 158) gives the record and buffer of `Semantics.ExecMvi` |
| Cpu.I8080.ExecDad | 8080.c:107 | DAD B/D/H gives the record and buffer of `Semantics.ExecDad` |
| Cpu.I8080.ExecDadSp | 8080.c:161 | DAD SP gives the record and buffer of `Semantics.ExecDadSp` |
| Cpu.I8080.ExecRrc | 8080.c:113-119 | opcode 0x0f gives the record and buffer of `Semantics.ExecRrc` |
| Cpu.I8080.ExecDeb | 8080.c:120 | DEB gives the record and buffer of `Semantics.ExecDeb` |
| Cpu.I8080.ExecLdaxD | 8080.c:130 | LDAX D gives the record and buffer of `Semantics.ExecLdaxD` |
| Cpu.I8080.ExecSta | 8080.c:154 | STA gives the record and buffer of `Semantics.ExecSta` |
| Cpu.I8080.ExecLda | 8080.c:162 | LDA gives the record and buffer of `Semantics.ExecLda` |
| Cpu.I8080.ExecMov | 8080.c:171-241 | MOV d,r gives the record and buffer of `Semantics.ExecMov` |
| Cpu.I8080.ExecAdd | 8080.c:243-250 | ADD r gives the record and buffer of `Semantics.ExecAdd` |
| Cpu.I8080.ExecAdc | 8080.c:252-259 | ADC r gives the record and buffer of `Semantics.ExecAdc` |
| Cpu.I8080.ExecAna | 8080.c:278-285 | ANA r gives the record and buffer of `Semantics.ExecAna` |
| Cpu.I8080.ExecXra | 8080.c:287-294 | XRA r gives the record and buffer of `Semantics.ExecXra` |
| Cpu.I8080.ExecPop | 8080.c:313 | POP B/D/H gives the record and buffer of `Semantics.ExecPop` |
| Cpu.I8080.ExecPopPsw | 8080.c:402-411 | POP PSW gives the record and buffer of `Semantics.ExecPopPsw` |
| Cpu.I8080.ExecPush | 8080.c:320-325 | PUSH B/D/H gives the record and buffer of `Semantics.ExecPush` |
| Cpu.I8080.ExecPushPsw | 8080.c:415-427 | PUSH PSW gives the record and buffer of `Semantics.ExecPushPsw` |
| Cpu.I8080.ExecJnz | 8080.c:314-317 | JNZ gives the record and buffer of `Semantics.ExecJnz` |
| Cpu.I8080.ExecJmp | 8080.c:318 | JMP gives the record and buffer of `Semantics.ExecJmp` |
| Cpu.I8080.ExecAdi | 8080.c:326-331 | ADI gives the record and buffer of `Semantics.ExecAdi` |
| Cpu.I8080.ExecRst | 8080.c:332 | RST n gives the record and buffer of `Semantics.ExecRst` |
| Cpu.I8080.ExecRz | 8080.c:333 | RZ gives the record and buffer of `Semantics.ExecRz` |
| Cpu.I8080.ExecRet | 8080.c:334-337 | RET gives the record and buffer of `Semantics.ExecRet` |
| Cpu.I8080.ExecCall | 8080.c:341-348 | CALL gives the record and buffer of `Semantics.ExecCall` |
| Cpu.I8080.ExecOut | 8080.c:354 | OUT gives the record, buffer and `Output` event of `Semantics.ExecOut` |
| Cpu.I8080.ExecIn | 8080.c:367 | IN gives the record and buffer of `Semantics.ExecIn` |
| Cpu.I8080.ExecAni | 8080.c:383 | ANI gives the record and buffer of `Semantics.ExecAni` |
| Cpu.I8080.ExecXchg | 8080.c:388 | XCHG gives the record and buffer of `Semantics.ExecXchg` |
| Cpu.I8080.ExecRp | 8080.c:393-401 | RP gives the record and buffer of `Semantics.ExecRp` |
| Cpu.I8080.ExecDi | 8080.c:413 | DI gives the record and buffer of `Semantics.ExecDi` |
| Cpu.I8080.ExecJm | 8080.c:432 | JM gives the record and buffer of `Semantics.ExecJm` |
| Cpu.I8080.ExecEi | 8080.c:433 | EI gives the record and buffer of `Semantics.ExecEi` |
| Cpu.I8080.ExecCpi | 8080.c:436-441 | CPI gives the record and buffer of `Semantics.ExecCpi` |
| Cpu.I8080.ExecUnimplemented | 8080.c:26-30 | `unimplemented` sets HLT and gives the `Halted` outcome of `Semantics.ExecUnimplemented` |
| Cpu.I8080.ExecDataTransfer | 8080.c:99-241 | the MOV, MVI, LXI, LDA, STA, LDAX, STAX and XCHG cases agree with `Semantics.ExecDataTransfer` |
| Cpu.I8080.ExecArithmetic | 8080.c:101-331 | the ADD, ADC, ADI, INX, DCR and DAD cases agree with `Semantics.ExecArithmetic` |
| Cpu.I8080.ExecLogical | 8080.c:278-441 | the ANA, XRA, ANI, CPI and RRC cases agree with `Semantics.ExecLogical` |
| Cpu.I8080.ExecBranch | 8080.c:314-442 | the JMP, JNZ, JM, CALL, RET, RZ, RP and RST cases agree with `Semantics.ExecBranch` |
| Cpu.I8080.ExecStack | 8080.c:313-427 | the PUSH and POP cases agree with `Semantics.ExecStack` |
| Cpu.I8080.ExecControl | 8080.c:98-433 | the IN, OUT, EI, DI, NOP, DEB and unimplemented cases agree with `Semantics.ExecControl` |
| Cpu.I8080.Execute | 8080.c:97-443 | the switch on the opcode agrees with `Semantics.Exec` |
| Cpu.I8080.ExecuteInstruction | 8080.c:63-448 | `execute_instruction` leaves the record, the buffer and the outcome that `Semantics.Step` gives |
| AluProperties.CarryThenZSP | 8080.c:87-91 | setting CY and then `fZ`/`fS`/`fP` of a byte gives that CY, Z/S/P of that byte, and keeps AC, EI and HLT |
| AluProperties.AddComputesSum | 8080.c:82-86 | ADD: CY iff A + x > 255, A becomes (A + x) mod 256, Z/S/P describe the new A, AC/EI/HLT and the other registers are kept |
| AluProperties.AddInstruction | 8080.c:243-250 | opcodes 0x80-0x87 add their register operand, advance `pc` by 1 and count the instruction |
| AluProperties.AdiInstruction | 8080.c:326-331 | ADI adds `b[1]`, advances `pc` by 2 and counts the instruction |
| AluProperties.DcrComputes | 8080.c:103 | DCR r and DCR M: the operand becomes (r - 1) mod 256, Z/S/P describe it, CY, AC, EI and HLT are kept, and `pc` advances by 1 |
| AluProperties.DcrFrame | 8080.c:157 | DCR changes no register but its operand, leaves memory alone for a register, and for DCR M writes only the byte at HL |
| AluProperties.IncrementPair | 8080.c:101 | `srpXX(rpXX + 1)` steps the pair up by one mod 65536 and changes no other pair, A, flag, `sp` or `pc` |
| AluProperties.InxComputes | 8080.c:139 | INX B/D/H: the pair becomes (pair + 1) mod 65536, and no flag, other pair, A, `sp` or memory byte changes |
| AluProperties.InxSpComputes | 8080.c:155 | INX SP: `sp` becomes (sp + 1) mod 65536 and only `pc` changes besides |
| AluProperties.DadComputesSum | 8080.c:78 | DAD: CY iff HL + x > 0xFFFF, HL becomes (HL + x) mod 65536, and no other flag or register changes |
| AluProperties.CpiCompares | 8080.c:436-441 | CPI keeps A, sets CY iff A < x and Z iff A = x, and sets S/P from (A - x) mod 256 |
| AluProperties.ZSPThenClear | 8080.c:80-81 | `fZ`/`fS`/`fP` followed by clearing CY describe the byte, clear CY, and keep AC, EI and HLT |
| AluProperties.AnaKeepsAuxCarry | 8080.c:81 | ANA: A becomes A & x with Z/S/P from it, CY is cleared and AC is kept |
| AluProperties.XraClearsCarries | 8080.c:80 | XRA: A becomes A ^ x with Z/S/P from it, and CY and AC are both cleared |
| AluProperties.XraAClearsA | 8080.c:294 | XRA A zeroes A and sets Z |
| AluProperties.AniChangesOnlyAAndCarry | 8080.c:383 | ANI changes only A (to A & b[1]), CY (cleared) and `pc`; Z, S, P and AC keep their values |
| StackProperties.PushThenPopRestoresPair | 8080.c:320-325 | PUSH rp then POP rp stores the pair's halves at sp-1/sp-2, restores the pair and `sp`, changes no other register, and leaves `pc` two bytes on |
| StackProperties.PswBits | 8080.c:415-427 | the PUSH PSW byte holds CY, P, AC, Z and S at bits 0, 2, 4, 6 and 7 |
| StackProperties.FlagsFromPswOfPsw | 8080.c:402-411 | POP PSW applied to the byte PUSH PSW built gives the same flag register back |
| StackProperties.PushPswThenPopPswRestores | 8080.c:402-427 | PUSH PSW then POP PSW restores A, Z, S, P, CY, AC, EI, HLT and `sp` |
| StackProperties.CallThenRet | 8080.c:334-348 | CALL at a with operand t stores a+3 (high byte at sp-1), lowers `sp` by 2 and jumps to t, and a RET then resumes at a+3 with the old `sp` |
| StackProperties.RstPushesOwnAddress | 8080.c:44-49 | RST n stores the RST's own `pc`, lowers `sp` by 2, jumps to 8n, and writes only the two stack bytes |
| StackProperties.InterruptIgnoredWhileDisabled | 8080.c:54 | `request_interrupt` changes nothing while EI is clear |
| StackProperties.InterruptEnabledPushesPc | 8080.c:51-61 | with EI set, `request_interrupt(n)` clears EI only, pushes `pc`, lowers `sp` by 2 and jumps to 8n |
| ControlProperties.JnzBranchesOnZero | 8080.c:314-317 | JNZ jumps to `D16` when Z is clear and skips its 3 bytes when Z is set; nothing else changes |
| ControlProperties.JmBranchesOnSign | 8080.c:432 | JM jumps to `D16` when S is set and leaves `pc` unchanged when S is clear |
| ControlProperties.RzReturnsOnZero | 8080.c:333-337 | RZ pops `pc` and raises `sp` by 2 when Z is set, and changes nothing (`pc` included) when Z is clear |
| ControlProperties.RzTakenIsRet | 8080.c:333-334 | a taken RZ falls through to RET and does exactly what RET does |
| ControlProperties.RpReturnsOnParity | 8080.c:393-401 | RP pops `pc` when P is set and advances `pc` by 1 when P is clear |
| ControlProperties.UntakenJmOrRzStalls | 8080.c:432 | an untaken JM or RZ leaves `pc` on itself, so the next steps run it again and only `instr` moves |
| ControlProperties.XchgSwapsPairs | 8080.c:388 | XCHG exchanges DE and HL and changes nothing else but `pc` |
| ControlProperties.XchgTwiceRestores | 8080.c:388 | two XCHGs in a row restore DE and HL |
| ControlProperties.DiClearsInterruptEnable | 8080.c:413 | DI clears the EI flag, keeps every other flag and register and the buffer, and advances `pc` by 1 |
| ControlProperties.EiSetsInterruptEnable | 8080.c:433 | EI sets the EI flag, keeps every other flag and register and the buffer, and advances `pc` by 1 |
| ControlProperties.AddProgramFirstStep | 8080.c:166 | MVI A,5 at address 0 loads 5 into A and moves to address 2 |
| ControlProperties.AddProgramSecondStep | 8080.c:326-331 | ADI 3 with A = 5 leaves A = 8 with Z and CY clear at address 4 |
| ControlProperties.AddProgramThirdStep | 8080.c:231 | HLT (0x76) is unimplemented: the run halts at address 4 without counting it |
| ControlProperties.AddProgramHalts | 8080.c:63-448 | the program `3e 05 c6 03 76` gives A = 8, counts two instructions and halts at HLT |
| Quirks.AdcDoesNotStoreSum | 8080.c:87-91 | ADC sets CY from A + x + CY > 255 but never writes A, and Z/S/P describe the old A |
| Quirks.RrcDropsLowBit | 8080.c:113-119 | opcode 0x0f halves A, puts the old bit 0 in CY and leaves bit 7 clear. The result differs from the manual's rotation `A / 2 + 0x80 * (A % 2)` exactly when A is odd |
| Quirks.PswReservedBitsClear | 8080.c:417-424 | bits 1, 3 and 5 of the PUSH PSW byte are 0 (the manual sets bit 1) |
| Quirks.PushPswStoresReservedBitsClear | 8080.c:415-427 | PUSH PSW stores A at sp-1 and, at sp-2, a byte with bits 1, 3 and 5 clear |
| Quirks.RstThenRetRepeatsRst | 8080.c:44-49 | after RST, a RET restores the whole record, `pc` included, so the RST runs again |
| Quirks.CallOverItsOperand | 8080.c:341-348 | when the stack slots are the operand bytes, CALL reads back its own return address and lands on the next instruction |
| Quirks.AuxCarryNeverComputed | 8080.c:64 | no instruction computes AC: it is cleared by XRA, loaded by POP PSW, and otherwise kept |

## Left out

- The `printf` calls in `unimplemented`, DEB, IN and RP are output only. DEB is modelled as a `pc + 1` no-op.
- `exit(1)` in `unimplemented` ends the host process. The model returns `Halted(pc, opcode)` with HLT set instead. The `pc +=` after the call is unreachable and is not modelled.
- The `out` callback's effect on the host is not modelled. OUT only reports `Output(port, A)`.
- `clock_cnt` and `halted` in `struct i8080` are never used by the core and are not fields of the model.
- `instr` is a C `int` and is modelled as an unbounded integer. Signed overflow after 2^31 instructions is not modelled.
- The auxiliary carry is never computed, as in the source. `Quirks.AuxCarryNeverComputed` states what AC holds instead.
- Cpu.I8080.ExecXchg: the xor-swap `SWAP` macro is modelled as two assignments swapping H with D and L with E. The two are equal on distinct fields, and the macro is only used on distinct fields.
- Cpu.I8080.RequestInterrupt: `RST_n` is not limited to 0-7, in C or in the model. Any byte is accepted, and `pc = 8n` (at most 2040) may point past the buffer, as in C.
- Every memory access has an in-bounds precondition. The C code does no bounds checking, and `memory[sp - 1]` points before the buffer when `sp` is 0. Reads and writes outside the buffer are therefore not modelled.
- StackProperties.CallThenRet requires the two stack slots to lie outside the operand bytes. When they overlap, CALL reads back its own return address; `Quirks.CallOverItsOperand` states that case.
- The hosts (`run.c`, `space_invaders.c`, `debug.c`) are not part of this model. This covers ROM loading, CP/M patches, SDL rendering and the comparison against a second emulator.
- HLT (0x76) has a case, but it only calls `unimplemented` (8080.c:231), which sets HLT and exits before `instr ++` (8080.c:26-30, 444). The program MVI A,5; ADI 3; HLT therefore counts two instructions, not three (`Semantics.StepFrame`, `ControlProperties.AddProgramHalts`).
- In Intel's 8080 manual, CALL and RST push the address of the next instruction, and an untaken conditional branch advances `pc`. Here RST pushes its own `pc` (8080.c:44-49), and an untaken JM or RZ leaves `pc` unchanged (8080.c:333, 432). The model follows the code (`Quirks.RstThenRetRepeatsRst`, `ControlProperties.UntakenJmOrRzStalls`).
