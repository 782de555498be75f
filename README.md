# runes, modelled in Dafny

This project models the emulator core of `runes`, a Nintendo Entertainment System
emulator written in Rust, and proves properties of the model. It has five parts.

- **The 6502 CPU** (`6502/mos6502/cpu.rs`).
  - Status flags and their byte encoding.
  - Addressing modes and operand access.
  - Every instruction handler, and the fetch-decode-execute loop.
  - Files: `cpu_state.dfy`, `addressing.dfy`, `alu.dfy`, `cpu_semantics.dfy`,
    `cpu.dfy`, `cpu_properties.dfy`.
  - `cpu.dfy` holds the CPU object itself. It is a class whose registers the
    handlers update in place.
  - Each handler method is proved to leave the object in the state that the pure
    reference semantics of `cpu_semantics.dfy` prescribe.
- **The flat 64 KiB memory** (`6502/mos6502/memory_map.rs`), in `memory_map.dfy`.
- **The two opcode decoders and the two program walkers** (`6502/mos6502/instruction.rs`,
  `6502/mos6502/program.rs`, `6502/MOS6502/instruction.rs`, `6502/MOS6502/program.rs`),
  in `opcode_decoder.dfy`, `compiled_program.dfy`, `inert_decoder.dfy` and
  `decoded_program.dfy`.
  - `DecodeAll` is the specification of walking a byte stream instruction by
    instruction.
  - Both walker loops are proved against it.
- **The picture processing unit** (`src/ppu.rs`), in `ppu.dfy`.
  - The register ports with their two-write latches.
  - The scanline/dot counter and the vertical-blank NMI.
  - Decoding of 16-byte CHR tiles into 8×8 sprites.
  - Drawing pixels, sprites and a sprite sheet into the 256×240 RGB screen array.
- **The iNES cartridge** (`src/rom.rs`) and **the console** (`src/main.rs`), in `rom.dfy`
  and `nes.dfy`.
  - Header parsing and section extraction.
  - The cartridge's CPU window.
  - The mirrored 2 KiB work RAM.
  - The bus layout.
  - The console step that forwards the PPU's NMI to the CPU.

`bits.dfy` and `wrappers.dfy` hold shared vocabulary.

- Bytes and words are integer subtypes. The bitwise operators are defined bit by bit.
- A Rust panic becomes `Result.Panic(fault)`, and `:-` propagates it.
- Where the source indexes past the end of a buffer, the model returns that panic
  instead of requiring the caller to avoid it.

Where the Rust code departs from the documented 6502, PPU or iNES behaviour in a way
its authors evidently did not intend, the model keeps two definitions.

- An "as written" definition that follows the code. A lemma exhibits the
  discrepancy on a concrete input.
- A corrected definition that the rest of the model uses.

See "## Findings".

## Model

| member | source | states |
|---|---|---|
| CpuState.CpuFlags.Bit | 6502/mos6502/cpu.rs:27-29 | `bit` is 1 exactly when the flag is raised and 0 exactly when it is not |
| CpuState.HasSetAgrees | 6502/mos6502/cpu.rs:31-33 | `has_set` holds exactly when `bit` gives 1 and exactly when the flag's bit of the status byte is set |
| CpuState.CpuFlags.Set | 6502/mos6502/cpu.rs:35-41 | `set` makes the named flag equal to the given value and leaves every other flag as it was |
| CpuState.SetCommutes | 6502/mos6502/cpu.rs:35-41 | setting two different flags gives the same flag set in either order |
| CpuState.FlagBit | 6502/mos6502/cpu.rs:8-20 | every flag has its own bit of the status byte, below 8 and never the unused bit 5 |
| CpuState.ToByte | 6502/mos6502/cpu.rs:8-42 | the status byte has bit FlagBit(f) set iff flag f is raised, and bit 5 always set |
| CpuState.FromByte | 6502/mos6502/cpu.rs:8-42 | a flag is raised iff its bit of the status byte is set |
| CpuState.ByteRoundTrip | 6502/mos6502/cpu.rs:8-42 | decoding the encoded status byte gives back the same flag set |
| CpuState.DebugString | 6502/mos6502/cpu.rs:44-56 | the Debug string has seven characters; position k shows the letter of the k-th flag of C Z I D B V N iff that flag is raised, and '-' iff it is not |
| CpuState.DebugStringInjective | 6502/mos6502/cpu.rs:44-56 | two flag sets with the same Debug string are equal, so the string shows every flag |
| Addressing.AddressingMode.ByteSize | 6502/mos6502/cpu.rs:96-101 | an instruction occupies 1 to 3 bytes: exactly 1 for implicit and register modes, exactly 3 for the absolute and indirect modes |
| Addressing.Resolve | 6502/mos6502/cpu.rs:541-599 | an effective address exists exactly for the memory modes and the relative mode; the other modes panic |
| Addressing.ReadOperand | 6502/mos6502/cpu.rs:494-510 | `read_op` yields a value exactly for memory, register and immediate modes and panics otherwise |
| Addressing.WriteOperand | 6502/mos6502/cpu.rs:512-539 | `write_op` succeeds exactly for memory and register modes; immediate, implicit and relative panic |
| Addressing.ZeroPageStaysInPageZero | 6502/mos6502/cpu.rs:541-599 | zero-page modes resolve inside page zero; the X or Y index wraps modulo 256 |
| Addressing.AbsoluteIsLittleEndian | 6502/mos6502/cpu.rs:541-599 | absolute addressing gives the little-endian word h·256 + l |
| Addressing.AbsoluteIndexedWraps | 6502/mos6502/cpu.rs:541-599 | absolute,X and absolute,Y add the index to the absolute address modulo 2^16 |
| Addressing.IndirectReadsTwoBytes | 6502/mos6502/cpu.rs:541-599 | indirect modes read the low byte of the target at the pointer and the high byte at the pointer plus one |
| Addressing.IndirectCrossesPage | 6502/mos6502/cpu.rs:541-599 | for a pointer ending in 0xFF the high byte comes from the next page: the code has no NMOS page-wrap quirk |
| Addressing.RelativeIsSigned | 6502/mos6502/cpu.rs:541-599 | a relative offset is a signed byte: 0x80 and above branch backwards |
| Addressing.ReadOperandSource | 6502/mos6502/cpu.rs:494-510 | memory modes read the resolved cell; each register mode reads its register |
| Addressing.WriteRegisterLeavesMemory | 6502/mos6502/cpu.rs:512-539 | a register-mode write sets that register to the value and leaves every other register and memory unchanged, so reading it back gives the value written |
| Addressing.WriteMemoryTouchesOneCell | 6502/mos6502/cpu.rs:512-539 | a memory-mode write stores the value at the resolved cell and changes no other cell and no register |
| Alu.NegativeAsWrittenNeverHolds | 6502/mos6502/cpu.rs:490-492 | the source's Negative test is false for every byte, 0x80 included |
| Alu.NegativeIsSign | 6502/mos6502/cpu.rs:490-492 | the corrected Negative test holds iff the byte read as i8 is negative |
| Alu.AdcBinary | 6502/mos6502/cpu.rs:143-150 | binary ADC gives (A + M + C) mod 256 and raises Carry iff the sum reaches 256 |
| Alu.AdcOverflowIsSignedOverflow | 6502/mos6502/cpu.rs:143-150 | the Overflow of binary ADC holds iff the signed sum leaves the range of i8 |
| Alu.AdcDecimalIsDecimalSum | 6502/mos6502/cpu.rs:120-141 | on packed-BCD operands decimal ADC yields a BCD byte, and that byte plus 100·Carry is the decimal sum |
| Alu.AdcDecimalExample | 6502/mos6502/cpu.rs:120-141 | decimal 09 + 01 = 10 without carry, and 99 + 01 = 00 with carry |
| Alu.AdcBinaryExample | 6502/mos6502/cpu.rs:143-150 | 0xFF + 0x01 gives 0x00 with Carry and without Overflow |
| Alu.AdcFlagsAsWrittenDiffer | 6502/mos6502/cpu.rs:137-148 | the source leaves Zero clear for 0xFF + 0x01 = 0 and Negative clear for 0x7F + 0x01 = 0x80 |
| Alu.SbcBinary | 6502/mos6502/cpu.rs:391-394 | binary SBC gives (A − M − (1 − C)) mod 256 and raises Carry iff no borrow occurs |
| Alu.SbcIsAdcOfComplement | 6502/mos6502/cpu.rs:391-394 | binary SBC equals ADC of the one's complement of the operand, flags included |
| Alu.SbcDecimal | 6502/mos6502/cpu.rs:391-394 | decimal SBC sets Carry exactly as binary SBC does |
| Alu.SbcDecimalIsDecimalDifference | 6502/mos6502/cpu.rs:391-394 | on packed-BCD operands decimal SBC yields a BCD byte holding the decimal difference modulo 100 |
| Alu.Asl | 6502/mos6502/cpu.rs:161-166 | ASL doubles the operand modulo 256 and moves bit 7 into Carry |
| Alu.AslAsWrittenDiffers | 6502/mos6502/cpu.rs:161-166 | on 0x01 the source's shift gives 0x01 where ASL gives 0x02 |
| Alu.Lsr | 6502/mos6502/cpu.rs:319-326 | LSR halves the operand, and the result times two plus Carry is the operand |
| Alu.RolCarryAsWrittenNeverHolds | 6502/mos6502/cpu.rs:359-368 | the source's carry test of ROL is false for every operand, although rotating 0x80 must carry |
| Alu.Rol | 6502/mos6502/cpu.rs:359-368 | ROL gives (2·operand + old Carry) mod 256 and moves bit 7 into Carry |
| Alu.Ror | 6502/mos6502/cpu.rs:370-379 | ROR gives operand / 2 with the old Carry in bit 7, and moves bit 0 into Carry |
| Alu.RolRorRoundTrip | 6502/mos6502/cpu.rs:359-379 | ROR after ROL restores both the operand and the carry |
| Alu.Compare | 6502/mos6502/cpu.rs:472-478 | compare raises Carry iff reg ≥ M, Zero iff reg = M, and Negative iff bit 7 of (reg − M) mod 256 is set |
| Alu.Increment | 6502/mos6502/cpu.rs:268-287 | increment is +1 modulo 256, and gives 0 iff the operand is 0xFF |
| Alu.Decrement | 6502/mos6502/cpu.rs:240-259 | decrement is −1 modulo 256, and gives 0xFF iff the operand is 0 |
| Alu.IncrementDecrementInverse | 6502/mos6502/cpu.rs:240-287 | increment and decrement undo each other on every byte |
| Alu.BitTest | 6502/mos6502/cpu.rs:180-186 | BIT raises Zero iff A & M = 0, Negative iff bit 7 of M, Overflow iff bit 6 of M |
| Alu.BitTestAsWrittenDiffers | 6502/mos6502/cpu.rs:180-186 | the source's BIT never raises N or V, yet BIT of 0xC0 must raise both |
| CpuSemantics.Instruction.ByteSize | 6502/mos6502/cpu.rs:96-101 | an instruction occupies 1 to 3 bytes, so the pc advance is never 0 |
| CpuSemantics.WithNZ | 6502/mos6502/cpu.rs:486-492 | after the flag helpers, Zero holds iff the value is 0, Negative iff bit 7 is set, and every other flag is unchanged |
| CpuSemantics.Push | 6502/mos6502/cpu.rs:339-347 | a push stores the byte at 0x0100 + sp, changes no other cell, leaves every register but sp as it was and decrements sp modulo 256 |
| CpuSemantics.Pull | 6502/mos6502/cpu.rs:349-357 | a pull leaves memory unchanged and increments sp modulo 256 |
| CpuSemantics.Execute | 6502/mos6502/cpu.rs:114-468 | a handler that is not a jump, branch, call, return or interrupt leaves pc where the fetch put it |
| CpuProperties.AdcBinaryMode | 6502/mos6502/cpu.rs:114-152 | without the Decimal flag, ADC succeeds iff the operand can be read, stores the binary sum in A, and sets C, V, Z and N from it |
| CpuProperties.AdcDecimalMode | 6502/mos6502/cpu.rs:114-152 | with the Decimal flag and BCD operands, ADC leaves a BCD accumulator whose value plus 100·Carry is the decimal sum |
| CpuProperties.CompareChangesOnlyFlags | 6502/mos6502/cpu.rs:228-238 | CMP/CPX/CPY succeed iff the operand is readable, and then change only C, Z and N, as Compare says |
| CpuProperties.BranchTakenIffFlag | 6502/mos6502/cpu.rs:168-210 | a branch moves pc to the sign-extended target iff the flag has the tested value, and otherwise changes nothing |
| CpuProperties.StepAdvancesPc | 6502/mos6502/cpu.rs:90-112 | an undecodable byte advances pc by one; a decoded instruction that is not a jump, branch, call, return or interrupt leaves pc just past itself |
| CpuProperties.SetRestores | 6502/mos6502/cpu.rs:35-41 | setting a flag and then putting back its old value restores the flag set |
| CpuProperties.StackPointerSteps | 6502/mos6502/cpu.rs:339-357 | decrementing and then incrementing sp modulo 256 gives sp back, and a decrement always moves it |
| CpuProperties.PullBack | 6502/mos6502/cpu.rs:339-357 | a pull from the stack as a push left it returns the pushed byte and the original sp |
| CpuProperties.PhaPlaRoundTrip | 6502/mos6502/cpu.rs:339-352 | PLA after PHA gives back A and sp |
| CpuProperties.PhpPlpRoundTrip | 6502/mos6502/cpu.rs:344-357 | PLP after PHP gives back every flag and sp |
| CpuProperties.PullTwice | 6502/mos6502/cpu.rs:339-357 | two pulls from a stack as two pushes left it return the pushed bytes in reverse order and the original sp |
| CpuProperties.ReturnAddress | 6502/mos6502/cpu.rs:386-389 | adding one, modulo 2^16, to the pc - 1 that JSR pushes gives pc back |
| CpuProperties.RtsReturnsTo | 6502/mos6502/cpu.rs:386-389 | RTS over a stack holding the low then the high byte of an address resumes one byte after that address |
| CpuProperties.JsrPushesReturn | 6502/mos6502/cpu.rs:293-296 | JSR absolute jumps to its target and leaves the high then the low byte of pc - 1 on the stack |
| CpuProperties.JsrThenPulls | 6502/mos6502/cpu.rs:293-296 | after JSR, two pulls give the low and the high byte of pc - 1 and restore sp |
| CpuProperties.JsrThenRts | 6502/mos6502/cpu.rs:293-296 | RTS after JSR resumes at (pc - 1) + 1 with sp restored |
| CpuProperties.BrkPulls | 6502/mos6502/cpu.rs:199-203 | after BRK, three pulls give the status byte and the low and high byte of pc + 1, and restore sp |
| CpuProperties.RtiReturnsTo | 6502/mos6502/cpu.rs:381-384 | RTI over a stack holding a status byte and the low and high byte of an address resumes at that address with the pulled flags |
| CpuProperties.JsrRtsRoundTrip | 6502/mos6502/cpu.rs:293-296 | JSR absolute jumps to its target, and RTS afterwards returns to the byte after the call with sp restored |
| CpuProperties.BrkStatusRestored | 6502/mos6502/cpu.rs:199-203 | the status byte BRK pushes, pulled back by RTI, restores every flag |
| CpuProperties.BrkRtiRoundTrip | 6502/mos6502/cpu.rs:199-203 | RTI after BRK resumes at pc + 1 with sp and every flag except Break restored |
| CpuProperties.JsrAsWrittenLosesReturn | 6502/mos6502/cpu.rs:293-296 | the source's JSR from 0x0600 to 0x1234 only moves pc and pushes nothing; the source's RTS stub then leaves pc at 0x1234; a documented RTS after the source's JSR returns to 0x0001; after the documented JSR it returns to 0x0603 |
| CpuProperties.ZeroTwiceAsWritten | 6502/mos6502/cpu.rs:472-478 | two `check_zf_with` calls make Zero follow the value and leave every other flag, Negative included, as it was |
| CpuProperties.NegativeRestored | 6502/mos6502/cpu.rs:472-478 | the documented Zero and Negative update with Negative put back equals the source's double Zero update |
| CpuProperties.CompareNegativeMissing | 6502/mos6502/cpu.rs:472-478 | the source's `compare` panics exactly where the documented one does, and otherwise gives the documented state with Negative left at its old value |
| CpuProperties.CompareNegativeExample | 6502/mos6502/cpu.rs:472-478 | comparing 0 with 1 raises Negative in the documented compare and leaves it clear in the source's |
| CpuProperties.IncDecNegativeMissing | 6502/mos6502/cpu.rs:240-287 | each of the source's INC, DEC, INX, DEX, INY and DEY panics exactly where the documented one does, and otherwise gives the documented state with Negative left at its old value |
| CpuProperties.IncDecNegativeExample | 6502/mos6502/cpu.rs:240-287 | INX of 0x7F and DEC of 0x81 raise Negative in the documented handlers and leave it clear in the source's |
| CpuProperties.PhaAsWrittenStoresNothing | 6502/mos6502/cpu.rs:339-342 | the source's PHA leaves the stack cell at 0 where the corrected PHA stores A there |
| Cpu6502.Cpu.constructor | 6502/mos6502/cpu.rs:71-84 | power-on: A = X = Y = 0, sp = 0xFF, pc = 0, no flag raised, every memory cell 0xEA |
| Cpu6502.Cpu.LoadProgram | 6502/mos6502/cpu.rs:86-88 | the program's bytes are copied from `from` on, bytes past the end of memory are dropped, and registers do not change |
| Cpu6502.Cpu.CheckZfWith | 6502/mos6502/cpu.rs:486-488 | Zero is raised iff the value is 0; nothing else changes |
| Cpu6502.Cpu.CheckNfWith | 6502/mos6502/cpu.rs:490-492 | Negative is raised iff bit 7 of the value is set; nothing else changes |
| Cpu6502.Cpu.WriteOp | 6502/mos6502/cpu.rs:512-539 | the object ends as WriteOperand prescribes, or unchanged with `false` when the source panics |
| Cpu6502.Cpu.Push | 6502/mos6502/cpu.rs:339-342 | the byte is stored at 0x0100 + sp and sp is decremented modulo 256 |
| Cpu6502.Cpu.Pull | 6502/mos6502/cpu.rs:349-352 | sp is incremented modulo 256 and the byte at 0x0100 + sp is returned |
| Cpu6502.Cpu.ReadOp | 6502/mos6502/cpu.rs:494-510 | returns the operand exactly when `read_op` has one |
| Cpu6502.Cpu.Compare | 6502/mos6502/cpu.rs:472-478 | only C, Z and N change, as CompareChangesOnlyFlags states; a panic changes nothing |
| Cpu6502.Cpu.BranchOnFlag | 6502/mos6502/cpu.rs:480-484 | pc moves to the resolved target iff the flag has the expected value |
| Cpu6502.Cpu.Adc | 6502/mos6502/cpu.rs:114-152 | A and C, V, Z, N become the binary or decimal sum, as AdcBinaryMode and AdcDecimalMode state |
| Cpu6502.Cpu.Sbc | 6502/mos6502/cpu.rs:391-394 | A and C, V, Z, N become the binary or decimal difference A − M − (1 − C) |
| Cpu6502.Cpu.And | 6502/mos6502/cpu.rs:154-159 | A becomes A & M, with Z and N from the result |
| Cpu6502.Cpu.Ora | 6502/mos6502/cpu.rs:332-337 | A becomes A \| M, with Z and N from the result |
| Cpu6502.Cpu.Eor | 6502/mos6502/cpu.rs:261-266 | A becomes A ^ M, with Z and N from the result |
| Cpu6502.Cpu.Bit | 6502/mos6502/cpu.rs:180-186 | Z, N and V become the BitTest flags of A and M, and no register changes |
| Cpu6502.Cpu.Cmp | 6502/mos6502/cpu.rs:228-230 | compares A with the operand |
| Cpu6502.Cpu.Cpx | 6502/mos6502/cpu.rs:232-234 | compares X with the operand |
| Cpu6502.Cpu.Cpy | 6502/mos6502/cpu.rs:236-238 | compares Y with the operand |
| Cpu6502.Cpu.WriteBack | 6502/mos6502/cpu.rs:512-539 | a read-modify-write result is written through the mode, with Z, N and the given Carry from the result |
| Cpu6502.Cpu.Asl | 6502/mos6502/cpu.rs:161-166 | the operand is doubled modulo 256 in place, and bit 7 goes to Carry |
| Cpu6502.Cpu.Lsr | 6502/mos6502/cpu.rs:319-326 | the operand is halved in place, and bit 0 goes to Carry |
| Cpu6502.Cpu.Rol | 6502/mos6502/cpu.rs:359-368 | the operand is rotated left through Carry in place |
| Cpu6502.Cpu.Ror | 6502/mos6502/cpu.rs:370-379 | the operand is rotated right through Carry in place |
| Cpu6502.Cpu.Inc | 6502/mos6502/cpu.rs:268-273 | the operand is incremented modulo 256, with Z and N from the result |
| Cpu6502.Cpu.Dec | 6502/mos6502/cpu.rs:240-245 | the operand is decremented modulo 256, with Z and N from the result |
| Cpu6502.Cpu.Inx | 6502/mos6502/cpu.rs:275-280 | X is incremented modulo 256, with Z and N from the result |
| Cpu6502.Cpu.Iny | 6502/mos6502/cpu.rs:282-287 | Y is incremented modulo 256, with Z and N from the result |
| Cpu6502.Cpu.Dex | 6502/mos6502/cpu.rs:247-252 | X is decremented modulo 256, with Z and N from the result |
| Cpu6502.Cpu.Dey | 6502/mos6502/cpu.rs:254-259 | Y is decremented modulo 256, with Z and N from the result |
| Cpu6502.Cpu.Bcc | 6502/mos6502/cpu.rs:168-170 | branches iff Carry is clear |
| Cpu6502.Cpu.Bcs | 6502/mos6502/cpu.rs:172-174 | branches iff Carry is set |
| Cpu6502.Cpu.Beq | 6502/mos6502/cpu.rs:176-178 | branches iff Zero is set |
| Cpu6502.Cpu.Bmi | 6502/mos6502/cpu.rs:187-189 | branches iff Negative is set |
| Cpu6502.Cpu.Bne | 6502/mos6502/cpu.rs:191-193 | branches iff Zero is clear |
| Cpu6502.Cpu.Bpl | 6502/mos6502/cpu.rs:195-197 | branches iff Negative is clear |
| Cpu6502.Cpu.Bvc | 6502/mos6502/cpu.rs:204-206 | branches iff Overflow is clear |
| Cpu6502.Cpu.Bvs | 6502/mos6502/cpu.rs:208-210 | branches iff Overflow is set |
| Cpu6502.Cpu.Jmp | 6502/mos6502/cpu.rs:289-291 | pc becomes the resolved address |
| Cpu6502.Cpu.Jsr | 6502/mos6502/cpu.rs:293-296 | pushes the return address minus one, high byte first, and jumps; RTS then returns after the call (JsrRtsRoundTrip) |
| Cpu6502.Cpu.Rts | 6502/mos6502/cpu.rs:386-389 | pulls the return address, low byte first, and resumes one byte after it |
| Cpu6502.Cpu.Rti | 6502/mos6502/cpu.rs:381-384 | pulls the status and then pc; Break keeps its current value |
| Cpu6502.Cpu.Brk | 6502/mos6502/cpu.rs:199-203 | pushes pc + 1 and the status with Break set, raises Break and Interrupt, and jumps through the vector at 0xFFFE |
| Cpu6502.Cpu.Pha | 6502/mos6502/cpu.rs:339-342 | pushes A |
| Cpu6502.Cpu.Php | 6502/mos6502/cpu.rs:344-347 | pushes the status byte with Break set |
| Cpu6502.Cpu.Pla | 6502/mos6502/cpu.rs:349-352 | pulls A, with Z and N from it |
| Cpu6502.Cpu.Plp | 6502/mos6502/cpu.rs:354-357 | pulls the flags; Break keeps its current value |
| Cpu6502.Cpu.Clc | 6502/mos6502/cpu.rs:212-214 | clears Carry and nothing else |
| Cpu6502.Cpu.Cld | 6502/mos6502/cpu.rs:216-218 | clears Decimal and nothing else |
| Cpu6502.Cpu.Cli | 6502/mos6502/cpu.rs:220-222 | clears Interrupt and nothing else |
| Cpu6502.Cpu.Clv | 6502/mos6502/cpu.rs:224-226 | clears Overflow and nothing else |
| Cpu6502.Cpu.Sec | 6502/mos6502/cpu.rs:396-398 | raises Carry and nothing else |
| Cpu6502.Cpu.Sed | 6502/mos6502/cpu.rs:400-402 | raises Decimal and nothing else |
| Cpu6502.Cpu.Sei | 6502/mos6502/cpu.rs:404-406 | raises Interrupt and nothing else |
| Cpu6502.Cpu.Lda | 6502/mos6502/cpu.rs:298-303 | A becomes the operand, with Z and N from it |
| Cpu6502.Cpu.Ldx | 6502/mos6502/cpu.rs:305-310 | X becomes the operand, with Z and N from it |
| Cpu6502.Cpu.Ldy | 6502/mos6502/cpu.rs:312-317 | Y becomes the operand, with Z and N from it |
| Cpu6502.Cpu.Sta | 6502/mos6502/cpu.rs:408-410 | stores A through the mode; no register or flag changes |
| Cpu6502.Cpu.Stx | 6502/mos6502/cpu.rs:412-414 | stores X through the mode |
| Cpu6502.Cpu.Sty | 6502/mos6502/cpu.rs:416-418 | stores Y through the mode |
| Cpu6502.Cpu.Tax | 6502/mos6502/cpu.rs:420-424 | X becomes A, with Z and N from it |
| Cpu6502.Cpu.Tay | 6502/mos6502/cpu.rs:426-430 | Y becomes A, with Z and N from it |
| Cpu6502.Cpu.Tsx | 6502/mos6502/cpu.rs:432-436 | X becomes sp, with Z and N from it |
| Cpu6502.Cpu.Txa | 6502/mos6502/cpu.rs:438-442 | A becomes X, with Z and N from it |
| Cpu6502.Cpu.Txs | 6502/mos6502/cpu.rs:444-448 | sp becomes X, with Z and N from it, as the source does |
| Cpu6502.Cpu.Tya | 6502/mos6502/cpu.rs:450-454 | A becomes Y, with Z and N from it |
| Cpu6502.Cpu.Nop | 6502/mos6502/cpu.rs:328-330 | changes nothing |
| Cpu6502.Cpu.Lax | 6502/mos6502/cpu.rs:458-460 | A and X both become the operand, with Z and N from it |
| Cpu6502.Cpu.Sax | 6502/mos6502/cpu.rs:462-464 | stores A & X through the mode |
| Cpu6502.Cpu.Axs | 6502/mos6502/cpu.rs:466-468 | X becomes (A & X) − M modulo 256; Carry holds iff A & X ≥ M; Z and N come from the result |
| Cpu6502.Cpu.Dispatch | 6502/mos6502/cpu.rs:114-468 | running a decoded instruction leaves the object as Execute prescribes, or unchanged with `false` on a panic |
| Cpu6502.Cpu.Step | 6502/mos6502/cpu.rs:96-105 | one loop iteration matches StepSpec: pc advances past the decoded instruction before it runs, and an undecodable byte acts as a one-byte NOP |
| Cpu6502.Cpu.Exec | 6502/mos6502/cpu.rs:90-112 | `exec` from an address ends in the state, and with the panic verdict, of the reference run from that address |
| MemoryMaps.MemoryMap.constructor | 6502/mos6502/memory_map.rs:15-19 | all 65536 cells start as 0xEA |
| MemoryMaps.MemoryMap.IsOverflowing | 6502/mos6502/memory_map.rs:21-23 | an index overflows iff it is at least 65536 |
| MemoryMaps.MemoryMap.Copy | 6502/mos6502/memory_map.rs:25-35 | cell from + k becomes stream[k] while it exists, the copy stops at the end of memory, and every other cell keeps its value |
| MemoryMaps.MemoryMap.Write | 6502/mos6502/memory_map.rs:45-48 | exactly one cell changes, to the value, and the value is returned |
| MemoryMaps.MemoryMap.Read | 6502/mos6502/memory_map.rs:50-52 | a read gives the first byte of the slice `from` returns for that address |
| MemoryMaps.MemoryMap.From | 6502/mos6502/memory_map.rs:54-56 | the slice from an address holds memory from that address to the end |
| OpcodeDecoder.Instruction.ByteSize | 6502/mos6502/instruction.rs:30-59 | `bytesize` is 1 to 3 and equals the length of the instruction's canonical encoding |
| OpcodeDecoder.TryBuild | 6502/mos6502/instruction.rs:19-28 | `try_build` panics exactly on an empty chunk or a truncated 0xA9/0x8D operand; 0xA9 and 0x8D decode their operand bytes, and every other opcode is BRK |
| OpcodeDecoder.DecodeEncode | 6502/mos6502/instruction.rs:19-28 | decoding an instruction's canonical bytes, whatever follows them, gives the instruction back |
| OpcodeDecoder.ExecRegs | 6502/mos6502/instruction.rs:30-54 | LDA-immediate sets only A, STA-absolute changes no register, BRK raises only Interrupt |
| OpcodeDecoder.StaAddress | 6502/mos6502/instruction.rs:40-44 | the STA address has low byte abs_l and high byte abs_h |
| OpcodeDecoder.Exec | 6502/mos6502/instruction.rs:30-54 | `exec` updates the CPU's registers as ExecRegs says and leaves memory unchanged |
| OpcodeDecoder.TotalSize | 6502/mos6502/program.rs:21-36 | the summed byte sizes are at least the number of instructions |
| OpcodeDecoder.DecodeAll | 6502/mos6502/program.rs:21-36 | a successful decoding covers the stream exactly: the byte sizes add up to its length |
| OpcodeDecoder.PrependAssoc | 6502/mos6502/program.rs:21-36 | prepending decoded prefixes composes |
| OpcodeDecoder.DecodedAt | 6502/mos6502/program.rs:21-36 | instruction k of a decoding is what `try_build` gives at the sum of the sizes before it |
| OpcodeDecoder.OffsetStep | 6502/mos6502/program.rs:21-36 | the offset of instruction k + 1 is the offset of k plus k's size |
| OpcodeDecoder.SizeAppend | 6502/mos6502/program.rs:21-36 | the summed size of a concatenation is the sum of the summed sizes |
| OpcodeDecoder.DecodeConcat | 6502/mos6502/program.rs:21-36 | decoding a concatenation of decodable streams concatenates their decodings |
| OpcodeDecoder.TruncatedOperandPanics | 6502/mos6502/program.rs:21-36 | a decodable stream followed by a lone 0xA9 does not decode |
| OpcodeDecoder.DecodeStep | 6502/mos6502/program.rs:26-33 | one loop iteration keeps the decoding of the whole stream equal to the decoded prefix plus the decoding of the rest |
| OpcodeDecoder.DecodeHead | 6502/mos6502/program.rs:26-33 | the decoding of a non-empty stream begins with its first instruction |
| OpcodeDecoder.DecodeEncodeAll | 6502/mos6502/program.rs:21-36 | decoding the canonical bytes of any instruction sequence, laid end to end, gives the sequence back |
| OpcodeDecoder.SampleEncodes | 6502/main.rs:8-14 | the sample bytes are the canonical bytes of LDA #1, STA $0200, LDA #5, STA $0201, LDA #8, STA $0202 |
| OpcodeDecoder.SampleDecodes | 6502/main.rs:8-14 | the sample program decodes into LDA #1, STA $0200, LDA #5, STA $0201, LDA #8, STA $0202 |
| CompiledProgram.Program.Size | 6502/mos6502/program.rs:13-15 | `size` is below 2^32 and at most the stream length, and equals it when the length fits in u32 |
| CompiledProgram.Program.Code | 6502/mos6502/program.rs:13-19 | the bytes `fetch` and `compile` see are the first `size` bytes |
| CompiledProgram.Program.Fetch | 6502/mos6502/program.rs:17-19 | a successful `fetch` starts inside the program and its instruction ends inside it; inside the program it is `try_build` on the rest |
| CompiledProgram.Program.Compile | 6502/mos6502/program.rs:21-36 | `compile` returns DecodeAll of the program's bytes (panicking exactly when that does), with at most one instruction per byte |
| CompiledProgram.CompiledAtOffsets | 6502/mos6502/program.rs:17-36 | instruction k of a compiled program is what `fetch` yields at the sum of the sizes before it, and that offset is inside the program |
| CompiledProgram.TrailingLoadPanics | 6502/mos6502/program.rs:21-36 | a program ending in a 0xA9 without its operand panics in `compile` |
| InertDecoder.Instruction.ByteSize | 6502/MOS6502/instruction.rs:28-56 | `bytesize` is 1, 2 or 3 |
| InertDecoder.Exec | 6502/MOS6502/instruction.rs:28-51 | every `exec` leaves all six registers unchanged |
| InertDecoder.TryBuild | 6502/MOS6502/instruction.rs:18-26 | a successful decoding fits in the chunk; 0xA9 and 0x8D read their operands and every other byte is BRK |
| InertDecoder.FromOpcode | 6502/MOS6502/instruction.rs:28-56 | corresponding instructions of the two decoders have the same byte size |
| InertDecoder.TryBuildAgrees | 6502/MOS6502/instruction.rs:18-26 | both decoders panic on the same chunks and otherwise give corresponding instructions |
| DecodedProgram.Program.Size | 6502/MOS6502/program.rs:16-18 | `size` is the instruction count cut to 32 bits |
| DecodedProgram.Program.Fetch | 6502/MOS6502/program.rs:20-22 | `fetch` succeeds iff the index is in range, and gives that instruction |
| DecodedProgram.FromOpcodesAppend | 6502/MOS6502/program.rs:44-51 | the translation of a decoding grows by one instruction per loop iteration |
| DecodedProgram.TryFrom | 6502/MOS6502/program.rs:39-54 | `try_from` is Ok iff the bytes decode, and then holds the decoding instruction by instruction; otherwise it panics on an index |
| DecodedProgram.DecodedAtOffsets | 6502/MOS6502/program.rs:39-54 | instruction k comes from the bytes at the sum of the sizes before it, and that offset is inside the input |
| DecodedProgram.SampleProgram | 6502/main.rs:8-14 | the sample bytes give six instructions, alternating LDA-immediate and STA-absolute |
| PpuDevice.ReadPort | src/ppu.rs:81-93 | each of the eight ports reads its register; the scroll and address ports read their low byte |
| PpuDevice.Latch | src/ppu.rs:105-122 | on the low toggle the word becomes the value; otherwise the old low byte moves up and the value becomes the new low byte |
| PpuDevice.WritePort | src/ppu.rs:99-126 | a write panics iff it targets the status port, and otherwise gives the new registers, never changing status or the counters; WriteThenRead shows that a read of the port gives the value back |
| PpuDevice.WriteThenRead | src/ppu.rs:81-126 | after a write to a plain register port, reading that port gives the value |
| PpuDevice.WriteLeavesOtherPorts | src/ppu.rs:81-126 | a write changes no other port's reading |
| PpuDevice.LatchTwoWrites | src/ppu.rs:110-125 | two writes to a latch port give first·0x100 + second and return the toggle to where it was |
| PpuDevice.VblankStatus | src/ppu.rs:186-192 | bit 7 of status equals the vblank switch, and the other bits are kept |
| PpuDevice.StepAsWritten | src/ppu.rs:160-184 | the source's NMI test `control & 0x80 == 1` is false for every control byte, so its step never signals NMI and otherwise leaves the registers as StepSpec does |
| PpuDevice.StepSpec | src/ppu.rs:160-184 | the corrected step signals NMI iff it is at scanline 241 dot 1 with bit 7 of control set, and changes only status, scanline and dot |
| PpuDevice.NmiLostAsWritten | src/ppu.rs:170-175 | with NMI enabled at scanline 241 dot 1, the source's step returns Normal where the corrected step returns Nmi |
| PpuDevice.EarlyReturnStalls | src/ppu.rs:170-184 | with the test repaired but the early return kept, the counters stay at scanline 241 dot 1 forever |
| PpuDevice.PowerOnCounting | src/ppu.rs:139-158 | the power-on counters are in range |
| PpuDevice.StepKeepsCounting | src/ppu.rs:160-184 | a step keeps the scanline in −1..260 and the dot in 0..341 |
| PpuDevice.StepTicks | src/ppu.rs:160-184 | each step advances the position in the 262×341 frame by exactly one dot, modulo the frame |
| PpuDevice.StepNmiExactly | src/ppu.rs:166-175 | a step signals NMI iff it reaches scanline 241 dot 1 with bit 7 of control set |
| PpuDevice.StepVblank | src/ppu.rs:166-168 | reaching scanline 241 dot 1 raises bit 7 of status |
| PpuDevice.ColorOf | src/ppu.rs:27-36 | the colour of bits (b1, b2) has index 2·b1 + b2 |
| PpuDevice.ChrSprite | src/ppu.rs:18-43 | a tile is 8×8, and pixel (r, i) has index 2·bit(7 − i) of byte r plus bit(7 − i) of byte r + 8 |
| PpuDevice.FromChrChunk | src/ppu.rs:18-43 | `from_chr_chunk` succeeds iff the chunk holds 16 bytes, and returns ChrSprite |
| PpuDevice.Palette | src/ppu.rs:130-137 | colour 0 is the only white one; each other colour has exactly one component at 255 and the rest at 0 |
| PpuDevice.PaletteInjective | src/ppu.rs:130-137 | the four palette colours are distinct |
| PpuDevice.Paint | src/ppu.rs:198-202 | painting a pixel changes exactly its three RGB bytes |
| PpuDevice.PaintRow | src/ppu.rs:204-210 | painting a sprite row changes exactly that row's eight pixels |
| PpuDevice.PaintRows | src/ppu.rs:204-210 | painting sprite rows keeps the screen size |
| PpuDevice.PaintSprite | src/ppu.rs:204-210 | painting a sprite keeps the screen size |
| PpuDevice.PaintRowEffect | src/ppu.rs:204-210 | after a row is painted, each of its pixels holds the palette colour of its sprite pixel, and every other byte is as before |
| PpuDevice.PaintRowsEffect | src/ppu.rs:204-210 | after n rows, each pixel of those rows holds its sprite colour, and every other byte is as before |
| PpuDevice.PaintSpriteEffect | src/ppu.rs:204-210 | drawing a sprite at (x, y) paints exactly the 8×8 block there with its palette colours |
| PpuDevice.SheetFits | src/ppu.rs:212-232 | tiles 0 to 900 of the sheet, 32 per row, fit on the screen |
| PpuDevice.SheetPositionsDistinct | src/ppu.rs:212-232 | different tiles go to different positions |
| PpuDevice.ChrSprites | src/ppu.rs:212-232 | the CHR data gives one sprite per 16 bytes, each the ChrSprite of its chunk |
| PpuDevice.PaintSheet | src/ppu.rs:212-232 | painting a sheet keeps the screen size |
| PpuDevice.SheetNext | src/ppu.rs:212-232 | the next sheet tile is 8 pixels to the right, or at the start of the next band of 8 rows after every 32nd tile |
| PpuDevice.PixelRowColumn | src/ppu.rs:212-232 | a screen pixel index names one row and one column |
| PpuDevice.EighthsEqual | src/ppu.rs:212-232 | 8a + j = 8b + d with j, d below 8 forces a = b and j = d, so sheet positions identify tiles |
| PpuDevice.TilesApart | src/ppu.rs:212-232 | no pixel of one sheet tile lies in a row of another tile's 8×8 block |
| PpuDevice.OtherTileKept | src/ppu.rs:212-232 | drawing one sheet tile leaves every byte of every other tile as it was |
| PpuDevice.SpritePixelPainted | src/ppu.rs:204-210 | after a sprite is drawn at (x, y), pixel (r, j) of its block holds the palette colour of sprite pixel (r, j) |
| PpuDevice.PaintSheetEffect | src/ppu.rs:212-232 | after the first k tiles of the sheet are drawn, pixel (r, j) of tile i < k holds the palette colour of that tile's pixel (r, j) |
| PpuDevice.SpriteList | src/ppu.rs:212-232 | the sprite list exists iff the CHR length is a multiple of 16, and it holds the ChrSprite of every chunk |
| PpuDevice.Ppu.constructor | src/ppu.rs:139-158 | power-on registers, both toggles low, scanline 240, dot 0, and a black screen of 184320 bytes |
| PpuDevice.Ppu.Read | src/ppu.rs:81-93 | a port read returns ReadPort of the registers |
| PpuDevice.Ppu.Write | src/ppu.rs:99-126 | a port write updates the registers as WritePort says; a status write panics and changes nothing |
| PpuDevice.Ppu.SetVblank | src/ppu.rs:186-192 | only bit 7 of status changes, to the switch |
| PpuDevice.Ppu.Step | src/ppu.rs:160-184 | a step updates the registers and signals as the corrected step does (StepNmiExactly, StepTicks) |
| PpuDevice.Ppu.DrawPixel | src/ppu.rs:198-202 | drawing succeeds iff the pixel index is on the screen, and then paints exactly that pixel |
| PpuDevice.Ppu.DrawSprite | src/ppu.rs:204-210 | drawing succeeds iff the 8×8 block fits, and then paints it (PaintSpriteEffect) |
| PpuDevice.Ppu.DrawSpritesheet | src/ppu.rs:212-232 | drawing succeeds iff the CHR length is a multiple of 16, and then paints the first min(n, 901) tiles at their sheet positions |
| Cartridge.ParseMapper | src/rom.rs:128-130 | the mapper's low nibble is the high nibble of byte 6 and its high nibble is the high nibble of byte 7 |
| Cartridge.Nes2Bits | src/rom.rs:132-145 | `data[7] & 0x0C == 0x08` holds iff bit 3 of byte 7 is set and bit 2 is clear |
| Cartridge.GuessVersion | src/rom.rs:132-145 | NES 2.0 iff the magic is present and the NES 2.0 bits are set; iNES iff the magic is present and they are not; unknown iff the magic is missing |
| Cartridge.HasTrainer | src/rom.rs:147-149 | a trainer is present iff bit 2 of byte 6 is set |
| Cartridge.TrainerAsWritten | src/rom.rs:167-173 | the source's trainer slice panics iff a trainer is announced and the file is shorter than 512 bytes, and otherwise holds 496 bytes |
| Cartridge.Trainer | src/rom.rs:167-173 | the trainer holds the 512 bytes after the header when bit 2 of byte 6 is set, is absent otherwise, and a short file panics |
| Cartridge.TrainerAsWrittenShort | src/rom.rs:167-173 | on a file holding all 512 trainer bytes, the source's trainer is the corrected trainer without its last 16 bytes |
| Cartridge.TvSystemOf | src/rom.rs:175-181 | PAL iff bit 0 of byte 9 is set, NTSC otherwise |
| Cartridge.PrgBanks | src/rom.rs:151-153 | the program bank count is header byte 4 |
| Cartridge.PrgSize | src/rom.rs:155-157 | the program section is a whole number of 16 KiB banks, and that number is header byte 4 |
| Cartridge.ChrBanks | src/rom.rs:159-161 | the character bank count is header byte 5 |
| Cartridge.ChrSize | src/rom.rs:163-165 | the character section is a whole number of 8 KiB banks, and that number is header byte 5 |
| Cartridge.PrgStart | src/rom.rs:183-191 | the program section starts at 528 with a trainer and at 16 without |
| Cartridge.PrgData | src/rom.rs:183-191 | the program section exists iff it fits in the file, and holds 16 KiB per bank from PrgStart |
| Cartridge.ChrData | src/rom.rs:193-201 | the character section exists iff it fits, and holds 8 KiB per bank directly after the program section |
| Cartridge.SectionsAdjacent | src/rom.rs:183-201 | the header, trainer, program and character sections are contiguous and in that order |
| Cartridge.FromBytes | src/rom.rs:100-126 | a ROM is built iff the file holds a full header and both sections fit; its fields are the parsed header values and sections |
| Cartridge.CpuAddressRange | src/rom.rs:207-213 | a range exists iff the mapper is 0, and it spans 0xA000 addresses; any other mapper panics as unsupported |
| Cartridge.Read | src/rom.rs:219-232 | below 0x2000 it panics (no PRG RAM) and in 0x4000..0x6000 the subtraction underflows; otherwise it reads program byte offset − 0x2000 below 0x4000 and offset − 0x6000 from 0x6000 on, and panics past the program |
| Cartridge.ReadMirrors | src/rom.rs:219-232 | for o in 0x2000..0x4000, offsets o and o + 0x4000 read the same byte or both panic |
| Cartridge.Slice | src/rom.rs:234-247 | a slice exists iff the offset is at least 0x2000, outside 0x4000..0x6000 and translates to an index inside the program; it runs from that index to one byte before the end of the program, so it never holds the last byte |
| Cartridge.Rom.Program | src/rom.rs:203-205 | `program` is the PRG section; for a ROM built by FromBytes that is the bytes after the header and trainer, 16 KiB per bank |
| Cartridge.Write | src/rom.rs:249-252 | a write leaves the cartridge unchanged and returns the value |
| Console.Ram.constructor | src/main.rs:23-27 | the RAM holds 2048 zero bytes |
| Console.Ram.Read | src/main.rs:38-40 | an address below 2048 reads its own cell, and any higher address reads what the address 2048 lower reads |
| Console.Ram.Slice | src/main.rs:42-45 | the slice starts at the mirrored address and stops one byte short of the end of the RAM |
| Console.Ram.Write | src/main.rs:47-50 | only the cell at address mod 2048 changes, so every mirror of the address reads the value and other addresses read as before |
| Console.RamMirrors | src/main.rs:30-40 | the four 2 KiB mirrors of 0x0000..0x2000 read the same cell |
| Console.Mounts | src/main.rs:83-88 | the bus layout exists iff the mapper is 0: RAM, PPU, APU and the cartridge's range, in that order |
| Console.MountsDisjoint | src/main.rs:83-88 | the four mounted ranges do not overlap |
| Console.Owner | src/main.rs:83-88 | an address has an owner iff it lies in some mounted range, and the owner is the device of a mounted range that contains it |
| Console.OwnerOfAddress | src/main.rs:83-88 | addresses below 0x2000 go to RAM, then 0x2000..0x4000 to the PPU, then 0x4000..0x4018 to the APU; 0x4018..0x6000 go to nobody and 0x6000.. to the cartridge |
| Console.NesDevice.constructor | src/main.rs:70-98 | the console mounts the bus layout, powers on the PPU, and has one pending CPU reset request |
| Console.NesDevice.New | src/main.rs:70-98 | building a console panics as an unsupported mapper iff the mapper is not 0, and otherwise gives a fresh console as the constructor does |
| Console.NesDevice.ResetCpu | src/main.rs:100-102 | a reset appends one reset request |
| Console.NesDevice.Step | src/main.rs:104-118 | a step requests one CPU step, steps the PPU, and requests an NMI iff the PPU step signals one |

## Left out

- File I/O of `Rom::from_file` (src/rom.rs:100-126) is left out. `Cartridge.FromBytes` takes the bytes of the file. An unreadable file, the I/O error path, is not modelled.
- `Instruction::build`, the opcode table of the CPU loop, is not part of this model. `Cpu6502.Cpu.Step` and `Cpu6502.Cpu.Exec` take the decoder as a function parameter.
- Cpu6502.Cpu.Exec: the source loop stops only when pc reaches 65536. A u16 pc never does, so it runs until a handler panics. The model bounds the run by a `fuel` step count.
- The `pc += bytesize` and `pc += 1` additions of the CPU loop panic on u16 overflow in a debug build. The model wraps them modulo 2^16.
- The plain u16 `+` of `resolve_mem_address` also panics on overflow in a debug build. It occurs at 6502/mos6502/cpu.rs:552 and 556 (absolute,X and absolute,Y) and at 578, 585, 586 and 593 (the pointer plus one of the indirect modes, and the Y index of indirect-indexed). The model wraps each modulo 2^16 (`Addressing.AbsoluteIndexedWraps`, `Addressing.IndirectCrossesPage`).
- The increment and decrement handlers (6502/mos6502/cpu.rs:240-287) use plain u8 `+ 1` and `- 1`, which panic on overflow in a debug build. The model wraps them modulo 256, as the documented 6502 does.
- Console.NesDevice.constructor: it requires mapper 0, because a Dafny constructor cannot fail. The unsupported-mapper panic of the source is modelled by `Console.NesDevice.New`, which checks the mapper and then calls the constructor.
- The `fmt::Debug` implementations are left out, except the flags string (`CpuState.DebugString`). They include the CPU, memory, program, ROM and PPU listings.
- The `println!` tracing in `exec`, `copy` and STA-absolute is left out.
- `MemoryMap::register` and `portion_for` (6502/mos6502/memory_map.rs:37-43) are left out. They are stubs that no modelled code calls.
- OpcodeDecoder.ExecRegs: `cpu.set_acc` and `cpu.set_flag` (6502/mos6502/instruction.rs:32 and 53) are not part of this model. The model takes `set_acc` to change A alone and `set_flag(Interrupt)` to raise Interrupt alone.
- The `AddressingMode` enum and `has_to_access_memory` are not among the source files. The model takes the variants `resolve_mem_address` matches on.
- Addressing.RelativeIsSigned: the model takes the operand of the Relative mode as an `i8`, so `o as u16` at 6502/mos6502/cpu.rs:572 sign-extends it. The enum that would fix its type is not part of this model.
- The model treats the nine memory modes as the ones that access memory.
- The `CPU` API that `NesDevice` calls (`CPU::new(memmap)`, `request_reset`, `request_nmi`, `step`) and `register_device` are not part of this model. The console records its requests to the CPU as a log, and keeps the bus layout as data.
- The bus hands each device `addr - range.start`. `Cartridge.Read`, `Cartridge.Slice`, `Console.Ram.Read` and the PPU ports take that offset. The composition of bus and device is not modelled.
- The APU mount is the RAM stand-in the source uses, and the model does not give it contents.
- Console.NesDevice.Step: the status string returned by `cpu.step()` is not modelled.
- `Rc<RefCell<…>>` sharing of the PPU and the cartridge between the bus and the console is modelled as one owner holding a reference.
- `Ppu::slice` (src/ppu.rs:95-97) is left out. It only panics, with a message saying that slicing makes no sense for the PPU.
- `Ppu::screen` (src/ppu.rs:194-196) is left out. It only hands out the array, which is the field `screen` of the model.
- PpuDevice.Ppu.Step: the source keeps the scanline in an `i16` and the dot in a `u16`. The model uses unbounded integers, and `StepKeepsCounting` shows they stay in −1..260 and 0..341.
- Reading the status port does not clear the write toggles in the code. The model follows the code.
- `src/gfx.rs`, SDL windowing, `6502/window.rs`, `parse_config`, `show_memmap`, the top-level `main` functions and `6502/MOS6502/cpu.rs` are left out. They are display, I/O and command-line glue.
- The `rom.rs` header helpers (`parse_mapper`, `guess_version`, the bank counts, `tv_system`) require a full header. In the code they index the header unchecked, and `FromBytes` returns a panic for a short file before calling them.
- The `u32` casts in `6502/mos6502/program.rs` are modelled as a truncation of the length modulo 2^32. `Code` and `Compile` work on the truncated prefix.

## Findings

| source | as written | input that shows it | evidently intended | confidence | as-written member | corrected member |
|---|---|---|---|---|---|---|
| 6502/mos6502/cpu.rs:490-492 | `check_nf_with` tests `(val & 0xf0) == 1`, which never holds, so N is always cleared | any value with bit 7 set, e.g. 0x80 | N follows bit 7 of the value | not executed | Alu.NegativeAsWrittenNeverHolds | Alu.NegativeIsSign |
| 6502/mos6502/cpu.rs:137-148 | ADC sets Z from the accumulator before the addition, and N from `a < 0` on a `u8`, which never holds | 0xFF + 0x01 = 0x00 leaves Z clear; 0x7F + 0x01 = 0x80 leaves N clear | Z and N from the sum | not executed | Alu.AdcFlagsAsWrittenDiffer | CpuProperties.AdcBinaryMode |
| 6502/mos6502/cpu.rs:161-166 | ASL does not shift the operand | ASL of 0x01 gives 0x01 | 0x02, with bit 7 into Carry | not executed | Alu.AslAsWrittenDiffers | Alu.Asl |
| 6502/mos6502/cpu.rs:180-186 | BIT compares masked bits with 1, so N and V are never raised | A = 0xFF, M = 0xC0 | N = bit 7 and V = bit 6 of M | not executed | Alu.BitTestAsWrittenDiffers | Alu.BitTest |
| 6502/mos6502/cpu.rs:359-368 | the carry test of ROL never holds | ROL of 0x80 leaves Carry clear | bit 7 goes to Carry | not executed | Alu.RolCarryAsWrittenNeverHolds | Alu.Rol |
| 6502/mos6502/cpu.rs:240-287 | INC/DEC/INX/INY/DEX/DEY call `check_zf_with` twice and never set N | DEC of 0x81 gives 0x80 with N clear | N from bit 7 of the result | not executed | CpuProperties.IncDecNegativeExample | CpuSemantics.WithNZ |
| 6502/mos6502/cpu.rs:472-478 | `compare` calls `check_zf_with` twice and never sets N | comparing 0 with 1 gives 0xFF with N clear | N from bit 7 of reg − M | not executed | CpuProperties.CompareNegativeExample | Alu.Compare |
| 6502/mos6502/cpu.rs:293-296 | JSR jumps without pushing the return address | JSR $1234 at 0x0600 pushes nothing, so a documented RTS afterwards returns to 0x0001 (the source's RTS stub leaves pc at 0x1234) | RTS returns to 0x0603 | not executed | CpuProperties.JsrAsWrittenLosesReturn | CpuProperties.JsrRtsRoundTrip |
| 6502/mos6502/cpu.rs:339-394 | PHA, PHP, PLA, PLP, RTI, RTS and SBC (and BRK, LAX, SAX, AXS) have empty bodies | PHA with A = 5 leaves the stack cell at 0 | the stack and arithmetic effects of the MCS6500 manual | not executed | CpuProperties.PhaAsWrittenStoresNothing | CpuProperties.PhaPlaRoundTrip |
| src/ppu.rs:170-175 | the NMI test is `control & 0x80 == 1`, which never holds | control = 0x80 at scanline 241, dot 1 | NMI when bit 7 of control is set on entering vblank | not executed | PpuDevice.NmiLostAsWritten | PpuDevice.StepNmiExactly |
| src/ppu.rs:170-184 | the NMI branch returns before the dot counter advances | with the test repaired, every later step stays at scanline 241, dot 1 | the counter advances on every step | not executed | PpuDevice.EarlyReturnStalls | PpuDevice.StepTicks |
| src/rom.rs:167-173 | the trainer is `data[16..512]`, 496 bytes | any file with bit 2 of byte 6 set | the 512 bytes `data[16..528]` | not executed | Cartridge.TrainerAsWrittenShort | Cartridge.Trainer |
