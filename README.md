# A Game Boy CPU and picture-unit core in Dafny

This project models the execution engine of a small Game Boy (Sharp LR35902)
emulator written in C++, and the register decoding of its picture unit.

**The CPU.** The model follows `src/cpu.cpp` as written, not the real hardware:
- eight 8-bit registers `A F B C D E H L`, each a cell the four 16-bit views
  `AF BC DE HL` read and write through;
- `pc` and `sp`, the `ime`, `halted` and `extended` flags, and `cycles`;
- a 64 KiB byte memory.

One step (`cycle`) does three things:
- reads the byte at `pc`;
- runs the body that the base table or, after a `0xCB` prefix, the extended
  table binds to that byte;
- increments `pc` unless `halted` is set.

The bodies of `JP a16`, `JP cc`, `JR`, `JR cc`, `CALL` and `RET` leave `pc`
one below their target, so that this increment lands on it.

The model has two layers:
- `Semantics` states every opcode body as a pure function on a `State` value;
- the class `Cpu.Cpu` holds the same state in fields and in the `Mmu.Mmu`
  byte array. Every method is proved to leave the object and the memory in
  exactly the state its `Semantics` function gives.

The ALU kernels (`Alu`) carry flag-exact contracts. `Properties` proves:
- what whole steps (`Semantics.Step`) do for prefixed pairs, HALT, jumps,
  call and return, restarts, `INC SP`/`DEC SP`, `LDH A,(a8)` and `POP AF`;
- what the opcode bodies `Inc8`, `Dec8`, `IncPair`, `DecPair`, `WithPair` and
  `AluA` do to the registers and flags, stated on those bodies rather than on
  a whole step;
- the stack round trips and the power-on state.

**The picture unit.** `Ppu` models `PPU::getBit`, `PPU::update` (tile-map
bases, the addressing mode and the palette decoding) and `PPU::setPixel`.
Every `getBit` call in `PPU::update` passes its arguments in the wrong order
(see "## Findings"). So the model has two readings of those calls:
- `AsWritten` is the code as it stands; the register byte is the shift amount;
- `Intended` is the corrected decode, which reads bit `n` of the register.

A pure function `UpdateMembers(v, memory, reading)` gives the new member
values. The class `Ppu.Ppu` updates its fields and palette arrays in place
and is proved to match that function for either reading. The lemmas state
each reading separately: `...AsWritten` and `...Differs` for the code, the
others for the corrected decode. The palette assignments are never reached
in either reading, because the `LCDC` member is 0 and nothing assigns it.
As written, every call shifts a small constant by the register byte, so a
register value of 32 or more is a shift C++ leaves undefined; the power-on
value 0x91 of 0xFF40 would reach it on a first update after initialize. The model gives
0 for those shifts (see Ppu.GetBit under "## Left out").

**Bodies that differ from the hardware, modelled as the code does them:**
- `ADD` never stores the sum.
- `ADC` always sets C.
- `CP` also sets Z when `A == 2r` (mod 256).
- `SET`/`RES` change a local copy.
- `INC (HL)`/`DEC (HL)` change only the flags.
- The immediate ALU opcodes 0xC6, 0xCE, 0xD6, 0xDE, 0xE6, 0xEE and 0xF6 read
  the opcode byte itself. `CP d8` (0xFE) reads the byte after it.
- `RET Z/NC/C` do not step over a byte when not taken, while `RET NZ` does.
- `0xEF` is `RST 7`.
- `RST` pushes the address of the RST opcode itself.
- `RST` ends the step one past its vector.
- `JP (HL)` ends the step at HL + 1.
- `0xF0` loads the constant 0x90.
- `POP AF` copies the raw byte into F.

**Two inconsistencies inside the source, resolved in favour of the code that runs:**
- `GB_MEMORY` is 65535, but the code reads and writes address 0xFFFF. The model
  gives the memory 65536 cells.
- The declaration in `cpu.h` names the `Register` constructor's parameters
  `(l, h)`, but `cpu.cpp` binds the first one to the high cell. The model
  follows `cpu.cpp`, so `A` is the high byte of `AF`.

Several helpers the code calls are not defined anywhere in the source: the
flag positions, the restart vectors, `MMU::get`/`set`, `formWord` and the bit
helpers. "## Left out" lists what the model assumes for each.

## Model

| member | source | states |
|---|---|---|
| Registers.Set | src/cpu.cpp:175-177 | writing one 8-bit cell (`reg1 = reg2` through a reference) changes that cell and no other |
| Registers.PairCellsDistinct | src/cpu.cpp:35-38 | the four `Register(&high, &low)` bindings, modelled by `HighCell`/`LowCell`, use eight different cells: no cell is bound twice, within one view or across two |
| Registers.EveryCellInAPair | src/cpu.cpp:35-38 | each of the eight cells is the high or the low cell of some view |
| Registers.SetRegister | src/cpu.cpp:19-22 | the high cell receives `value >> 8` and the low cell `value & 0xFF`; reading the pair back gives `value`; the other six cells are unchanged |
| Registers.SetRegisterOfGet | src/cpu.cpp:15-22 | writing back what a pair view reads leaves the register file unchanged |
| Registers.PairsAreDisjoint | src/cpu.cpp:35-38 | a write through one pair view is invisible through the other three, since their cells are disjoint |
| Bits.GetBit | src/mmu.h:18 | `getBit(b, n)` is 0 or 1, and is 1 exactly when bit `n` of `b` is set |
| Bits.SetBit | src/mmu.h:15 | bit `n` ends set; every other bit is kept |
| Bits.ClearBit | src/mmu.h:16 | bit `n` ends clear; every other bit is kept |
| Bits.ToggleBit | src/mmu.h:17 | bit `n` is inverted; every other bit is kept |
| Bits.PutBit | src/cpu.cpp:139-149 | the `cond ? setFlag : clearFlag` pattern: bit `n` ends equal to `cond`; every other bit is kept |
| Bits.FormWord | src/cpu.cpp:564 | `formWord(high, low)` has `high` as its high byte and `low` as its low byte |
| Bits.FormWordOfSplit | src/cpu.cpp:15-22 | splitting a word into its two bytes and forming it again gives the word back |
| Bits.ZeroExtend | src/cpu.cpp:204-211 | widening a byte gives a word with high byte 0 and low byte the byte |
| Addresses.WordOfBytes | src/cpu.cpp:156-166 | splitting an address into the bytes PUSHSTACK16 writes and forming it again gives it back |
| Addresses.BytesOfWord | src/cpu.cpp:568-574 | forming an address from two bytes and splitting it again gives the bytes back |
| Addresses.Signed | src/cpu.cpp:556-558 | `static_cast<int8_t>` maps a byte to -128..127, congruent to it modulo 256 |
| Alu.CarryIn | src/cpu.cpp:213-221 | the carry added by ADC/SBC is 1 exactly when C is set |
| Alu.Flags | src/cpu.cpp:139-149 | a flag update sets Z, N, H and C as given and keeps the low nibble of F |
| Alu.FlagsZnh | src/cpu.cpp:281-291 | sets Z, N and H as given; C and the low nibble are kept |
| Alu.FlagsNhc | src/cpu.cpp:197-202 | sets N, H and C as given; Z and the low nibble are kept |
| Alu.FlagsZc | src/cpu.cpp:139-149 | sets Z and C as given; the rest of F is kept |
| Alu.Add | src/cpu.cpp:189-195 | A is not changed; Z iff A + r wraps to 0; N clear; H iff the low nibble of r is 0xF; C iff A + r exceeds 0xFF |
| Alu.Adc | src/cpu.cpp:213-221 | A becomes A + r + carry (mod 256); Z iff it is 0; N clear; H iff the low nibble of r + carry is 0xF; C always set |
| Alu.Sub | src/cpu.cpp:223-230 | A becomes A - r (mod 256); Z iff A == r; N set; H iff the low nibble of A is below that of r; C iff the result is at least 0x80 |
| Alu.Sbc | src/cpu.cpp:232-240 | A becomes A - r - carry (mod 256); Z iff it is 0; N set; H by the low nibbles, C by the sign of the result |
| Alu.Cp | src/cpu.cpp:268-279 | A is kept; Z iff A == r or A == r + r (mod 256); N set; H iff A - r exceeds 0x0F; C iff A + (A - r) exceeds 0xFF |
| Alu.And | src/cpu.cpp:244-250 | each bit of the result is the AND of the operands' bits; Z iff the result is 0; N and C clear; H set |
| Alu.Or | src/cpu.cpp:252-258 | each bit of the result is the OR of the operands' bits; Z iff the result is 0; N, H and C clear |
| Alu.Xor | src/cpu.cpp:260-266 | each bit of the result is the XOR of the operands' bits; Z iff the operands are equal; N, H and C clear |
| Alu.Inc | src/cpu.cpp:281-291 | the result is the operand plus one (mod 256); Z iff the operand was 0xFF; N clear; H iff its low nibble was 0xF; C kept |
| Alu.Dec | src/cpu.cpp:301-311 | the result is the operand minus one (mod 256); Z iff the operand was 1; N set; H iff its low nibble was 0; C kept |
| Alu.AddHl | src/cpu.cpp:197-202 | HL becomes HL + v (mod 65536); N clear; H and C are computed from the new HL and v; Z kept |
| Alu.AddSp | src/cpu.cpp:204-211 | SP becomes SP + the unsigned byte (mod 65536); Z and N clear; H and C are computed from the new SP |
| Alu.LdHlSp | src/cpu.cpp:2242-2256 | HL becomes SP + the unsigned byte; Z and N clear; H and C are both set iff the sum, read as `int16_t`, exceeds 0x0FFF |
| Alu.Rlca | src/cpu.cpp:323-337 | rotates A left, bit 7 into bit 0 and into C; Z, N and H clear |
| Alu.Rrca | src/cpu.cpp:339-353 | rotates A right, bit 0 into bit 7 and into C; Z, N and H clear |
| Alu.Rla | src/cpu.cpp:360-372 | A shifts left with bit 0 cleared (the old carry does not enter it); C is the old bit 7; Z, N and H clear; F's low nibble kept |
| Alu.Rra | src/cpu.cpp:374-386 | A shifts right with bit 7 cleared (the old carry does not enter it); C is the old bit 0; Z, N and H clear; F's low nibble kept |
| Alu.Rlc | src/cpu.cpp:388-401 | the register rotates left (old bit 7 into bit 0 and C); Z is set exactly when bits 0..6 were all clear, since it is tested before bit 0 is restored; N and H and the low nibble kept |
| Alu.Rrc | src/cpu.cpp:435-448 | the register rotates right (old bit 0 into bit 7 and C); Z is set exactly when bits 1..7 were all clear, since it is tested before bit 7 is restored; N and H and the low nibble kept |
| Alu.Rl | src/cpu.cpp:403-417 | the old carry is put in bit 0 before the shift, so it lands in bit 1 and bit 0 ends clear; other bits move up one; Z tests the result; N, H clear; C is the old bit 7 |
| Alu.Rr | src/cpu.cpp:419-433 | the old carry is put in bit 7 before the shift, so it lands in bit 6 and bit 7 ends clear; other bits move down one; Z tests the result; N, H clear; C is the old bit 0 |
| Alu.Sla | src/cpu.cpp:450-463 | shifts left; C is bit 7 of the shifted byte |
| Alu.Sra | src/cpu.cpp:465-478 | shifts right with bit 7 ending clear |
| Alu.Srl | src/cpu.cpp:480-493 | shifts right, bit 7 clear; C is bit 1 of the operand |
| Alu.Swap | src/cpu.cpp:495-501 | exchanges the nibbles bit by bit; Z iff the operand is 0; N, H and C clear |
| Alu.TestBit | src/cpu.cpp:505-510 | Z iff the tested bit of the pair's low byte is clear; N clear; H set; C kept |
| Alu.Cpl | src/cpu.cpp:590-594 | every bit of A is inverted; N and H set; Z and C kept |
| Alu.Ccf | src/cpu.cpp:599-601 | C inverted, the other bits of F kept |
| Alu.Scf | src/cpu.cpp:603-605 | C set, the other bits of F kept |
| Mmu.Mmu.constructor | src/mmu.cpp:3-7 | the first `GB_MEMORY` cells are zero |
| Mmu.Mmu.Set | src/cpu.cpp:179-181 | stores the byte at the address and changes no other cell |
| Cpu.Cpu.WritePair | src/cpu.cpp:19-22 | the object's state becomes `Semantics.WithPair` of the old state |
| Cpu.Cpu.WriteCell | src/cpu.cpp:175-177 | the state becomes `Semantics.WithCell` of the old state |
| Cpu.Cpu.Write | src/cpu.cpp:179-181 | the state becomes `Semantics.Write`: one memory cell changed |
| Cpu.Cpu.ApplyA | src/cpu.cpp:223-230 | A and F take the kernel's result, nothing else changes |
| Cpu.Cpu.ApplyF | src/cpu.cpp:189-195 | F takes the kernel's flags, nothing else changes |
| Cpu.Cpu.PushStack16 | src/cpu.cpp:156-160 | the state becomes `Semantics.PushStack16`: high byte at `sp - 1`, low byte at `sp - 2`, `sp -= 2` |
| Cpu.Cpu.PopStack | src/cpu.cpp:162-166 | the state becomes `Semantics.PopStack`: high cell from `sp + 1`, low cell from `sp`, `sp += 2` |
| Cpu.Cpu.Jp | src/cpu.cpp:524-528 | `pc` becomes the immediate word minus one (mod 65536) |
| Cpu.Cpu.JpHl | src/cpu.cpp:530-532 | `pc` becomes HL |
| Cpu.Cpu.Jr | src/cpu.cpp:556-558 | `pc` advances by 1 plus the signed offset byte (mod 65536) |
| Cpu.Cpu.Call | src/cpu.cpp:560-566 | the state becomes `Semantics.Call`: `pc + 3` pushed, then `pc` set to the target minus one |
| Cpu.Cpu.Ret | src/cpu.cpp:568-574 | the state becomes `Semantics.Ret`: low byte at `sp`, high byte at `sp + 1`, `sp += 2`, `pc` the word minus one |
| Cpu.Cpu.JrIf | src/cpu.cpp:1277-1284 | JR when the condition holds, otherwise `pc++` |
| Cpu.Cpu.JpIf | src/cpu.cpp:1963-1970 | JP when the condition holds, otherwise `pc += 2` |
| Cpu.Cpu.CallIf | src/cpu.cpp:1976-1983 | CALL when the condition holds, otherwise `pc += 2` |
| Cpu.Cpu.RetIf | src/cpu.cpp:1950-1957 | RET when the condition holds, otherwise `pc` advances by the opcode's own skip (1 for RET NZ, 0 for the others) |
| Cpu.Cpu.Reti | src/cpu.cpp:2094-2097 | RET, then `ime` set |
| Cpu.Cpu.Rst | src/cpu.cpp:580-584 | pushes `pc` itself and sets `pc` to the vector |
| Cpu.Cpu.Inc8 | src/cpu.cpp:281-291 | the register and F take `Alu.Inc`'s result |
| Cpu.Cpu.Dec8 | src/cpu.cpp:301-311 | the register and F take `Alu.Dec`'s result |
| Cpu.Cpu.IncPair | src/cpu.cpp:293-295 | the pair becomes its value plus one (mod 65536) |
| Cpu.Cpu.DecPair | src/cpu.cpp:313-315 | the pair becomes its value minus one (mod 65536) |
| Cpu.Cpu.AddHlOp | src/cpu.cpp:197-202 | HL and F take `Alu.AddHl`'s result |
| Cpu.Cpu.AddSpOp | src/cpu.cpp:204-211 | `sp` and F take `Alu.AddSp`'s result for the byte at `pc`, and `pc++` |
| Cpu.Cpu.AluA | src/cpu.cpp:189-279 | A and F take the selected kernel's result |
| Cpu.Cpu.LoadImmediate | src/cpu.cpp:1168-1171 | the register takes the byte at `pc + 1`, and `pc++` |
| Cpu.Cpu.LoadImmediate16 | src/cpu.cpp:1147-1150 | the pair takes the word at `pc + 1`, and `pc += 2` |
| Cpu.Cpu.StoreIndirect | src/cpu.cpp:1152-1154 | A is stored at the address the pair holds |
| Cpu.Cpu.LoadIndirect | src/cpu.cpp:1185-1187 | A is loaded from the address the pair holds |
| Cpu.Cpu.StoreSp | src/cpu.cpp:1176-1179 | the overload of LD picked for a byte address: the low byte of `sp` is stored at the address `0x00NN`, where `NN` is the byte at the word `get(pc) << 8 \| get(pc + 1)`; then `pc += 2` |
| Cpu.Cpu.LoadSp | src/cpu.cpp:1365-1368 | `sp` takes the word at `pc + 1`, and `pc += 2` |
| Cpu.Cpu.IncIndirect | src/cpu.cpp:1379-1382 | only F changes, as INC of a copy of the byte at HL |
| Cpu.Cpu.DecIndirect | src/cpu.cpp:1384-1387 | only F changes, as DEC of a copy of the byte at HL |
| Cpu.Cpu.StoreImmediate | src/cpu.cpp:1389-1392 | the byte at `pc` is stored at HL, and `pc++` |
| Cpu.Cpu.StoreHigh | src/cpu.cpp:2134-2137 | A is stored at `0xFF00 + get(pc)`, and `pc++` |
| Cpu.Cpu.StoreHighC | src/cpu.cpp:2143-2145 | A is stored at `0xFF00 + C` |
| Cpu.Cpu.StoreAbsolute | src/cpu.cpp:2176-2179 | A is stored at the word at `pc + 1`, and `pc += 2` |
| Cpu.Cpu.LoadLy | src/cpu.cpp:2202-2211 | A becomes 0x90, and `pc++` |
| Cpu.Cpu.LoadHighC | src/cpu.cpp:2217-2219 | A is loaded from `0xFF00 + C` |
| Cpu.Cpu.LoadAbsolute | src/cpu.cpp:2262-2265 | A is loaded from the word at `pc + 1`, and `pc += 2` |
| Cpu.Cpu.CompareImmediate | src/cpu.cpp:2279-2290 | CP with the byte at `pc + 1`, and `pc++` |
| Cpu.Cpu.Opcodes0X | src/cpu.cpp:1143-1209 | each of Opcode0x00..0x0F changes the state exactly as its `Semantics` body says |
| Cpu.Cpu.Opcodes1X | src/cpu.cpp:1210-1276 | likewise for Opcode0x10..0x1F |
| Cpu.Cpu.Opcodes2X | src/cpu.cpp:1277-1355 | likewise for Opcode0x20..0x2F |
| Cpu.Cpu.Opcodes3X | src/cpu.cpp:1356-1435 | likewise for Opcode0x30..0x3F |
| Cpu.Cpu.Row0 | src/cpu.cpp:1143-1435 | Opcode0x00..0x3F |
| Cpu.Cpu.LoadRow | src/cpu.cpp:1436-1721 | `LD dst, src` by the opcode's bit fields, with HALT at 0x76 and 0x4E loading E |
| Cpu.Cpu.AluRow | src/cpu.cpp:1722-1949 | `OP src` by the opcode's bit fields, with 0x86 reading the opcode byte |
| Cpu.Cpu.AluImmediate | src/cpu.cpp:1989-1992 | the kernel applied to the byte at `pc` (the opcode itself), and `pc++` |
| Cpu.Cpu.LdHlSpOp | src/cpu.cpp:2242-2256 | HL and F take `Alu.LdHlSp`'s result, and `pc++` |
| Cpu.Cpu.OpcodesCX | src/cpu.cpp:1950-2042 | each of Opcode0xC0..0xCF as its `Semantics` body says |
| Cpu.Cpu.OpcodesDX | src/cpu.cpp:2043-2133 | likewise for Opcode0xD0..0xDF |
| Cpu.Cpu.OpcodesEX | src/cpu.cpp:2134-2201 | likewise for Opcode0xE0..0xEF |
| Cpu.Cpu.OpcodesFX | src/cpu.cpp:2202-2294 | likewise for Opcode0xF0..0xFF |
| Cpu.Cpu.Row3 | src/cpu.cpp:1950-2294 | Opcode0xC0..0xFF |
| Cpu.Cpu.Base | src/cpu.cpp:627-1142 | the base table binds each byte to its own opcode body |
| Cpu.Cpu.Execute | src/cpu.cpp:88-113 | the base table when `extended` is clear, otherwise an empty extended body with `extended` cleared; then `pc++` unless halted |
| Cpu.Cpu.Cycle | src/cpu.cpp:84-86 | executes the byte at `pc` |
| Cpu.Cpu.WriteTimerDefaults | src/cpu.cpp:44-46 | memory gets the timer defaults |
| Cpu.Cpu.WritePulseDefaults | src/cpu.cpp:47-53 | memory gets the sound channel 1 and 2 defaults |
| Cpu.Cpu.WriteWaveNoiseDefaults | src/cpu.cpp:54-61 | memory gets the sound channel 3 and 4 defaults |
| Cpu.Cpu.WriteSoundControlDefaults | src/cpu.cpp:62-64 | memory gets the sound control defaults |
| Cpu.Cpu.WriteVideoDefaults | src/cpu.cpp:65-73 | memory gets the video register defaults |
| Cpu.Cpu.WriteIoDefaults | src/cpu.cpp:44-74 | memory gets all the I/O writes of initialize in order, ending with 0xFFFF := 0; registers, counters and flags unchanged |
| Cpu.Cpu.ResetRegisters | src/cpu.cpp:33-43 | the registers become the power-on values; nothing else changes |
| Cpu.Cpu.ResetCounters | src/cpu.cpp:77-79 | `pc` becomes 0x100, `cycles` 0 and `sp` 0xFFFE; nothing else changes |
| Cpu.Cpu.Initialize | src/cpu.cpp:31-79 | the state becomes `Semantics.PowerOn` of the old state |
| Cpu.Cpu.constructor | src/cpu.cpp:24-27 | binds the memory unit and runs initialize |
| Properties.WrapAdd | src/cpu.cpp:112 | `uint16_t` increments compose: adding after a reduction equals reducing after the addition |
| Properties.ModuloInvariant | src/cpu.cpp:159 | adding a multiple of 65536 does not change a `uint16_t` value |
| Properties.OffsetCancels | src/cpu.cpp:524-528 | the `- 1` of a jump body and the step's `pc++` cancel, for every target |
| Properties.ExtendedStepIsEmpty | src/cpu.cpp:105-112 | with `extended` set, a step only clears `extended` and moves `pc` on by one unless halted |
| Properties.PrefixedPairIsEmpty | src/cpu.cpp:2017-2019 | `CB xx` moves `pc` on by two and changes nothing else |
| Properties.HaltStops | src/cpu.cpp:615-617 | HALT sets `halted`, after which a step changes nothing |
| Properties.HaltedForever | src/cpu.cpp:1653-1655 | after HALT, every number of further steps leaves the state as it is |
| Properties.JumpIfNotZero | src/cpu.cpp:1963-1970 | JP NZ: with Z set the step ends at `pc + 3`, with Z clear at `hi << 8 \| lo`; nothing else changes |
| Properties.RelativeJump | src/cpu.cpp:1244-1246 | JR: the step ends at `pc + 2 + offset`, the offset signed |
| Properties.StackPointerIncrement | src/cpu.cpp:297-299 | `INC SP` (Opcode0x33) ends with `sp + 1` mod 65536 and `pc + 1`, everything else (F included) unchanged; 0xFFFF wraps to 0 |
| Properties.StackPointerDecrement | src/cpu.cpp:317-319 | `DEC SP` (Opcode0x3B) ends with `sp - 1` mod 65536 and `pc + 1`, everything else (F included) unchanged; 0 wraps to 0xFFFF |
| Properties.StackCellsDiffer | src/cpu.cpp:157-158 | the two stack cells `sp - 1` and `sp - 2` are distinct, even when the address wraps |
| Properties.PushThenPop | src/cpu.cpp:156-166 | a POPSTACK after a PUSHSTACK16 gives the pushed word back in the pair and restores `sp`; the other registers are kept |
| Properties.ReturnStep | src/cpu.cpp:2004-2006 | RET ends the step at the word on the stack, low byte first, with `sp` two higher |
| Properties.CallPushes | src/cpu.cpp:560-566 | CALL writes `pc + 3` high byte at `sp - 1` and low byte at `sp - 2`, and reads the target after the two writes |
| Properties.CallLandsOnTarget | src/cpu.cpp:560-566 | CALL followed by the step's `pc++` leaves `pc` at the target word itself, with the return address on the stack |
| Properties.CallStep | src/cpu.cpp:2030-2032 | CALL pushes the address of the next instruction and ends the step at the target |
| Properties.ReturnUndoesCall | src/cpu.cpp:560-574 | reading back the two cells CALL wrote, two places up from the lowered `sp`, gives `pc + 3` and the old `sp` |
| Properties.CallThenReturn | src/cpu.cpp:560-574 | a RET at the target of a CALL returns to `pc + 3` with `sp` and the registers restored |
| Properties.JumpToHl | src/cpu.cpp:530-532 | JP (HL): the step ends at HL + 1, since the body sets `pc` to HL with no offset; nothing else changes |
| Properties.RestartStep | src/cpu.cpp:2292-2294 | RST 7 pushes `pc` itself and ends the step at 0x39 |
| Properties.Restart28IsRestart38 | src/cpu.cpp:2198-2200 | Opcode0xEF and Opcode0xFF are both RST 7 |
| Properties.RestartThenReturnRepeats | src/cpu.cpp:580-584 | a RET at the vector returns to the RST opcode itself, with `sp` restored |
| Properties.ReturnNotTaken | src/cpu.cpp:1950-2002 | RET NZ steps over two bytes when not taken, RET Z, RET NC and RET C over one |
| Properties.LoadHighIsConstant | src/cpu.cpp:2202-2211 | Opcode0xF0 sets A to 0x90 whatever the operand, and ends at `pc + 2` |
| Properties.PopAfTakesRawFlags | src/cpu.cpp:2213-2215 | POP AF copies the stacked byte into F unmasked, so F's low nibble can become nonzero |
| Properties.KeepsLowNibble | src/cpu.cpp:139-149 | a flag update confined to bits 4..7 keeps F's low nibble |
| Properties.KernelWritesFlagBitsOnly | src/cpu.cpp:189-279 | each of the accumulator kernels writes only F's bits 4..7 |
| Properties.AccumulatorKeepsLowNibble | src/cpu.cpp:189-279 | no accumulator operation changes F's low nibble |
| Properties.IncrementFlags | src/cpu.cpp:281-291 | INC r wraps; Z iff the result is 0; N clear; H iff the result's low nibble is 0; C and the other registers kept |
| Properties.DecrementFlags | src/cpu.cpp:301-311 | DEC r wraps; Z iff the result is 0; N set; H iff the result's low nibble is 0xF; C and the other registers kept |
| Properties.PairWriteKeepsFlags | src/cpu.cpp:19-22 | writing BC, DE or HL leaves F alone |
| Properties.PairIncrementKeepsFlags | src/cpu.cpp:293-295 | INC rr wraps and leaves F alone |
| Properties.PairDecrementKeepsFlags | src/cpu.cpp:313-315 | DEC rr wraps and leaves F alone |
| Properties.LogicFlags | src/cpu.cpp:244-266 | AND/OR/XOR store `A op r` in A; Z iff it is 0; N and C clear; H set iff AND; the other registers kept |
| Properties.PowerOnState | src/cpu.cpp:31-79 | after initialize: A=0x01, F=0xB0, B=0, C=0x13, D=0, E=0xD8, H=0x01, L=0x4D, `pc`=0x100, `sp`=0xFFFE, `cycles`=0; all 31 I/O writes of lines 44-74 are in place, each with its value; every cell not written keeps its content |
| Properties.PowerOnRegisterValues | src/cpu.cpp:33-43 | the four `setRegister` calls on the cleared file give A=0x01, F=0xB0, B=0, C=0x13, D=0, E=0xD8, H=0x01, L=0x4D |
| Properties.PowerOnMemoryCells | src/cpu.cpp:44-74 | after the I/O writes, each of the 31 written cells holds its value and every other cell is as before |
| Properties.SwapTwice | src/cpu.cpp:495-501 | SWAP undoes itself |
| Properties.ComplementTwice | src/cpu.cpp:590-594 | CPL undoes itself |
| Properties.ComplementCarryTwice | src/cpu.cpp:599-601 | CCF undoes itself |
| Ppu.GetBit | src/ppu.cpp:29-31 | `getBit(bit, address)` is always 0 or 1 |
| Ppu.GetBitReadsBit | src/ppu.cpp:29-31 | with the bit number first, `getBit(n, b)` is bit `n` of the byte `b` |
| Ppu.ReadBit | src/ppu.cpp:34-53 | one `getBit` call of update, in either reading, is 0 or 1 |
| Ppu.PaletteEntry | src/ppu.cpp:39-42 | in either reading, each decoded palette entry is a colour number 0..3 |
| Ppu.PaletteEntryIsField | src/ppu.cpp:39-42 | in the corrected reading of "## Findings", palette entry `i` is the two-bit field at bit `2i` of the register |
| Ppu.PaletteEntryAsWritten | src/ppu.cpp:39-42 | as written, with register byte `m`: every entry is 2 when `m` = 0; the odd entries are 3 and the even ones 0 when `m` = 1; entries 2 and 3 are 3 and the others 0 when `m` = 2; every entry is 0 for `m` = 3 to 31; from 32 up the shift is undefined and the model gives 0 |
| Ppu.UpdateTables | src/ppu.cpp:34-36 | in either reading, the update sets the background map from the reading of bit 3 of 0xFF40, the window map from bit 6 and the addressing mode from bit 4, whatever the previous state |
| Ppu.UpdateTileMaps | src/ppu.cpp:34-36 | in the corrected reading, the background map is 0x9C00 iff bit 3 of 0xFF40 is set, else 0x9800; the window map likewise by bit 6; the addressing mode is bit 4, so 0 or 1 |
| Ppu.UpdateTileMapsAsWritten | src/ppu.cpp:34-36 | as written, the background map is 0x9C00 iff 0xFF40 holds 0 or 1; the window map iff it holds 1 or 2; the addressing mode is 1 iff it holds 2, else 0; the values 3 to 31 give 0x9800, 0x9800 and 0; from 32 up the shift is undefined and the model gives the same |
| Ppu.UpdateBackgroundPalette | src/ppu.cpp:38-43 | in the corrected reading, with bit 0 of `LCDC` set, background entry `i` is bits 2i..2i+1 of 0xFF47; otherwise the palette is unchanged |
| Ppu.UpdateSpritePalettes | src/ppu.cpp:45-54 | in the corrected reading, with bit 1 of `LCDC` set, sprite entries 1..3 are bits 2i..2i+1 of 0xFF48 and 0xFF49; entry 0 is never written; otherwise unchanged |
| Ppu.UpdateKeepsPalettesWhileLcdcClear | src/ppu.cpp:38-45 | in either reading, with `LCDC` 0, which it is from construction on (ppu.h:13), update changes no palette and `LCDC` stays 0 |
| Ppu.BackgroundTableAsWrittenDiffers | src/ppu.cpp:34 | with 0xFF40 = 0x08 the call as written gives 0x9800 where bit 3 selects 0x9C00 |
| Ppu.WindowTableAsWrittenDiffers | src/ppu.cpp:35 | with 0xFF40 = 0x01 the call as written gives 0x9C00 where bit 6, being clear, selects 0x9800 |
| Ppu.AddressingModeAsWrittenDiffers | src/ppu.cpp:36 | with 0xFF40 = 0x10 the call as written gives mode 0 where bit 4 selects 1 |
| Ppu.PaletteAsWrittenDiffers | src/ppu.cpp:39-42 | the palette 0x1B decodes to 0, 0, 0, 0 as written, where its fields are 3, 2, 1, 0 |
| Ppu.Ppu.constructor | src/ppu.h:13-26 | `LCDC` is 0; the three palettes and the pixel buffer are fresh, distinct arrays of 4 and `GB_HEIGHT * GB_WIDTH` cells |
| Ppu.Ppu.SetPixel | src/ppu.cpp:18-21 | `colour` is written at index `y * GB_WIDTH + x` and every other cell is kept |
| Ppu.Ppu.SelectTables | src/ppu.cpp:34-36 | the two tile-map members and the addressing mode take the values of the given reading; no other member changes |
| Ppu.Ppu.DecodeBackgroundPalette | src/ppu.cpp:39-42 | the four background entries become the register decoded in the given reading; no other member changes |
| Ppu.Ppu.DecodeSpritePalette | src/ppu.cpp:47-49 | sprite entries 1..3 become the register decoded in the given reading, and entry 0 is kept |
| Ppu.Ppu.DecodeSpritePalettes | src/ppu.cpp:47-53 | both sprite palettes are decoded from 0xFF48 and 0xFF49 in the given reading; no other member changes |
| Ppu.Ppu.Update | src/ppu.cpp:33-55 | the members become `UpdateMembers` of the old members, the memory and the reading: with `AsWritten` what the code computes, with `Intended` the corrected decode |

## Left out

- Trace logging: the `debug.txt` stream, the register dump and the step counter of `execute`, and `getFlags` printing. These are file and console output with no effect on the state.
- `DAA`, `STOP` and the `RETI` helper print or do nothing, and are modelled as doing nothing. `Opcode0xD9` is RET followed by `ime = true`, as written.
- The 256 extended opcodes are empty bodies, modelled as such. No bit, shift or rotate of the extended set is reachable.
- There is no interrupt controller and no timer. `cycles` is set once by initialize and never advanced.
- `JP(int)`, with its fall-through `switch`, and `POPSTACK16` are not bound to any opcode, so they are not part of this model.
- `bindOpcodes` is modelled as the dispatch in `Semantics.Base`: each byte selects its own `Opcode0x..` body.
- main.cpp (the SDL/ImGui window and event loop) is not part of this model.
- The picture unit's constructor, destructor and `render` are SDL calls, and `pixelbufferReady` is only read by `render`. None is part of this model.
- `MMU::load` reads a file into memory and is not part of this model; any memory contents may be the starting state.
- `PrintMessage` from helpers.cpp is console output.
- `GB_MEMORY` is 65535, one cell short of the addresses the code uses (initialize writes 0xFFFF, and `cycle` can read it). The model gives memory 65536 cells so every 16-bit address has one.
- Mmu.Mmu.constructor: `memset` clears only the first `GB_MEMORY` cells, so the constructor promises nothing about cell 0xFFFF.
- Cpu.Cpu.constructor: neither `CPU::CPU` (cpu.cpp:24-27) nor `initialize` (cpu.cpp:31-79) assigns `ime`, `halted` or `extended`, and the declaration of `CPU` is not part of this model, so the constructor promises nothing about their values.
- Ppu.Ppu.constructor: the tile-map and addressing-mode members and the palette arrays are indeterminate before the first update, so only `LCDC = 0` is promised.
- Ppu.GetBit: a shift by 32 or more is undefined in C++; the model gives 0 for every bit number from 16 up, where the `uint16_t` operand has no bits.
- Ppu.PaletteEntryIsField: states the corrected reading only. The code's own decode is stated by Ppu.PaletteEntryAsWritten and Ppu.PaletteAsWrittenDiffers.
- Ppu.UpdateBackgroundPalette: states the corrected reading only. Under either reading the assignment is never reached, since `LCDC` stays 0 (Ppu.UpdateKeepsPalettesWhileLcdcClear). The code's entries are given by Ppu.PaletteEntryAsWritten.
- Ppu.UpdateSpritePalettes: states the corrected reading only, for the same reasons as Ppu.UpdateBackgroundPalette.
- Ppu.UpdateTileMaps: states the corrected reading only. The code's values are stated by Ppu.UpdateTileMapsAsWritten.
- The flag positions `FLAG_Z`, `FLAG_N`, `FLAG_H` and `FLAG_C` are used but defined nowhere in the source. The model assumes bits 7, 6, 5 and 4, the LR35902 layout.
- `RSTJumpVectors` (used at cpu.cpp:582) is defined nowhere in the source. The model assumes 0x00, 0x08, …, 0x38, indexed by the argument of `RST`.
- `MMU::get` and `MMU::set` are declared at mmu.h:12-13 but have no body in the source. The model assumes a plain read and a plain store of `memory[address]`.
- `formWord` (called at cpu.cpp:169, 564, 573 and 583) is defined nowhere in the source. The model assumes `formWord(high, low) = high << 8 | low` (Bits.FormWord).
- The bit helpers are called as `mmu->getBit`, `setBit` and `clearBit` (cpu.cpp:140-148). mmu.h:15-18 declares them as `GetBit`, `SetBit`, `ClearBit` and `ToggleBit`, and no body exists. The model assumes: test, set, clear and invert bit `n` of the byte (Bits.GetBit, Bits.SetBit, Bits.ClearBit, Bits.ToggleBit).
- Ppu.Ppu.SetPixel: the index is computed as `int16_t`. The precondition keeps it inside the buffer (at most 23039), so the truncation never takes effect, and out-of-range writes are not modelled.

## Findings

| source | as written | input that shows it | evidently intended | confidence | as-written member | corrected member |
|---|---|---|---|---|---|---|
| src/ppu.cpp:34 | `getBit(memory[0xFF40], 3)` passes the register byte as the bit number, but `getBit(uint8_t bit, uint16_t address)` takes the bit number first, so it computes `(3 >> memory[0xFF40]) & 1` | `memory[0xFF40] = 0x08` (bit 3 set) gives `backgroundTable = 0x9800`; `memory[0xFF40] = 0x00` gives 0x9C00 | read bit 3 of the register: `getBit(3, memory[0xFF40])` | not executed | Ppu.BackgroundTableAsWrittenDiffers | Ppu.UpdateTileMaps |
| src/ppu.cpp:35 | the same swap computes `(6 >> memory[0xFF40]) & 1`, which is 1 only for the values 1 and 2 | `memory[0xFF40] = 0x01` (bit 6 clear) gives `windowTable = 0x9C00` | read bit 6 of the register | not executed | Ppu.WindowTableAsWrittenDiffers | Ppu.UpdateTileMaps |
| src/ppu.cpp:36 | the same swap computes `(4 >> memory[0xFF40]) & 1`, which is 1 only for the value 2 | `memory[0xFF40] = 0x10` (bit 4 set) gives `addressingMode = 0` | read bit 4 of the register | not executed | Ppu.AddressingModeAsWrittenDiffers | Ppu.UpdateTileMaps |
| src/ppu.cpp:39-53 | each palette entry computes `((2i >> m) & 1) \| (((2i+1) >> m) & 1) << 1` with `m` the register byte, which is 0 for `m` = 3 to 31; from 32 up the shift is undefined and the model gives 0. These lines are never reached, while `LCDC` stays 0 | the palette 0x1B (fields 3, 2, 1, 0) decodes to 0, 0, 0, 0 | entry `i` is bits 2i..2i+1 of the register | not executed | Ppu.PaletteAsWrittenDiffers | Ppu.PaletteEntryIsField |
