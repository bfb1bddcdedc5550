/** The meaning of one CPU step as a pure function on the whole machine state:
    the register file, `pc`, `sp`, the `ime`/`halted`/`extended` flags,
    `cycles` and the 64 KiB memory. The `Cpu` class is proved to change its
    fields and the memory array exactly as these functions say. */
module Semantics {
  import opened Bits
  import opened Registers
  import opened Alu
  import opened Definitions
  import opened Addresses

  /** The contents of the whole address space. */
  type Memory = s: seq<bv8> | |s| == ADDRESS_SPACE witness seq(ADDRESS_SPACE, _ => 0)

  datatype State = State(
    regs: Regs,
    pc: Address,
    sp: Address,
    ime: bool,
    halted: bool,
    extended: bool,
    cycles: nat,
    mem: Memory)

  // ---------------------------------------------------------------- access helpers

  /** `mmu->get(address)`. */
  function Read(s: State, address: Address): bv8
  {
    s.mem[address]
  }

  /** `mmu->set(address, value)`. */
  function Write(s: State, address: Address, value: bv8): State
  {
    s.(mem := s.mem[address := value])
  }

  /** `X.getRegister()` for a pair view. */
  function Pair(s: State, p: Pair): bv16
  {
    GetRegister(s.regs, p)
  }

  /** `X.getRegister()` used as an address. */
  function PairAddress(s: State, p: Pair): Address
  {
    Word(Get(s.regs, HighCell(p)), Get(s.regs, LowCell(p)))
  }

  /** `X.setRegister(value)` for a pair view. */
  function WithPair(s: State, p: Pair, value: bv16): State
  {
    s.(regs := SetRegister(s.regs, p, value))
  }

  /** Assignment to one 8-bit register. */
  function WithCell(s: State, x: Reg8, value: bv8): State
  {
    s.(regs := Set(s.regs, x, value))
  }

  /** A and F after an accumulator operation. */
  function WithA(s: State, o: Out8): State
  {
    s.(regs := s.regs.(a := o.v, f := o.f))
  }

  /** F after an operation that only sets flags. */
  function WithF(s: State, f: bv8): State
  {
    s.(regs := s.regs.(f := f))
  }

  /** `pc += n`, wrapping around. */
  function Advance(s: State, n: nat): State
    requires n <= 3
  {
    s.(pc := Wrap(s.pc + n))
  }

  /** `get(pc + k)`: the byte `k` places after the opcode. */
  function Fetch(s: State, k: nat): bv8
    requires k <= 3
  {
    Read(s, Wrap(s.pc + k))
  }

  /** `formWord(get(pc + 2), get(pc + 1))` as a register value. */
  function Immediate16(s: State): bv16
  {
    FormWord(Fetch(s, 2), Fetch(s, 1))
  }

  /** `formWord(get(pc + 2), get(pc + 1))` as an address. */
  function ImmediateAddress(s: State): Address
  {
    Word(Fetch(s, 2), Fetch(s, 1))
  }

  function Z(s: State): bool { FlagZ(s.regs.f) }
  function Cy(s: State): bool { FlagC(s.regs.f) }

  // ---------------------------------------------------------------- stack

  /** CPU::PUSHSTACK16: the high byte at `sp - 1`, the low byte at `sp - 2`, then `sp -= 2`. */
  function PushStack16(s: State, w: Address): State
  {
    var s1 := Write(s, Wrap(s.sp - 1), HighByte(w));
    var s2 := Write(s1, Wrap(s.sp - 2), LowByte(w));
    s2.(sp := Wrap(s.sp - 2))
  }

  /** CPU::POPSTACK: the pair's high cell from `sp + 1`, its low cell from `sp`, then `sp += 2`. */
  function PopStack(s: State, p: Pair): State
  {
    var high := Read(s, Wrap(s.sp + 1));
    var low := Read(s, s.sp);
    s.(regs := Set(Set(s.regs, HighCell(p), high), LowCell(p), low), sp := Wrap(s.sp + 2))
  }

  // ---------------------------------------------------------------- jumps, calls, returns

  /** CPU::JP(): `pc` becomes the immediate word minus one, for the step's increment to land on it. */
  function Jp(s: State): State
  {
    s.(pc := Wrap(ImmediateAddress(s) - 1))
  }

  /** CPU::JP_HL: `pc := HL` (with no offset, so the step ends at HL + 1). */
  function JpHl(s: State): State
  {
    s.(pc := PairAddress(s, HL))
  }

  /** CPU::JR: `pc += 1 + (int8_t) get(pc + 1)`. */
  function Jr(s: State): State
  {
    s.(pc := Wrap(s.pc + 1 + Signed(Fetch(s, 1))))
  }

  /** CPU::CALL: pushes `pc + 3`, then reads the target from the bytes after the
      opcode (after the two stack writes, so from the memory they leave) and
      sets `pc` to the target minus one, as JP does. */
  function Call(s: State): State
  {
    Jp(PushStack16(s, Wrap(s.pc + 3)))
  }

  /** CPU::RET: the low byte at `sp`, `sp++`, the high byte at the new `sp`,
      `sp++`; `pc` becomes that word minus one. */
  function Ret(s: State): State
  {
    var low := Read(s, s.sp);
    var s1 := s.(sp := Wrap(s.sp + 1));
    var high := Read(s1, s1.sp);
    s1.(sp := Wrap(s1.sp + 1), pc := Wrap(Word(high, low) - 1))
  }

  /** A conditional relative jump: JR when `taken`, otherwise `pc++` past the offset. */
  function JrIf(s: State, taken: bool): State
  {
    if taken then Jr(s) else Advance(s, 1)
  }

  /** A conditional absolute jump: JP when `taken`, otherwise `pc += 2` past the target. */
  function JpIf(s: State, taken: bool): State
  {
    if taken then Jp(s) else Advance(s, 2)
  }

  /** A conditional call: CALL when `taken`, otherwise `pc += 2` past the target. */
  function CallIf(s: State, taken: bool): State
  {
    if taken then Call(s) else Advance(s, 2)
  }

  /** A conditional return: RET when `taken`, otherwise `pc += skip` (RET NZ
      skips one byte when not taken, RET Z, RET NC and RET C skip none). */
  function RetIf(s: State, taken: bool, skip: nat): State
    requires skip <= 1
  {
    if taken then Ret(s) else Advance(s, skip)
  }

  /** `RSTJumpVectors`, indexed by the argument of RST. */
  const RST_VECTORS: seq<bv8> := [0x00, 0x08, 0x10, 0x18, 0x20, 0x28, 0x30, 0x38]

  /** CPU::RST: pushes the current `pc` and sets `pc` to the vector (no offset,
      so the step ends one past the vector). */
  function Rst(s: State, vec: nat): State
    requires vec < |RST_VECTORS|
  {
    PushStack16(s, s.pc).(pc := Word(0, RST_VECTORS[vec]))
  }

  // ---------------------------------------------------------------- register operations

  /** CPU::INC(uint8_t&) on a register other than F. */
  function Inc8(s: State, x: Reg8): State
    requires x != F
  {
    var o := Inc(Get(s.regs, x), s.regs.f);
    s.(regs := Set(Set(s.regs, x, o.v), F, o.f))
  }

  /** CPU::DEC(uint8_t&) on a register other than F. */
  function Dec8(s: State, x: Reg8): State
    requires x != F
  {
    var o := Dec(Get(s.regs, x), s.regs.f);
    s.(regs := Set(Set(s.regs, x, o.v), F, o.f))
  }

  /** CPU::INC(Register): the pair plus one, no flags. */
  function IncPair(s: State, p: Pair): State
  {
    WithPair(s, p, Pair(s, p) + 1)
  }

  /** CPU::DEC(Register): the pair minus one, no flags. */
  function DecPair(s: State, p: Pair): State
  {
    WithPair(s, p, Pair(s, p) - 1)
  }

  /** CPU::ADD_HL(v). */
  function AddHlOp(s: State, v: bv16): State
  {
    var o := AddHl(Pair(s, HL), s.regs.f, v);
    WithF(WithPair(s, HL, o.w), o.f)
  }

  /** CPU::ADD_SP: the operand is the byte at `pc`, read before `pc` is incremented. */
  function AddSpOp(s: State): State
  {
    var o := AddSp(ToWord(s.sp), s.regs.f, Fetch(s, 0));
    WithF(Advance(s, 1).(sp := ToAddress(o.w)), o.f)
  }

  /** The eight accumulator operations, in the order of opcode rows 0x80..0xBF. */
  datatype AluOp = ADD | ADC | SUB | SBC | AND | XOR | OR | CP

  function Kernel(op: AluOp, a: bv8, f: bv8, r: bv8): Out8
  {
    match op
    case ADD => Add(a, f, r)
    case ADC => Adc(a, f, r)
    case SUB => Sub(a, f, r)
    case SBC => Sbc(a, f, r)
    case AND => And(a, f, r)
    case XOR => Xor(a, f, r)
    case OR => Or(a, f, r)
    case CP => Cp(a, f, r)
  }

  /** `OP(r)` for an accumulator operation. */
  function AluA(s: State, op: AluOp, r: bv8): State
  {
    WithA(s, Kernel(op, s.regs.a, s.regs.f, r))
  }

  // ---------------------------------------------------------------- opcode table 0x00..0x3F

  /** `LD r, d8`: the byte after the opcode, then `pc++`. */
  function LoadImmediate(s: State, x: Reg8): State
  {
    Advance(WithCell(s, x, Fetch(s, 1)), 1)
  }

  /** `LD rr, d16`: the word after the opcode, then `pc += 2`. */
  function LoadImmediate16(s: State, p: Pair): State
  {
    Advance(WithPair(s, p, Immediate16(s)), 2)
  }

  /** `LD (rr), A`: A stored at the address in a pair. */
  function StoreIndirect(s: State, p: Pair): State
  {
    Write(s, PairAddress(s, p), s.regs.a)
  }

  /** `LD A, (rr)`: A loaded from the address in a pair. */
  function LoadIndirect(s: State, p: Pair): State
  {
    WithCell(s, A, Read(s, PairAddress(s, p)))
  }

  /** Opcode0x08 as written: the byte at the word formed from `get(pc)` (high)
      and `get(pc + 1)` (low) is used as the address, and the low byte of `sp`
      is stored there; then `pc += 2`. */
  function StoreSp(s: State): State
  {
    var target := Word(0, Read(s, Word(Fetch(s, 0), Fetch(s, 1))));
    Advance(Write(s, target, LowByte(s.sp)), 2)
  }

  /** Opcode0x31: `sp` takes the word after the opcode, then `pc += 2`. */
  function LoadSp(s: State): State
  {
    Advance(s.(sp := ImmediateAddress(s)), 2)
  }

  /** Opcode0x34: INC on a copy of the byte at HL, so only F changes. */
  function IncIndirect(s: State): State
  {
    WithF(s, Inc(Read(s, PairAddress(s, HL)), s.regs.f).f)
  }

  /** Opcode0x35: DEC on a copy of the byte at HL, so only F changes. */
  function DecIndirect(s: State): State
  {
    WithF(s, Dec(Read(s, PairAddress(s, HL)), s.regs.f).f)
  }

  /** Opcode0x36: the byte at `pc` stored at HL, then `pc++`. */
  function StoreImmediate(s: State): State
  {
    Advance(Write(s, PairAddress(s, HL), Fetch(s, 0)), 1)
  }

  /** Opcode0x00..Opcode0x0F. */
  function Opcodes0X(s: State, op: bv8): State
    requires 0x00 <= op <= 0x0F
  {
    match op
    case 0x00 => s
    case 0x01 => LoadImmediate16(s, BC)
    case 0x02 => StoreIndirect(s, BC)
    case 0x03 => IncPair(s, BC)
    case 0x04 => Inc8(s, B)
    case 0x05 => Dec8(s, B)
    case 0x06 => LoadImmediate(s, B)
    case 0x07 => WithA(s, Rlc(s.regs.a, s.regs.f))
    case 0x08 => StoreSp(s)
    case 0x09 => AddHlOp(s, Pair(s, BC))
    case 0x0A => LoadIndirect(s, BC)
    case 0x0B => DecPair(s, BC)
    case 0x0C => Inc8(s, C)
    case 0x0D => Dec8(s, C)
    case 0x0E => LoadImmediate(s, C)
    case 0x0F => WithA(s, Rrca(s.regs.a, s.regs.f))
  }

  /** Opcode0x10..Opcode0x1F. */
  function Opcodes1X(s: State, op: bv8): State
    requires 0x10 <= op <= 0x1F
  {
    match op
    case 0x10 => s
    case 0x11 => LoadImmediate16(s, DE)
    case 0x12 => StoreIndirect(s, DE)
    case 0x13 => IncPair(s, DE)
    case 0x14 => Inc8(s, D)
    case 0x15 => Dec8(s, D)
    case 0x16 => LoadImmediate(s, D)
    case 0x17 => WithA(s, Rla(s.regs.a, s.regs.f))
    case 0x18 => Jr(s)
    case 0x19 => AddHlOp(s, Pair(s, DE))
    case 0x1A => LoadIndirect(s, DE)
    case 0x1B => DecPair(s, DE)
    case 0x1C => Inc8(s, E)
    case 0x1D => Dec8(s, E)
    case 0x1E => LoadImmediate(s, E)
    case 0x1F => WithA(s, Rr(s.regs.a, s.regs.f))
  }

  /** Opcode0x20..Opcode0x2F. */
  function Opcodes2X(s: State, op: bv8): State
    requires 0x20 <= op <= 0x2F
  {
    match op
    case 0x20 => JrIf(s, !Z(s))
    case 0x21 => LoadImmediate16(s, HL)
    case 0x22 => IncPair(StoreIndirect(s, HL), HL)
    case 0x23 => IncPair(s, HL)
    case 0x24 => Inc8(s, H)
    case 0x25 => Dec8(s, H)
    case 0x26 => LoadImmediate(s, H)
    case 0x27 => s
    case 0x28 => JrIf(s, Z(s))
    case 0x29 => AddHlOp(s, Pair(s, HL))
    case 0x2A => IncPair(LoadIndirect(s, HL), HL)
    case 0x2B => DecPair(s, HL)
    case 0x2C => Inc8(s, L)
    case 0x2D => Dec8(s, L)
    case 0x2E => LoadImmediate(s, L)
    case 0x2F => WithA(s, Cpl(s.regs.a, s.regs.f))
  }

  /** Opcode0x30..Opcode0x3F. */
  function Opcodes3X(s: State, op: bv8): State
    requires 0x30 <= op <= 0x3F
  {
    match op
    case 0x30 => JrIf(s, !Cy(s))
    case 0x31 => LoadSp(s)
    case 0x32 => DecPair(StoreIndirect(s, HL), HL)
    case 0x33 => s.(sp := Wrap(s.sp + 1))
    case 0x34 => IncIndirect(s)
    case 0x35 => DecIndirect(s)
    case 0x36 => StoreImmediate(s)
    case 0x37 => WithF(s, Scf(s.regs.f))
    case 0x38 => JrIf(s, Cy(s))
    case 0x39 => AddHlOp(s, ToWord(s.sp))
    case 0x3A => DecPair(LoadIndirect(s, HL), HL)
    case 0x3B => s.(sp := Wrap(s.sp - 1))
    case 0x3C => Inc8(s, A)
    case 0x3D => Dec8(s, A)
    case 0x3E => LoadImmediate(s, A)
    case 0x3F => WithF(s, Ccf(s.regs.f))
  }

  /** Opcode0x00..Opcode0x3F (cpu.cpp:1143-1435), before the step's increment. */
  function Row0(s: State, op: bv8): State
    requires op < 0x40
  {
    if op < 0x10 then Opcodes0X(s, op)
    else if op < 0x20 then Opcodes1X(s, op)
    else if op < 0x30 then Opcodes2X(s, op)
    else Opcodes3X(s, op)
  }

  // ---------------------------------------------------------------- opcode rows 0x40..0xBF

  /** The register an operand field 0..7 names, for every field but 6, which names `(HL)`. */
  function CellOf(k: bv8): Reg8
    requires k < 8 && k != 6
  {
    match k
    case 0 => B
    case 1 => C
    case 2 => D
    case 3 => E
    case 4 => H
    case 5 => L
    case 7 => A
  }

  /** The value an operand field 0..7 names: B, C, D, E, H, L, the byte at HL, A. */
  function Operand(s: State, k: bv8): bv8
    requires k < 8
  {
    if k == 6 then Read(s, PairAddress(s, HL)) else Get(s.regs, CellOf(k))
  }

  /** Opcode0x40..Opcode0x7F (cpu.cpp:1436-1721): `LD dst, src` with the
      destination in bits 3..5 and the source in bits 0..2, except that 0x76
      is HALT and 0x4E loads the byte at HL into E instead of C. */
  function LoadRow(s: State, op: bv8): State
    requires 0x40 <= op < 0x80
  {
    if op == 0x76 then s.(halted := true)
    else if op == 0x4E then WithCell(s, E, Read(s, PairAddress(s, HL)))
    else
      var dst := (op >> 3) & 7;
      var v := Operand(s, op & 7);
      if dst == 6 then Write(s, PairAddress(s, HL), v) else WithCell(s, CellOf(dst), v)
  }

  /** The accumulator operation bits 3..5 of an opcode in 0x80..0xBF select. */
  function AluOpOf(k: bv8): AluOp
    requires k < 8
  {
    match k
    case 0 => ADD
    case 1 => ADC
    case 2 => SUB
    case 3 => SBC
    case 4 => AND
    case 5 => XOR
    case 6 => OR
    case 7 => CP
  }

  /** Opcode0x80..Opcode0xBF (cpu.cpp:1722-1949): `OP src`, except that 0x86
      adds the byte at `pc` (the opcode itself) and then skips a byte. */
  function AluRow(s: State, op: bv8): State
    requires 0x80 <= op < 0xC0
  {
    if op == 0x86 then Advance(AluA(s, ADD, Fetch(s, 0)), 1)
    else AluA(s, AluOpOf((op >> 3) & 7), Operand(s, op & 7))
  }

  // ---------------------------------------------------------------- opcode table 0xC0..0xFF

  /** `OP d8` as the code writes it: the operand is the byte at `pc`, then `pc++`. */
  function AluImmediate(s: State, op: AluOp): State
  {
    Advance(AluA(s, op, Fetch(s, 0)), 1)
  }

  /** Opcode0xF8: HL := SP + the byte at `pc`, flags from the signed sum, `pc++`. */
  function LdHlSpOp(s: State): State
  {
    var o := LdHlSp(ToWord(s.sp), s.regs.f, Fetch(s, 0));
    Advance(WithF(WithPair(s, HL, o.w), o.f), 1)
  }

  /** Opcode0xD9: RET, then `ime = true`. */
  function Reti(s: State): State
  {
    Ret(s).(ime := true)
  }

  /** Opcode0xE0: A stored at `0xFF00 + get(pc)` (page 0xFF, offset the byte), then `pc++`. */
  function StoreHigh(s: State): State
  {
    Advance(Write(s, Word(0xFF, Fetch(s, 0)), s.regs.a), 1)
  }

  /** Opcode0xE2: A stored at `0xFF00 + C`. */
  function StoreHighC(s: State): State
  {
    Write(s, Word(0xFF, s.regs.c), s.regs.a)
  }

  /** Opcode0xEA: A stored at the word after the opcode, then `pc += 2`. */
  function StoreAbsolute(s: State): State
  {
    Advance(Write(s, ImmediateAddress(s), s.regs.a), 2)
  }

  /** Opcode0xF0 as written: A takes the constant 0x90 (the scanline value
      the code hard-codes in place of reading LY), then `pc++`. */
  function LoadLy(s: State): State
  {
    Advance(WithCell(s, A, 0x90), 1)
  }

  /** Opcode0xF2: A loaded from `0xFF00 + C`. */
  function LoadHighC(s: State): State
  {
    WithCell(s, A, Read(s, Word(0xFF, s.regs.c)))
  }

  /** Opcode0xFA: A loaded from the word after the opcode, then `pc += 2`. */
  function LoadAbsolute(s: State): State
  {
    Advance(WithCell(s, A, Read(s, ImmediateAddress(s))), 2)
  }

  /** Opcode0xFE: CP with the byte at `pc + 1`, then `pc++`. */
  function CompareImmediate(s: State): State
  {
    Advance(AluA(s, CP, Fetch(s, 1)), 1)
  }

  /** Opcode0xC0..Opcode0xCF. */
  function OpcodesCX(s: State, op: bv8): State
    requires 0xC0 <= op <= 0xCF
  {
    match op
    case 0xC0 => RetIf(s, !Z(s), 1)
    case 0xC1 => PopStack(s, BC)
    case 0xC2 => JpIf(s, !Z(s))
    case 0xC3 => Jp(s)
    case 0xC4 => CallIf(s, !Z(s))
    case 0xC5 => PushStack16(s, PairAddress(s, BC))
    case 0xC6 => AluImmediate(s, ADD)
    case 0xC7 => Rst(s, 0)
    case 0xC8 => RetIf(s, Z(s), 0)
    case 0xC9 => Ret(s)
    case 0xCA => JpIf(s, Z(s))
    case 0xCB => s.(extended := true)
    case 0xCC => CallIf(s, Z(s))
    case 0xCD => Call(s)
    case 0xCE => AluImmediate(s, ADC)
    case 0xCF => Rst(s, 1)
  }

  /** Opcode0xD0..Opcode0xDF. */
  function OpcodesDX(s: State, op: bv8): State
    requires 0xD0 <= op <= 0xDF
  {
    match op
    case 0xD0 => RetIf(s, !Cy(s), 0)
    case 0xD1 => PopStack(s, DE)
    case 0xD2 => JpIf(s, !Cy(s))
    case 0xD3 => s
    case 0xD4 => CallIf(s, !Cy(s))
    case 0xD5 => PushStack16(s, PairAddress(s, DE))
    case 0xD6 => AluImmediate(s, SUB)
    case 0xD7 => Rst(s, 2)
    case 0xD8 => RetIf(s, Cy(s), 0)
    case 0xD9 => Reti(s)
    case 0xDA => JpIf(s, Cy(s))
    case 0xDB => s
    case 0xDC => CallIf(s, Cy(s))
    case 0xDD => s
    case 0xDE => AluImmediate(s, SBC)
    case 0xDF => Rst(s, 3)
  }

  /** Opcode0xE0..Opcode0xEF. */
  function OpcodesEX(s: State, op: bv8): State
    requires 0xE0 <= op <= 0xEF
  {
    match op
    case 0xE0 => StoreHigh(s)
    case 0xE1 => PopStack(s, HL)
    case 0xE2 => StoreHighC(s)
    case 0xE3 => s
    case 0xE4 => s
    case 0xE5 => PushStack16(s, PairAddress(s, HL))
    case 0xE6 => AluImmediate(s, AND)
    case 0xE7 => Rst(s, 4)
    case 0xE8 => AddSpOp(s)
    case 0xE9 => JpHl(s)
    case 0xEA => StoreAbsolute(s)
    case 0xEB => s
    case 0xEC => s
    case 0xED => s
    case 0xEE => AluImmediate(s, XOR)
    case 0xEF => Rst(s, 7)
  }

  /** Opcode0xF0..Opcode0xFF. */
  function OpcodesFX(s: State, op: bv8): State
    requires 0xF0 <= op <= 0xFF
  {
    match op
    case 0xF0 => LoadLy(s)
    case 0xF1 => PopStack(s, AF)
    case 0xF2 => LoadHighC(s)
    case 0xF3 => s.(ime := false)
    case 0xF4 => s
    case 0xF5 => PushStack16(s, PairAddress(s, AF))
    case 0xF6 => AluImmediate(s, OR)
    case 0xF7 => Rst(s, 6)
    case 0xF8 => LdHlSpOp(s)
    case 0xF9 => s.(sp := PairAddress(s, HL))
    case 0xFA => LoadAbsolute(s)
    case 0xFB => s.(ime := true)
    case 0xFC => s
    case 0xFD => s
    case 0xFE => CompareImmediate(s)
    case 0xFF => Rst(s, 7)
  }

  /** Opcode0xC0..Opcode0xFF (cpu.cpp:1950-2294), before the step's increment. */
  function Row3(s: State, op: bv8): State
    requires 0xC0 <= op
  {
    if op < 0xD0 then OpcodesCX(s, op)
    else if op < 0xE0 then OpcodesDX(s, op)
    else if op < 0xF0 then OpcodesEX(s, op)
    else OpcodesFX(s, op)
  }

  // ---------------------------------------------------------------- dispatch and step

  /** `(this->*opcodes[inst])()`: the base table, a body per opcode. */
  function Base(s: State, op: bv8): State
  {
    if op < 0x40 then Row0(s, op)
    else if op < 0x80 then LoadRow(s, op)
    else if op < 0xC0 then AluRow(s, op)
    else Row3(s, op)
  }

  /** CPU::execute: the base table when `extended` is clear; otherwise the
      extended table, whose every entry is empty, and `extended` is cleared;
      then `pc++` unless `halted`. */
  function Execute(s: State, inst: bv8): State
  {
    var s1 := if !s.extended then Base(s, inst) else s.(extended := false);
    if !s1.halted then Advance(s1, 1) else s1
  }

  /** CPU::cycle: execute the byte at `pc`. */
  function Step(s: State): State
  {
    Execute(s, Read(s, s.pc))
  }

  // ---------------------------------------------------------------- power-on state

  /** The timer registers CPU::initialize writes (TIMA, TMA, TAC). */
  function TimerDefaults(m: Memory): Memory
  {
    m[0xFF05 := 0x00][0xFF06 := 0x00][0xFF07 := 0x00]
  }

  /** The sound channel 1 and 2 registers CPU::initialize writes. */
  function PulseDefaults(m: Memory): Memory
  {
    m[0xFF10 := 0x80][0xFF11 := 0xBF][0xFF12 := 0xF3][0xFF14 := 0xBF]
     [0xFF16 := 0x3F][0xFF17 := 0x00][0xFF19 := 0xBF]
  }

  /** The sound channel 3 and 4 registers CPU::initialize writes. */
  function WaveNoiseDefaults(m: Memory): Memory
  {
    m[0xFF1A := 0x7F][0xFF1B := 0xFF][0xFF1C := 0x9F][0xFF1E := 0xBF]
     [0xFF20 := 0xFF][0xFF21 := 0x00][0xFF22 := 0x00][0xFF23 := 0xBF]
  }

  /** The sound control registers CPU::initialize writes (NR50, NR51, NR52). */
  function SoundControlDefaults(m: Memory): Memory
  {
    m[0xFF24 := 0x77][0xFF25 := 0xF3][0xFF26 := 0xF1]
  }

  /** The video registers CPU::initialize writes (LCDC, scroll, LYC, palettes, window). */
  function VideoDefaults(m: Memory): Memory
  {
    m[0xFF40 := 0x91][0xFF42 := 0x00][0xFF43 := 0x00][0xFF45 := 0x00]
     [0xFF47 := 0xFC][0xFF48 := 0xFF][0xFF49 := 0xFF][0xFF4A := 0x00][0xFF4B := 0x00]
  }

  /** Memory after the I/O register writes of CPU::initialize, in order:
      timer, sound, video, and last the interrupt enable register. */
  function PowerOnMemory(m: Memory): Memory
  {
    VideoDefaults(SoundControlDefaults(WaveNoiseDefaults(PulseDefaults(TimerDefaults(m)))))[0xFFFF := 0x00]
  }

  /** The register file after CPU::initialize: every cell cleared, then
      AF = 0x01B0, BC = 0x0013, DE = 0x00D8, HL = 0x014D through the pair views. */
  function PowerOnRegisters(): Regs
  {
    var r0 := Regs(0, 0, 0, 0, 0, 0, 0, 0);
    SetRegister(SetRegister(SetRegister(SetRegister(r0, AF, 0x01B0), BC, 0x0013), DE, 0x00D8), HL, 0x014D)
  }

  /** CPU::initialize: every 8-bit register cleared, then AF = 0x01B0,
      BC = 0x0013, DE = 0x00D8, HL = 0x014D through the pair views; the I/O
      register writes; `pc = 0x100`, `cycles = 0`, `sp = 0xFFFE`. `ime`,
      `halted` and `extended` are not touched. */
  function PowerOn(s: State): State
  {
    s.(regs := PowerOnRegisters(), mem := PowerOnMemory(s.mem), pc := 0x100, cycles := 0, sp := 0xFFFE)
  }
}
