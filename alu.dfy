/** The arithmetic, logic, shift and flag helpers of `CPU` (cpu.cpp) as pure
    kernels. Each takes the byte operated on (A, or the cell a pointer or
    reference argument names) and F, and gives back the new byte and the
    new F, computed the way the C++ body computes them, including where
    that differs from the LR35902 (ADD does not store into A, ADC always
    sets C, CP also sets Z when the difference equals the operand, the
    pointer-form rotates test Z before the carried-out bit re-enters). */
module Alu {
  import opened Bits

  /** New value of the byte operated on, and new F. */
  datatype Out8 = Out8(v: bv8, f: bv8)

  /** New value of a 16-bit register, and new F. */
  datatype Out16 = Out16(w: bv16, f: bv8)

  predicate FlagZ(f: bv8) { Bit(f, FLAG_Z) }
  predicate FlagN(f: bv8) { Bit(f, FLAG_N) }
  predicate FlagH(f: bv8) { Bit(f, FLAG_H) }
  predicate FlagC(f: bv8) { Bit(f, FLAG_C) }

  /** The carry flag as the byte 0 or 1 (`getFlag(FLAG_C)`). */
  function CarryIn(f: bv8): (c: bv8)
    ensures c == 0 || c == 1
    ensures c == 1 <==> FlagC(f)
  {
    GetBit(f, FLAG_C)
  }

  /** F changes at most in the flag bits `written` (a mask over bits 4..7). */
  predicate Keeps(f: bv8, f': bv8, written: bv8)
  {
    f' & !written == f & !written
  }

  const ZNHC: bv8 := 0xF0
  const ZNH: bv8 := 0xE0
  const NH: bv8 := 0x60
  const CF: bv8 := 0x10
  const ZC: bv8 := 0x90

  /** F after the updates `cond ? setFlag(x) : clearFlag(x)` of Z, N, H and C,
      made in that order. */
  function Flags(f: bv8, z: bool, n: bool, h: bool, c: bool): (f': bv8)
    ensures FlagZ(f') == z && FlagN(f') == n && FlagH(f') == h && FlagC(f') == c
    ensures Keeps(f, f', ZNHC)
  {
    PutBit(PutBit(PutBit(PutBit(f, FLAG_Z, z), FLAG_N, n), FLAG_H, h), FLAG_C, c)
  }

  /** The same updates of Z, N and H only; C is left alone. */
  function FlagsZnh(f: bv8, z: bool, n: bool, h: bool): (f': bv8)
    ensures FlagZ(f') == z && FlagN(f') == n && FlagH(f') == h
    ensures Keeps(f, f', ZNH)
  {
    PutBit(PutBit(PutBit(f, FLAG_Z, z), FLAG_N, n), FLAG_H, h)
  }

  /** The same updates of N, H and C only; Z is left alone. */
  function FlagsNhc(f: bv8, n: bool, h: bool, c: bool): (f': bv8)
    ensures FlagN(f') == n && FlagH(f') == h && FlagC(f') == c
    ensures Keeps(f, f', NH | CF)
  {
    PutBit(PutBit(PutBit(f, FLAG_N, n), FLAG_H, h), FLAG_C, c)
  }

  /** The same updates of Z and C only; N and H are left alone. */
  function FlagsZc(f: bv8, z: bool, c: bool): (f': bv8)
    ensures FlagZ(f') == z && FlagC(f') == c
    ensures Keeps(f, f', ZC)
  {
    PutBit(PutBit(f, FLAG_Z, z), FLAG_C, c)
  }

  // ---------------------------------------------------------------- 8-bit arithmetic

  /** CPU::ADD (cpu.cpp:189-195): sets the flags of A + r but never stores the sum;
      H is set when the operand's low nibble is 0xF. */
  function Add(a: bv8, f: bv8, r: bv8): (o: Out8)
    ensures o.v == a
    ensures FlagZ(o.f) <==> a + r == 0
    ensures !FlagN(o.f)
    ensures FlagH(o.f) <==> r & 0x0F == 0x0F
    ensures FlagC(o.f) <==> a as int + r as int > 0xFF
    ensures Keeps(f, o.f, ZNHC)
  {
    var eval := a + r;
    Out8(a, Flags(f, eval == 0, false, r & 0x0F == 0x0F, a as int + r as int > 0xFF))
  }

  /** CPU::ADC (cpu.cpp:213-221): A := A + r + carry (mod 256); both branches of
      the carry test set C. */
  function Adc(a: bv8, f: bv8, r: bv8): (o: Out8)
    ensures o.v == a + r + CarryIn(f)
    ensures FlagZ(o.f) <==> o.v == 0
    ensures !FlagN(o.f)
    ensures FlagH(o.f) <==> (r + CarryIn(f)) & 0x0F == 0x0F
    ensures FlagC(o.f)
    ensures Keeps(f, o.f, ZNHC)
  {
    var carry := CarryIn(f);
    var eval := a + r + carry;
    Out8(eval, Flags(f, eval == 0, false, (r + carry) & 0x0F == 0x0F, true))
  }

  /** CPU::SUB (cpu.cpp:223-230): A := A - r (mod 256); H on a borrow out of the
      low nibble; C when the wrapped difference is negative as a signed byte. */
  function Sub(a: bv8, f: bv8, r: bv8): (o: Out8)
    ensures o.v == a - r
    ensures FlagZ(o.f) <==> a == r
    ensures FlagN(o.f)
    ensures FlagH(o.f) <==> a & 0x0F < r & 0x0F
    ensures FlagC(o.f) <==> o.v >= 0x80
    ensures Keeps(f, o.f, ZNHC)
  {
    var eval := a - r;
    Out8(eval, Flags(f, eval == 0, true, a & 0x0F < r & 0x0F, eval >= 0x80))
  }

  /** CPU::SBC (cpu.cpp:232-240): A := A - (r + carry) (mod 256); H and C are the
      SUB tests applied to the byte r + carry. */
  function Sbc(a: bv8, f: bv8, r: bv8): (o: Out8)
    ensures o.v + r + CarryIn(f) == a
    ensures FlagZ(o.f) <==> o.v == 0
    ensures FlagN(o.f)
    ensures FlagH(o.f) <==> a & 0x0F < (r + CarryIn(f)) & 0x0F
    ensures FlagC(o.f) <==> o.v >= 0x80
    ensures Keeps(f, o.f, ZNHC)
  {
    var rc := r + CarryIn(f);
    var eval := a - rc;
    Out8(eval, Flags(f, eval == 0, true, a & 0x0F < rc & 0x0F, eval >= 0x80))
  }

  /** CPU::CP (cpu.cpp:268-279): A is left alone; Z is set when A == r and also
      when A - r == r, that is A == 2r (mod 256); H when the difference exceeds
      0x0F; C when A plus the difference carries out of the byte. */
  function Cp(a: bv8, f: bv8, r: bv8): (o: Out8)
    ensures o.v == a
    ensures FlagZ(o.f) <==> a == r || a == r + r
    ensures FlagN(o.f)
    ensures FlagH(o.f) <==> a - r > 0x0F
    ensures FlagC(o.f) <==> a as int + (a - r) as int > 0xFF
    ensures Keeps(f, o.f, ZNHC)
  {
    var eval := a - r;
    Out8(a, Flags(f, eval == 0 || eval == r, true, eval > 0x0F, a as int + eval as int > 0xFF))
  }

  // ---------------------------------------------------------------- logic

  /** CPU::AND (cpu.cpp:244-250). */
  function And(a: bv8, f: bv8, r: bv8): (o: Out8)
    ensures forall k: bv8 :: k < 8 ==> (Bit(o.v, k) <==> Bit(a, k) && Bit(r, k))
    ensures FlagZ(o.f) <==> o.v == 0
    ensures !FlagN(o.f) && FlagH(o.f) && !FlagC(o.f)
    ensures Keeps(f, o.f, ZNHC)
  {
    var v := a & r;
    AndBits(a, r);
    Out8(v, Flags(f, v == 0, false, true, false))
  }

  /** CPU::OR (cpu.cpp:252-258). */
  function Or(a: bv8, f: bv8, r: bv8): (o: Out8)
    ensures forall k: bv8 :: k < 8 ==> (Bit(o.v, k) <==> Bit(a, k) || Bit(r, k))
    ensures FlagZ(o.f) <==> o.v == 0
    ensures !FlagN(o.f) && !FlagH(o.f) && !FlagC(o.f)
    ensures Keeps(f, o.f, ZNHC)
  {
    var v := a | r;
    OrBits(a, r);
    Out8(v, Flags(f, v == 0, false, false, false))
  }

  /** CPU::XOR (cpu.cpp:260-266). */
  function Xor(a: bv8, f: bv8, r: bv8): (o: Out8)
    ensures forall k: bv8 :: k < 8 ==> (Bit(o.v, k) <==> Bit(a, k) != Bit(r, k))
    ensures FlagZ(o.f) <==> a == r
    ensures !FlagN(o.f) && !FlagH(o.f) && !FlagC(o.f)
    ensures Keeps(f, o.f, ZNHC)
  {
    var v := a ^ r;
    XorBits(a, r);
    Out8(v, Flags(f, v == 0, false, false, false))
  }

  // ---------------------------------------------------------------- increment, decrement

  /** CPU::INC(uint8_t&) (cpu.cpp:281-291): wraps 0xFF to 0; H when the new low
      nibble is 0; C untouched. */
  function Inc(v: bv8, f: bv8): (o: Out8)
    ensures o.v - 1 == v
    ensures FlagZ(o.f) <==> v == 0xFF
    ensures !FlagN(o.f)
    ensures FlagH(o.f) <==> v & 0x0F == 0x0F
    ensures Keeps(f, o.f, ZNH)
  {
    var r := v + 1;
    Out8(r, FlagsZnh(f, r == 0, false, r & 0x0F == 0))
  }

  /** CPU::DEC(uint8_t&) (cpu.cpp:301-311): wraps 0 to 0xFF; H when the new low
      nibble is 0xF; C untouched. */
  function Dec(v: bv8, f: bv8): (o: Out8)
    ensures o.v + 1 == v
    ensures FlagZ(o.f) <==> v == 1
    ensures FlagN(o.f)
    ensures FlagH(o.f) <==> v & 0x0F == 0
    ensures Keeps(f, o.f, ZNH)
  {
    var r := v - 1;
    Out8(r, FlagsZnh(f, r == 0, true, r & 0x0F == 0x0F))
  }

  // ---------------------------------------------------------------- 16-bit arithmetic

  /** `(x + y) > 0xFFFF` evaluated in int: the 16-bit sum wraps around. */
  predicate Carry16(x: bv16, y: bv16)
  {
    x + y < x
  }

  /** `((x & 0xFF) + (y & 0xFF)) > 0xFF`: the low bytes carry into bit 8. */
  predicate LowByteCarry(x: bv16, y: bv16)
  {
    (x & 0xFF) + (y & 0xFF) > 0xFF
  }

  /** `((x & 0x0FFF) + y) > 0x0FFF`: the low 12 bits plus `y` pass 0x0FFF. */
  predicate Low12Carry(x: bv16, y: bv8)
  {
    (x & 0x0FFF) + ZeroExtend(y) > 0x0FFF
  }

  /** `int16_t d = w; d > 0x0FFF`: `w` read as a signed word exceeds 0x0FFF. */
  predicate SignedAbove0FFF(w: bv16)
  {
    0x0FFF < w < 0x8000
  }

  /** CPU::ADD_HL (cpu.cpp:197-202): HL := HL + v (mod 65536); H and C are then
      computed from the NEW HL and v; Z untouched. */
  function AddHl(hl: bv16, f: bv8, v: bv16): (o: Out16)
    ensures o.w == hl + v
    ensures !FlagN(o.f)
    ensures FlagH(o.f) <==> LowByteCarry(o.w, v)
    ensures FlagC(o.f) <==> Carry16(o.w, v)
    ensures Keeps(f, o.f, NH | CF)
  {
    var w := hl + v;
    Out16(w, FlagsNhc(f, false, LowByteCarry(w, v), Carry16(w, v)))
  }

  /** CPU::ADD_SP (cpu.cpp:204-211): SP := SP + imm, the byte taken unsigned;
      H and C are computed from the NEW SP. */
  function AddSp(sp: bv16, f: bv8, imm: bv8): (o: Out16)
    ensures o.w == sp + ZeroExtend(imm)
    ensures !FlagZ(o.f) && !FlagN(o.f)
    ensures FlagH(o.f) <==> Low12Carry(o.w, imm)
    ensures FlagC(o.f) <==> Carry16(o.w, ZeroExtend(imm))
    ensures Keeps(f, o.f, ZNHC)
  {
    var w := sp + ZeroExtend(imm);
    Out16(w, Flags(f, false, false, Low12Carry(w, imm), Carry16(w, ZeroExtend(imm))))
  }

  /** Opcode0xF8 (cpu.cpp:2242-2256): HL := SP + imm; H and C are both set
      exactly when the sum, read as a signed word, exceeds 0x0FFF. */
  function LdHlSp(sp: bv16, f: bv8, imm: bv8): (o: Out16)
    ensures o.w == sp + ZeroExtend(imm)
    ensures !FlagZ(o.f) && !FlagN(o.f)
    ensures FlagH(o.f) <==> SignedAbove0FFF(o.w)
    ensures FlagC(o.f) <==> FlagH(o.f)
    ensures Keeps(f, o.f, ZNHC)
  {
    var w := sp + ZeroExtend(imm);
    var above := SignedAbove0FFF(w);
    Out16(w, Flags(f, false, false, above, above))
  }

  // ---------------------------------------------------------------- accumulator rotates

  /** CPU::RLCA (cpu.cpp:323-337): rotate A left; bit 7 goes to bit 0 and to C. */
  function Rlca(a: bv8, f: bv8): (o: Out8)
    ensures Bit(o.v, 0) <==> Bit(a, 7)
    ensures forall k: bv8 :: 1 <= k < 8 ==> (Bit(o.v, k) <==> Bit(a, k - 1))
    ensures !FlagZ(o.f) && !FlagN(o.f) && !FlagH(o.f)
    ensures FlagC(o.f) <==> Bit(a, 7)
    ensures Keeps(f, o.f, ZNHC)
  {
    var bit := Bit(a, 7);
    var s := a << 1;
    ShiftLeftBits(a, s);
    PutBitOthers(s, 0, bit);
    Out8(PutBit(s, 0, bit), Flags(f, false, false, false, bit))
  }

  /** CPU::RRCA (cpu.cpp:339-353): rotate A right; bit 0 goes to bit 7 and to C. */
  function Rrca(a: bv8, f: bv8): (o: Out8)
    ensures Bit(o.v, 7) <==> Bit(a, 0)
    ensures forall k: bv8 :: k < 7 ==> (Bit(o.v, k) <==> Bit(a, k + 1))
    ensures !FlagZ(o.f) && !FlagN(o.f) && !FlagH(o.f)
    ensures FlagC(o.f) <==> Bit(a, 0)
    ensures Keeps(f, o.f, ZNHC)
  {
    var bit := Bit(a, 0);
    var s := a >> 1;
    ShiftRightBits(a, s);
    PutBitOthers(s, 7, bit);
    Out8(PutBit(s, 7, bit), Flags(f, false, false, false, bit))
  }

  /** CPU::RLA (cpu.cpp:360-372): shift A left; bit 7 goes to C; the old carry
      is not shifted in. */
  function Rla(a: bv8, f: bv8): (o: Out8)
    ensures !Bit(o.v, 0)
    ensures forall k: bv8 :: 1 <= k < 8 ==> (Bit(o.v, k) <==> Bit(a, k - 1))
    ensures !FlagZ(o.f) && !FlagN(o.f) && !FlagH(o.f)
    ensures FlagC(o.f) <==> Bit(a, 7)
    ensures Keeps(f, o.f, ZNHC)
  {
    var s := a << 1;
    ShiftLeftBits(a, s);
    Out8(s, Flags(f, false, false, false, Bit(a, 7)))
  }

  /** CPU::RRA (cpu.cpp:374-386): shift A right; bit 0 goes to C; the old carry
      is not shifted in. */
  function Rra(a: bv8, f: bv8): (o: Out8)
    ensures !Bit(o.v, 7)
    ensures forall k: bv8 :: k < 7 ==> (Bit(o.v, k) <==> Bit(a, k + 1))
    ensures !FlagZ(o.f) && !FlagN(o.f) && !FlagH(o.f)
    ensures FlagC(o.f) <==> Bit(a, 0)
    ensures Keeps(f, o.f, ZNHC)
  {
    var s := a >> 1;
    ShiftRightBits(a, s);
    Out8(s, Flags(f, false, false, false, Bit(a, 0)))
  }

  // ---------------------------------------------------------------- pointer-form rotates and shifts

  /** CPU::RLC (cpu.cpp:388-401): rotate left; Z is tested on the shifted byte
      before bit 7 re-enters at bit 0, so it is set when bits 0..6 are clear;
      N and H untouched. */
  function Rlc(v: bv8, f: bv8): (o: Out8)
    ensures Bit(o.v, 0) <==> Bit(v, 7)
    ensures forall k: bv8 :: 1 <= k < 8 ==> (Bit(o.v, k) <==> Bit(v, k - 1))
    ensures FlagZ(o.f) <==> v & 0x7F == 0
    ensures FlagC(o.f) <==> Bit(v, 7)
    ensures Keeps(f, o.f, ZC)
  {
    var bit := Bit(v, 7);
    var s := v << 1;
    ShiftLeftBits(v, s);
    PutBitOthers(s, 0, bit);
    Out8(PutBit(s, 0, bit), FlagsZc(f, s == 0, bit))
  }

  /** CPU::RRC (cpu.cpp:435-448): rotate right; Z is tested before bit 0
      re-enters at bit 7; N and H untouched. */
  function Rrc(v: bv8, f: bv8): (o: Out8)
    ensures Bit(o.v, 7) <==> Bit(v, 0)
    ensures forall k: bv8 :: k < 7 ==> (Bit(o.v, k) <==> Bit(v, k + 1))
    ensures FlagZ(o.f) <==> v & 0xFE == 0
    ensures FlagC(o.f) <==> Bit(v, 0)
    ensures Keeps(f, o.f, ZC)
  {
    var bit := Bit(v, 0);
    var s := v >> 1;
    ShiftRightBits(v, s);
    PutBitOthers(s, 7, bit);
    Out8(PutBit(s, 7, bit), FlagsZc(f, s == 0, bit))
  }

  /** CPU::RL (cpu.cpp:403-417): the old carry is written into bit 0 BEFORE the
      shift, so it lands in bit 1; bit 0 ends clear; bit 7 goes to C. */
  function Rl(v: bv8, f: bv8): (o: Out8)
    ensures !Bit(o.v, 0)
    ensures Bit(o.v, 1) <==> FlagC(f)
    ensures forall k: bv8 :: 2 <= k < 8 ==> (Bit(o.v, k) <==> Bit(v, k - 1))
    ensures FlagZ(o.f) <==> o.v == 0
    ensures !FlagN(o.f) && !FlagH(o.f)
    ensures FlagC(o.f) <==> Bit(v, 7)
    ensures Keeps(f, o.f, ZNHC)
  {
    var t := PutBit(v, 0, FlagC(f));
    var s := t << 1;
    PutBitOthers(v, 0, FlagC(f));
    ShiftLeftBits(t, s);
    Out8(s, Flags(f, s == 0, false, false, Bit(v, 7)))
  }

  /** CPU::RR (cpu.cpp:419-433): the old carry is written into bit 7 BEFORE the
      shift, so it lands in bit 6; bit 7 ends clear; bit 0 goes to C. */
  function Rr(v: bv8, f: bv8): (o: Out8)
    ensures !Bit(o.v, 7)
    ensures Bit(o.v, 6) <==> FlagC(f)
    ensures forall k: bv8 :: k < 6 ==> (Bit(o.v, k) <==> Bit(v, k + 1))
    ensures FlagZ(o.f) <==> o.v == 0
    ensures !FlagN(o.f) && !FlagH(o.f)
    ensures FlagC(o.f) <==> Bit(v, 0)
    ensures Keeps(f, o.f, ZNHC)
  {
    var t := PutBit(v, 7, FlagC(f));
    var s := t >> 1;
    PutBitOthers(v, 7, FlagC(f));
    ShiftRightBits(t, s);
    Out8(s, Flags(f, s == 0, false, false, Bit(v, 0)))
  }

  /** CPU::SLA (cpu.cpp:450-463): shift left; C receives bit 7 of the SHIFTED
      byte, which is bit 6 of the operand. */
  function Sla(v: bv8, f: bv8): (o: Out8)
    ensures !Bit(o.v, 0)
    ensures forall k: bv8 :: 1 <= k < 8 ==> (Bit(o.v, k) <==> Bit(v, k - 1))
    ensures FlagZ(o.f) <==> o.v == 0
    ensures !FlagN(o.f) && !FlagH(o.f)
    ensures FlagC(o.f) <==> Bit(v, 6)
    ensures Keeps(f, o.f, ZNHC)
  {
    var s := v << 1;
    ShiftLeftBits(v, s);
    PutBitOthers(s, 0, false);
    var s' := ClearBit(s, 0);
    Out8(s', Flags(f, s' == 0, false, false, Bit(s, 7)))
  }

  /** CPU::SRA (cpu.cpp:465-478): an unsigned shift right (bit 7 ends clear);
      C receives bit 0 of the SHIFTED byte, which is bit 1 of the operand. */
  function Sra(v: bv8, f: bv8): (o: Out8)
    ensures !Bit(o.v, 7)
    ensures forall k: bv8 :: k < 7 ==> (Bit(o.v, k) <==> Bit(v, k + 1))
    ensures FlagZ(o.f) <==> o.v == 0
    ensures !FlagN(o.f) && !FlagH(o.f)
    ensures FlagC(o.f) <==> Bit(v, 1)
    ensures Keeps(f, o.f, ZNHC)
  {
    var s := v >> 1;
    ShiftRightBits(v, s);
    Out8(s, Flags(f, s == 0, false, false, Bit(s, 0)))
  }

  /** CPU::SRL (cpu.cpp:480-493): shift right, bit 7 cleared; C receives bit 1
      of the operand. */
  function Srl(v: bv8, f: bv8): (o: Out8)
    ensures !Bit(o.v, 7)
    ensures forall k: bv8 :: k < 7 ==> (Bit(o.v, k) <==> Bit(v, k + 1))
    ensures FlagZ(o.f) <==> o.v == 0
    ensures !FlagN(o.f) && !FlagH(o.f)
    ensures FlagC(o.f) <==> Bit(v, 1)
    ensures Keeps(f, o.f, ZNHC)
  {
    var s := v >> 1;
    ShiftRightBits(v, s);
    PutBitOthers(s, 7, false);
    var s' := ClearBit(s, 7);
    Out8(s', Flags(f, s' == 0, false, false, Bit(s, 0)))
  }

  /** CPU::SWAP (cpu.cpp:495-501): exchange the two nibbles. */
  function Swap(v: bv8, f: bv8): (o: Out8)
    ensures forall k: bv8 :: k < 4 ==> (Bit(o.v, k) <==> Bit(v, k + 4)) && (Bit(o.v, k + 4) <==> Bit(v, k))
    ensures FlagZ(o.f) <==> v == 0
    ensures !FlagN(o.f) && !FlagH(o.f) && !FlagC(o.f)
    ensures Keeps(f, o.f, ZNHC)
  {
    var s := ((v & 0x0F) << 4) | ((v & 0xF0) >> 4);
    SwapBits(v, s);
    Out8(s, Flags(f, s == 0, false, false, false))
  }

  // ---------------------------------------------------------------- bit test and flag instructions

  /** CPU::BIT (cpu.cpp:505-510): Z is the inverse of the tested bit of the
      pair's value (the byte helper sees its low byte), H set, N clear, C kept. */
  function TestBit(n: bv8, w: bv16, f: bv8): (f': bv8)
    requires n < 8
    ensures FlagZ(f') <==> !Bit(Lo(w), n)
    ensures !FlagN(f') && FlagH(f')
    ensures Keeps(f, f', ZNH)
  {
    FlagsZnh(f, !Bit(Lo(w), n), false, true)
  }

  /** CPU::CPL (cpu.cpp:590-594): complement A; set N and H. */
  function Cpl(a: bv8, f: bv8): (o: Out8)
    ensures forall k: bv8 :: k < 8 ==> (Bit(o.v, k) <==> !Bit(a, k))
    ensures FlagN(o.f) && FlagH(o.f)
    ensures Keeps(f, o.f, NH)
  {
    NotBits(a);
    Out8(!a, SetBit(SetBit(f, FLAG_N), FLAG_H))
  }

  /** CPU::CCF (cpu.cpp:599-601): invert C, nothing else. */
  function Ccf(f: bv8): (f': bv8)
    ensures FlagC(f') <==> !FlagC(f)
    ensures Keeps(f, f', CF)
  {
    ToggleBit(f, FLAG_C)
  }

  /** CPU::SCF (cpu.cpp:603-605): set C, nothing else. */
  function Scf(f: bv8): (f': bv8)
    ensures FlagC(f')
    ensures Keeps(f, f', CF)
  {
    SetBit(f, FLAG_C)
  }
}
