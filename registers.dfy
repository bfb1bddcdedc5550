/** The register file: eight 8-bit cells and the four 16-bit `Register`
    views AF, BC, DE and HL that read and write through two of them. */
module Registers {
  import opened Bits

  /** The eight 8-bit cells A, F, B, C, D, E, H, L. */
  datatype Reg8 = A | F | B | C | D | E | H | L

  /** The four pair views; the first letter names the high cell. */
  datatype Pair = AF | BC | DE | HL

  datatype Regs = Regs(a: bv8, f: bv8, b: bv8, c: bv8, d: bv8, e: bv8, h: bv8, l: bv8)

  /** The value of one cell. */
  function Get(r: Regs, x: Reg8): bv8
  {
    match x
    case A => r.a
    case F => r.f
    case B => r.b
    case C => r.c
    case D => r.d
    case E => r.e
    case H => r.h
    case L => r.l
  }

  /** Writes one cell and no other. */
  function Set(r: Regs, x: Reg8, v: bv8): (r': Regs)
    ensures Get(r', x) == v
    ensures forall y :: y != x ==> Get(r', y) == Get(r, y)
  {
    match x
    case A => r.(a := v)
    case F => r.(f := v)
    case B => r.(b := v)
    case C => r.(c := v)
    case D => r.(d := v)
    case E => r.(e := v)
    case H => r.(h := v)
    case L => r.(l := v)
  }

  /** The cell a pair view takes as its high byte (`Register(&A, &F)` binds A high). */
  function HighCell(p: Pair): Reg8
  {
    match p
    case AF => A
    case BC => B
    case DE => D
    case HL => H
  }

  /** The cell a pair view takes as its low byte. */
  function LowCell(p: Pair): Reg8
  {
    match p
    case AF => F
    case BC => C
    case DE => E
    case HL => L
  }

  /** The bindings `Register(&A, &F)`, `Register(&B, &C)`, `Register(&D, &E)`
      and `Register(&H, &L)` of CPU::initialize: no cell is bound twice, within
      one view or across two. */
  lemma PairCellsDistinct(p: Pair, q: Pair)
    ensures HighCell(p) != LowCell(q)
    ensures p != q ==> HighCell(p) != HighCell(q) && LowCell(p) != LowCell(q)
  {
  }

  /** Every one of the eight cells is bound to one of the four views. */
  lemma EveryCellInAPair(x: Reg8)
    ensures exists p :: x == HighCell(p) || x == LowCell(p)
  {
    match x
    case A => assert x == HighCell(AF);
    case F => assert x == LowCell(AF);
    case B => assert x == HighCell(BC);
    case C => assert x == LowCell(BC);
    case D => assert x == HighCell(DE);
    case E => assert x == LowCell(DE);
    case H => assert x == HighCell(HL);
    case L => assert x == LowCell(HL);
  }

  /** `Register::getRegister`: `*high << 8 | (*low & 0xFF)`. */
  function GetRegister(r: Regs, p: Pair): bv16
  {
    FormWord(Get(r, HighCell(p)), Get(r, LowCell(p)))
  }

  /** `Register::setRegister`: the high cell receives `value >> 8`, the low
      cell `value & 0xFF`; reading the pair back gives `value`, and the
      other six cells keep their contents. */
  function SetRegister(r: Regs, p: Pair, value: bv16): (r': Regs)
    ensures Get(r', HighCell(p)) == Hi(value)
    ensures Get(r', LowCell(p)) == Lo(value)
    ensures GetRegister(r', p) == value
    ensures forall y :: y != HighCell(p) && y != LowCell(p) ==> Get(r', y) == Get(r, y)
  {
    FormWordOfSplit(value);
    Set(Set(r, HighCell(p), Hi(value)), LowCell(p), Lo(value))
  }

  /** Writing back what a pair view reads changes nothing. */
  lemma SetRegisterOfGet(r: Regs, p: Pair)
    ensures SetRegister(r, p, GetRegister(r, p)) == r
  {
    var w := GetRegister(r, p);
    assert Hi(w) == Get(r, HighCell(p)) && Lo(w) == Get(r, LowCell(p));
    match p
    case AF =>
    case BC =>
    case DE =>
    case HL =>
  }

  /** A write through one pair view is invisible through the other three. */
  lemma PairsAreDisjoint(r: Regs, p: Pair, q: Pair, value: bv16)
    requires p != q
    ensures GetRegister(SetRegister(r, p, value), q) == GetRegister(r, q)
  {
    var r' := SetRegister(r, p, value);
    assert HighCell(q) != HighCell(p) && HighCell(q) != LowCell(p);
    assert LowCell(q) != HighCell(p) && LowCell(q) != LowCell(p);
    assert Get(r', HighCell(q)) == Get(r, HighCell(q));
    assert Get(r', LowCell(q)) == Get(r, LowCell(q));
  }
}
