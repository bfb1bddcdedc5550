/** Byte and word helpers of the memory unit (MMU::getBit, setBit, clearBit,
    toggleBit, formWord) and the positions of the four flags inside F.
    Bytes are `bv8` and words `bv16`, so every arithmetic operation on
    them wraps around exactly as the emulator's uint8_t/uint16_t cells do. */
module Bits {

  /** Flag bit positions inside F (Sharp LR35902 layout). */
  const FLAG_Z: bv8 := 7
  const FLAG_N: bv8 := 6
  const FLAG_H: bv8 := 5
  const FLAG_C: bv8 := 4

  /** `(b >> n) & 1`: bit `n` of `b`, as the byte 0 or 1. */
  function GetBit(b: bv8, n: bv8): (r: bv8)
    requires n < 8
    ensures r == 0 || r == 1
    ensures r == 1 <==> b & (1 << n) != 0
  {
    (b >> n) & 1
  }

  /** Bit `n` of `b` as a truth value. */
  predicate Bit(b: bv8, n: bv8)
    requires n < 8
  {
    b & (1 << n) != 0
  }

  /** Sets bit `n` of `b` and keeps every other bit. */
  function SetBit(b: bv8, n: bv8): (r: bv8)
    requires n < 8
    ensures Bit(r, n)
    ensures r & !(1 << n) == b & !(1 << n)
  {
    b | (1 << n)
  }

  /** Clears bit `n` of `b` and keeps every other bit. */
  function ClearBit(b: bv8, n: bv8): (r: bv8)
    requires n < 8
    ensures !Bit(r, n)
    ensures r & !(1 << n) == b & !(1 << n)
  {
    b & !(1 << n)
  }

  /** Inverts bit `n` of `b` and keeps every other bit. */
  function ToggleBit(b: bv8, n: bv8): (r: bv8)
    requires n < 8
    ensures Bit(r, n) <==> !Bit(b, n)
    ensures r & !(1 << n) == b & !(1 << n)
  {
    b ^ (1 << n)
  }

  /** `cond ? setBit(b, n) : clearBit(b, n)`, the shape every flag update takes. */
  function PutBit(b: bv8, n: bv8, cond: bool): (r: bv8)
    requires n < 8
    ensures Bit(r, n) <==> cond
    ensures r & !(1 << n) == b & !(1 << n)
  {
    if cond then SetBit(b, n) else ClearBit(b, n)
  }

  /** High byte of a word (`w >> 8`). */
  function Hi(w: bv16): bv8
  {
    (w >> 8) as bv8
  }

  /** Low byte of a word (`w & 0xFF`). */
  function Lo(w: bv16): bv8
  {
    (w & 0xFF) as bv8
  }

  /** `high << 8 | low`: the word whose high byte is `high` and low byte is `low`. */
  function FormWord(high: bv8, low: bv8): (w: bv16)
    ensures Hi(w) == high && Lo(w) == low
  {
    ((high as bv16) << 8) | (low as bv16)
  }

  /** Splitting a word and forming it again gives the word back. */
  lemma FormWordOfSplit(w: bv16)
    ensures FormWord(Hi(w), Lo(w)) == w
  {
  }

  /** The word an unsigned byte stands for (`static_cast<uint16_t>`). */
  function ZeroExtend(b: bv8): (w: bv16)
    ensures Hi(w) == 0 && Lo(w) == b
  {
    b as bv16
  }

  // Bit-by-bit readings of the byte operators, kept apart from the flag
  // reasoning that uses them.

  lemma AndBits(a: bv8, r: bv8)
    ensures forall k: bv8 :: k < 8 ==> (Bit(a & r, k) <==> Bit(a, k) && Bit(r, k))
  {
  }

  lemma OrBits(a: bv8, r: bv8)
    ensures forall k: bv8 :: k < 8 ==> (Bit(a | r, k) <==> Bit(a, k) || Bit(r, k))
  {
  }

  lemma XorBits(a: bv8, r: bv8)
    ensures forall k: bv8 :: k < 8 ==> (Bit(a ^ r, k) <==> Bit(a, k) != Bit(r, k))
  {
  }

  lemma NotBits(a: bv8)
    ensures forall k: bv8 :: k < 8 ==> (Bit(!a, k) <==> !Bit(a, k))
  {
  }

  /** `s == v << 1` moves every bit of `v` up one place and clears bit 0. */
  lemma ShiftLeftBits(v: bv8, s: bv8)
    requires s == v << 1
    ensures !Bit(s, 0)
    ensures forall k: bv8 :: 1 <= k < 8 ==> (Bit(s, k) <==> Bit(v, k - 1))
  {
  }

  /** `s == v >> 1` moves every bit of `v` down one place and clears bit 7. */
  lemma ShiftRightBits(v: bv8, s: bv8)
    requires s == v >> 1
    ensures !Bit(s, 7)
    ensures forall k: bv8 :: k < 7 ==> (Bit(s, k) <==> Bit(v, k + 1))
  {
  }

  /** Writing bit `n` leaves every other bit as it was. */
  lemma PutBitOthers(b: bv8, n: bv8, cond: bool)
    requires n < 8
    ensures forall k: bv8 :: k < 8 && k != n ==> (Bit(PutBit(b, n, cond), k) <==> Bit(b, k))
  {
  }

  /** `s` holds `v` with its two nibbles exchanged. */
  lemma SwapBits(v: bv8, s: bv8)
    requires s == ((v & 0x0F) << 4) | ((v & 0xF0) >> 4)
    ensures forall k: bv8 :: k < 4 ==> (Bit(s, k) <==> Bit(v, k + 4)) && (Bit(s, k + 4) <==> Bit(v, k))
  {
  }
}
