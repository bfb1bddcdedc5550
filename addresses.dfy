/** The 16-bit quantities the CPU uses as addresses: `pc`, `sp`, the target
    of a jump and the address formed from a register pair. They are the
    integers 0..0xFFFF, and each `uint16_t` addition or subtraction on them
    is written out as an integer operation followed by `Wrap`. */
module Addresses {
  import opened Definitions

  /** A value of a `uint16_t` used as an address. */
  type Address = a: int | 0 <= a < ADDRESS_SPACE

  /** The `uint16_t` an integer result is stored as: reduction modulo 2^16
      (Dafny's `%` is Euclidean, so negative results wrap to the top). */
  function Wrap(x: int): Address
  {
    x % ADDRESS_SPACE
  }

  /** An address as the `uint16_t` register value it is stored in. */
  function ToWord(address: Address): bv16
  {
    address as bv16
  }

  /** A `uint16_t` register value used as an address. */
  function ToAddress(w: bv16): Address
  {
    w as int
  }

  /** `formWord(high, low)` used as an address: `high << 8 | low`. */
  function Word(high: bv8, low: bv8): Address
  {
    high as int * 256 + low as int
  }

  /** `address >> 8`. */
  function HighByte(address: Address): bv8
  {
    (address / 256) as bv8
  }

  /** `address & 0xFF`. */
  function LowByte(address: Address): bv8
  {
    (address % 256) as bv8
  }

  /** The byte whose value is `n`, counted up from 0. */
  function ByteOf(n: int): (b: bv8)
    requires 0 <= n < 256
    ensures b as int == n
  {
    if n == 0 then 0 else ByteOf(n - 1) + 1
  }

  /** A byte below 256 survives the trip to `bv8` and back. */
  lemma ByteRoundTrip(x: int)
    requires 0 <= x < 256
    ensures (x as bv8) as int == x
  {
    var b := ByteOf(x);
    assert (b as int) as bv8 == b;
  }

  /** Splitting an address into its two bytes and forming it again gives it back. */
  lemma WordOfBytes(address: Address)
    ensures Word(HighByte(address), LowByte(address)) == address
  {
    ByteRoundTrip(address / 256);
    ByteRoundTrip(address % 256);
  }

  /** Forming an address and splitting it again gives the two bytes back. */
  lemma BytesOfWord(high: bv8, low: bv8)
    ensures HighByte(Word(high, low)) == high
    ensures LowByte(Word(high, low)) == low
  {
    var w := Word(high, low);
    assert w / 256 == high as int;
    assert w % 256 == low as int;
  }

  /** `static_cast<int8_t>(b)`: bytes 0x80..0xFF stand for -128..-1. */
  function Signed(b: bv8): (v: int)
    ensures -128 <= v < 128
    ensures v % 256 == b as int
  {
    if b < 0x80 then b as int else b as int - 256
  }
}
