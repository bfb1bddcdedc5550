/** The picture unit of src/ppu.cpp: the decoding of the LCD control and
    palette registers that PPU::update stores in its members, and the pixel
    buffer that PPU::setPixel writes. The SDL window, renderer and texture are
    not part of this model. */
module Ppu {
  import opened Definitions

  /** PPU::getBit(bit, address): `(address >> bit) & 1`. The operand is a
      `uint16_t` promoted to a 32-bit `int`, so a shift by 16 to 31 gives 0.
      C++ leaves a shift by 32 or more undefined; the model gives 0 there
      too. */
  function GetBit(bit: bv8, address: bv16): (r: bv8)
    ensures r == 0 || r == 1
  {
    if bit >= 16 then 0 else ((address >> bit) & 1) as bv8
  }

  /** Bit `n` of the byte `b`, the reading PPU::update means by each of its
      `getBit` calls. */
  predicate RegisterBit(b: bv8, n: bv8)
    requires n < 8
  {
    b & (1 << n) != 0
  }

  /** `getBit(n, b)` with the bit number first reads bit `n` of `b`. */
  lemma GetBitReadsBit(n: bv8, b: bv8)
    requires n < 8
    ensures GetBit(n, b as bv16) == (if RegisterBit(b, n) then 1 else 0)
  {
    if n == 0 {
    } else if n == 1 {
    } else if n == 2 {
    } else if n == 3 {
    } else if n == 4 {
    } else if n == 5 {
    } else if n == 6 {
    } else {
    }
  }

  /** A tile map base: 0x9C00 when the selecting bit is 1, 0x9800 otherwise. */
  function TileMap(select: bv8): bv16
  {
    if select != 0 then 0x9C00 else 0x9800
  }

  /** The two orders in which a call `getBit(register, n)` of PPU::update can
      be read. `AsWritten` is the code: the register byte is passed as the
      bit number and `n` as the value shifted. `Intended` passes `n` as the
      bit number, which reads bit `n` of the register. */
  datatype Reading = AsWritten | Intended

  /** One `getBit` call of PPU::update on a register byte and a bit number. */
  function ReadBit(reading: Reading, register: bv8, n: bv8): (r: bv8)
    ensures r == 0 || r == 1
  {
    match reading
    case AsWritten => GetBit(register, n as bv16)
    case Intended => GetBit(n, register as bv16)
  }

  /** Palette entry `i` of a palette register: the call for bit `2i` gives the
      low bit and the call for bit `2i + 1` the high bit of a colour number. */
  function PaletteEntry(register: bv8, i: bv8, reading: Reading): (r: bv8)
    requires i < 4
    ensures r <= 3
  {
    ReadBit(reading, register, 2 * i) | (ReadBit(reading, register, 2 * i + 1) << 1)
  }

  /** A four-entry palette array (`uint8_t palette[4]`) as a value. */
  type Palette = s: seq<bv8> | |s| == 4 witness [0, 0, 0, 0]

  /** The members PPU::update reads and writes. `lcdc` is the `LCDC` member,
      which starts at 0 and is assigned nowhere. */
  datatype View = View(
    lcdc: bv16,
    backgroundTable: bv16,
    windowTable: bv16,
    addressingMode: bv16,
    paletteBackground: Palette,
    paletteSprite0: Palette,
    paletteSprite1: Palette)

  /** The background palette decoded from the register at 0xFF47. */
  function BackgroundPalette(register: bv8, reading: Reading): Palette
  {
    [PaletteEntry(register, 0, reading), PaletteEntry(register, 1, reading),
     PaletteEntry(register, 2, reading), PaletteEntry(register, 3, reading)]
  }

  /** A sprite palette decoded from its register; entry 0, the transparent
      colour, keeps its old value. */
  function SpritePalette(old_palette: Palette, register: bv8, reading: Reading): Palette
  {
    [old_palette[0], PaletteEntry(register, 1, reading), PaletteEntry(register, 2, reading), PaletteEntry(register, 3, reading)]
  }

  /** PPU::update: the tile maps from the calls for bits 3 and 6 of 0xFF40,
      the addressing mode from the call for bit 4; the palettes only when
      bits 0 and 1 of the `LCDC` member are set. */
  function UpdateMembers(v: View, memory: seq<bv8>, reading: Reading): View
    requires |memory| == ADDRESS_SPACE
  {
    var control := memory[0xFF40];
    var v1 := v.(backgroundTable := TileMap(ReadBit(reading, control, 3)),
                 windowTable := TileMap(ReadBit(reading, control, 6)),
                 addressingMode := ReadBit(reading, control, 4) as bv16);
    var v2 := if GetBit(0, v.lcdc) != 0 then v1.(paletteBackground := BackgroundPalette(memory[0xFF47], reading)) else v1;
    if GetBit(1, v.lcdc) != 0 then
      v2.(paletteSprite0 := SpritePalette(v.paletteSprite0, memory[0xFF48], reading),
          paletteSprite1 := SpritePalette(v.paletteSprite1, memory[0xFF49], reading))
    else v2
  }

  /** The three members update sets unconditionally, in either reading. */
  lemma UpdateTables(v: View, memory: seq<bv8>, reading: Reading)
    requires |memory| == ADDRESS_SPACE
    ensures UpdateMembers(v, memory, reading).backgroundTable == TileMap(ReadBit(reading, memory[0xFF40], 3))
    ensures UpdateMembers(v, memory, reading).windowTable == TileMap(ReadBit(reading, memory[0xFF40], 6))
    ensures UpdateMembers(v, memory, reading).addressingMode == ReadBit(reading, memory[0xFF40], 4) as bv16
  {
  }

  // ------------------------------------------------------------ the intended reading

  /** Read as intended, the background and window tile maps follow bits 3 and
      6 of 0xFF40, and the addressing mode is bit 4, so it is 0 or 1. */
  lemma UpdateTileMaps(v: View, memory: seq<bv8>)
    requires |memory| == ADDRESS_SPACE
    ensures UpdateMembers(v, memory, Intended).backgroundTable == (if RegisterBit(memory[0xFF40], 3) then 0x9C00 else 0x9800)
    ensures UpdateMembers(v, memory, Intended).windowTable == (if RegisterBit(memory[0xFF40], 6) then 0x9C00 else 0x9800)
    ensures UpdateMembers(v, memory, Intended).addressingMode == (if RegisterBit(memory[0xFF40], 4) then 1 else 0)
  {
    UpdateTables(v, memory, Intended);
    GetBitReadsBit(3, memory[0xFF40]);
    GetBitReadsBit(6, memory[0xFF40]);
    GetBitReadsBit(4, memory[0xFF40]);
  }

  /** Read as intended, with bit 0 of `LCDC` set, background entry `i` holds
      bits 2i..2i+1 of 0xFF47; otherwise the background palette is unchanged. */
  lemma UpdateBackgroundPalette(v: View, memory: seq<bv8>)
    requires |memory| == ADDRESS_SPACE
    ensures v.lcdc & 1 != 0 ==> forall i: bv8 :: i < 4 ==> UpdateMembers(v, memory, Intended).paletteBackground[i] == (memory[0xFF47] >> (2 * i)) & 3
    ensures v.lcdc & 1 == 0 ==> UpdateMembers(v, memory, Intended).paletteBackground == v.paletteBackground
  {
    var m := memory[0xFF47];
    if v.lcdc & 1 != 0 {
      forall i: bv8 | i < 4
        ensures UpdateMembers(v, memory, Intended).paletteBackground[i] == (m >> (2 * i)) & 3
      {
        PaletteEntryIsField(m, i);
      }
    }
  }

  /** Read as intended, with bit 1 of `LCDC` set, sprite entries 1..3 hold bits
      2i..2i+1 of 0xFF48 and 0xFF49; entry 0 is never written. */
  lemma UpdateSpritePalettes(v: View, memory: seq<bv8>)
    requires |memory| == ADDRESS_SPACE
    ensures UpdateMembers(v, memory, Intended).paletteSprite0[0] == v.paletteSprite0[0]
    ensures UpdateMembers(v, memory, Intended).paletteSprite1[0] == v.paletteSprite1[0]
    ensures v.lcdc & 2 != 0 ==> forall i: bv8 :: 1 <= i < 4 ==>
      UpdateMembers(v, memory, Intended).paletteSprite0[i] == (memory[0xFF48] >> (2 * i)) & 3 &&
      UpdateMembers(v, memory, Intended).paletteSprite1[i] == (memory[0xFF49] >> (2 * i)) & 3
    ensures v.lcdc & 2 == 0 ==> UpdateMembers(v, memory, Intended).paletteSprite0 == v.paletteSprite0 && UpdateMembers(v, memory, Intended).paletteSprite1 == v.paletteSprite1
  {
    if v.lcdc & 2 != 0 {
      forall i: bv8 | 1 <= i < 4
        ensures UpdateMembers(v, memory, Intended).paletteSprite0[i] == (memory[0xFF48] >> (2 * i)) & 3
        ensures UpdateMembers(v, memory, Intended).paletteSprite1[i] == (memory[0xFF49] >> (2 * i)) & 3
      {
        PaletteEntryIsField(memory[0xFF48], i);
        PaletteEntryIsField(memory[0xFF49], i);
      }
    }
  }

  /** Read as intended, a palette entry is the two-bit field at bit `2i`. */
  lemma PaletteEntryIsField(register: bv8, i: bv8)
    requires i < 4
    ensures PaletteEntry(register, i, Intended) == (register >> (2 * i)) & 3
  {
    if i == 0 {
    } else if i == 1 {
    } else if i == 2 {
    } else {
    }
  }

  /** Since `LCDC` is 0 from construction on, update never touches a palette
      of a PPU that has only been constructed and updated, in either reading:
      the palette assignments are never reached. */
  lemma UpdateKeepsPalettesWhileLcdcClear(v: View, memory: seq<bv8>, reading: Reading)
    requires |memory| == ADDRESS_SPACE && v.lcdc == 0
    ensures UpdateMembers(v, memory, reading).lcdc == 0
    ensures UpdateMembers(v, memory, reading).paletteBackground == v.paletteBackground
    ensures UpdateMembers(v, memory, reading).paletteSprite0 == v.paletteSprite0
    ensures UpdateMembers(v, memory, reading).paletteSprite1 == v.paletteSprite1
  {
  }

  // ------------------------------------------------------------ the calls as written

  /** As written, `getBit(memory[0xFF40], n)` shifts `n` by the register byte:
      the background map is 0x9C00 exactly when 0xFF40 holds 0 or 1 (3 is
      0b11), the window map exactly when it holds 1 or 2 (6 is 0b110), and
      the addressing mode is 1 exactly when it holds 2 (4 is 0b100). Each
      value 3 to 31 gives 0; from 32 up the shift is undefined in C++ and the
      model gives 0, so the power-on value 0x91 already reaches undefined
      behaviour on the first update. */
  lemma UpdateTileMapsAsWritten(v: View, memory: seq<bv8>)
    requires |memory| == ADDRESS_SPACE
    ensures UpdateMembers(v, memory, AsWritten).backgroundTable == (if memory[0xFF40] < 2 then 0x9C00 else 0x9800)
    ensures UpdateMembers(v, memory, AsWritten).windowTable == (if memory[0xFF40] == 1 || memory[0xFF40] == 2 then 0x9C00 else 0x9800)
    ensures UpdateMembers(v, memory, AsWritten).addressingMode == (if memory[0xFF40] == 2 then 1 else 0)
  {
    UpdateTables(v, memory, AsWritten);
    var m := memory[0xFF40];
    if m == 0 {
    } else if m == 1 {
    } else if m == 2 {
    } else if m < 16 {
      ShiftPastValue(3, m);
      ShiftPastValue(6, m);
      ShiftPastValue(4, m);
    }
  }

  /** A value below 8 shifted right by 3 or more places is 0. */
  lemma ShiftPastValue(n: bv16, m: bv8)
    requires n < 8 && 3 <= m < 16
    ensures (n >> m) & 1 == 0
  {
    assert n >> m <= n >> 3;
  }

  /** As written, palette entry `i` takes bits `m` of `2i` and of `2i + 1`,
      where `m` is the register byte: every entry is 2 when the register holds
      0; the odd entries are 3 when it holds 1 and the upper two when it holds
      2; from 3 to 31, every entry is 0. From 32 up the shift is undefined in
      C++ and the model gives 0. */
  lemma PaletteEntryAsWritten(register: bv8, i: bv8)
    requires i < 4
    ensures register == 0 ==> PaletteEntry(register, i, AsWritten) == 2
    ensures register == 1 ==> PaletteEntry(register, i, AsWritten) == (if i % 2 == 1 then 3 else 0)
    ensures register == 2 ==> PaletteEntry(register, i, AsWritten) == (if i >= 2 then 3 else 0)
    ensures register >= 3 ==> PaletteEntry(register, i, AsWritten) == 0
  {
    if 3 <= register < 16 {
      ShiftPastValue(2 * i as bv16, register);
      ShiftPastValue(2 * i as bv16 + 1, register);
    }
  }

  /** 0xFF40 = 0x08 selects the 0x9C00 map by bit 3, but the call as written
      gives 0x9800. */
  lemma BackgroundTableAsWrittenDiffers(memory: seq<bv8>, v: View)
    requires |memory| == ADDRESS_SPACE && memory[0xFF40] == 0x08
    ensures UpdateMembers(v, memory, AsWritten).backgroundTable == 0x9800
    ensures UpdateMembers(v, memory, Intended).backgroundTable == 0x9C00
  {
  }

  /** 0xFF40 = 0x01 has bit 6 clear, which selects the 0x9800 window map, but
      the call as written shifts 6 by one place and gives 0x9C00. */
  lemma WindowTableAsWrittenDiffers(memory: seq<bv8>, v: View)
    requires |memory| == ADDRESS_SPACE && memory[0xFF40] == 0x01
    ensures UpdateMembers(v, memory, AsWritten).windowTable == 0x9C00
    ensures UpdateMembers(v, memory, Intended).windowTable == 0x9800
  {
  }

  /** 0xFF40 = 0x10 selects addressing mode 1 by bit 4, but the call as
      written gives 0. */
  lemma AddressingModeAsWrittenDiffers(memory: seq<bv8>, v: View)
    requires |memory| == ADDRESS_SPACE && memory[0xFF40] == 0x10
    ensures UpdateMembers(v, memory, AsWritten).addressingMode == 0
    ensures UpdateMembers(v, memory, Intended).addressingMode == 1
  {
  }

  /** The palette 0x1B (fields 3, 2, 1, 0) decodes to four zeros as written:
      every call shifts a value below 8 by 27 places. */
  lemma PaletteAsWrittenDiffers()
    ensures BackgroundPalette(0x1B, AsWritten) == [0, 0, 0, 0]
    ensures BackgroundPalette(0x1B, Intended) == [3, 2, 1, 0]
  {
  }

  // ------------------------------------------------------------ the object

  class Ppu {
    var lcdc: bv16
    var backgroundTable: bv16
    var windowTable: bv16
    var addressingMode: bv16
    const paletteSprite0: array<bv8>
    const paletteSprite1: array<bv8>
    const paletteBackground: array<bv8>
    /** `uint16_t pixelbuffer[GB_HEIGHT * GB_WIDTH]`. */
    const pixelbuffer: array<bv16>

    ghost predicate Valid()
      reads this
    {
      paletteSprite0.Length == 4 && paletteSprite1.Length == 4 && paletteBackground.Length == 4 &&
      paletteSprite0 != paletteSprite1 && paletteSprite0 != paletteBackground && paletteSprite1 != paletteBackground &&
      pixelbuffer.Length == GB_HEIGHT * GB_WIDTH
    }

    /** The members PPU::update works on, as a value. */
    ghost function Members(): View
      requires Valid()
      reads this, paletteSprite0, paletteSprite1, paletteBackground
    {
      View(lcdc, backgroundTable, windowTable, addressingMode, paletteBackground[..], paletteSprite0[..], paletteSprite1[..])
    }

    /** The member initialisers of src/ppu.h: `LCDC = 0`; the other members
        are left indeterminate, so nothing is promised about them. */
    constructor ()
      ensures Valid() && lcdc == 0
      ensures fresh(paletteSprite0) && fresh(paletteSprite1) && fresh(paletteBackground) && fresh(pixelbuffer)
    {
      lcdc := 0;
      paletteSprite0 := new bv8[4];
      paletteSprite1 := new bv8[4];
      paletteBackground := new bv8[4];
      pixelbuffer := new bv16[GB_HEIGHT * GB_WIDTH];
    }

    /** PPU::setPixel: `colour` at index `y * GB_WIDTH + x`, every other cell kept.
        The index must lie inside the buffer. */
    method SetPixel(x: bv16, y: bv16, colour: bv16)
      requires Valid() && y as int * GB_WIDTH + x as int < GB_HEIGHT * GB_WIDTH
      modifies pixelbuffer
      ensures pixelbuffer[..] == old(pixelbuffer[..])[y as int * GB_WIDTH + x as int := colour]
    {
      var pixel := y as int * GB_WIDTH + x as int;
      pixelbuffer[pixel] := colour;
    }

    /** The first three assignments of PPU::update: the tile-map bases and the
        addressing mode from the control register. */
    method SelectTables(control: bv8, reading: Reading)
      requires Valid()
      modifies this
      ensures Members() == old(Members()).(backgroundTable := TileMap(ReadBit(reading, control, 3)),
                                           windowTable := TileMap(ReadBit(reading, control, 6)),
                                           addressingMode := ReadBit(reading, control, 4) as bv16)
    {
      backgroundTable := TileMap(ReadBit(reading, control, 3));
      windowTable := TileMap(ReadBit(reading, control, 6));
      addressingMode := ReadBit(reading, control, 4) as bv16;
    }

    /** The palette assignments of PPU::update that bit 0 of `LCDC` guards. */
    method DecodeBackgroundPalette(register: bv8, reading: Reading)
      requires Valid()
      modifies paletteBackground
      ensures Members() == old(Members()).(paletteBackground := BackgroundPalette(register, reading))
    {
      paletteBackground[0] := PaletteEntry(register, 0, reading);
      paletteBackground[1] := PaletteEntry(register, 1, reading);
      paletteBackground[2] := PaletteEntry(register, 2, reading);
      paletteBackground[3] := PaletteEntry(register, 3, reading);
    }

    /** The three entry assignments of one sprite palette. */
    method DecodeSpritePalette(palette: array<bv8>, register: bv8, reading: Reading)
      requires palette.Length == 4
      modifies palette
      ensures palette[..] == SpritePalette(old(palette[..]), register, reading)
    {
      palette[1] := PaletteEntry(register, 1, reading);
      palette[2] := PaletteEntry(register, 2, reading);
      palette[3] := PaletteEntry(register, 3, reading);
    }

    /** The palette assignments of PPU::update that bit 1 of `LCDC` guards. */
    method DecodeSpritePalettes(register0: bv8, register1: bv8, reading: Reading)
      requires Valid()
      modifies paletteSprite0, paletteSprite1
      ensures Members() == old(Members()).(paletteSprite0 := SpritePalette(old(paletteSprite0[..]), register0, reading),
                                           paletteSprite1 := SpritePalette(old(paletteSprite1[..]), register1, reading))
    {
      DecodeSpritePalette(paletteSprite0, register0, reading);
      DecodeSpritePalette(paletteSprite1, register1, reading);
    }

    /** PPU::update on the memory array it is given, with its `getBit` calls
        read as `reading` says: `AsWritten` is the code, `Intended` the
        corrected decode. */
    method Update(memory: array<bv8>, reading: Reading)
      requires Valid() && memory.Length == ADDRESS_SPACE
      modifies this, paletteSprite0, paletteSprite1, paletteBackground
      ensures Valid()
      ensures Members() == UpdateMembers(old(Members()), old(memory[..]), reading)
    {
      assert memory != paletteBackground && memory != paletteSprite0 && memory != paletteSprite1;
      SelectTables(memory[0xFF40], reading);
      if GetBit(0, lcdc) != 0 {
        DecodeBackgroundPalette(memory[0xFF47], reading);
      }
      if GetBit(1, lcdc) != 0 {
        DecodeSpritePalettes(memory[0xFF48], memory[0xFF49], reading);
      }
    }
  }
}
