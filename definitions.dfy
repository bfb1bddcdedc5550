/** Constants of src/definitions.h. */
module Definitions {

  /** `GB_HEIGHT` and `GB_WIDTH` as declared; the frame buffer holds their product. */
  const GB_HEIGHT: nat := 160
  const GB_WIDTH: nat := 144

  /** `GB_MEMORY`: the number of bytes the memory unit declares and zero-fills.
      It is one short of the 65536 addresses a 16-bit address can name. */
  const GB_MEMORY: nat := 65535

  /** The number of addresses a `uint16_t` can name. */
  const ADDRESS_SPACE: nat := 0x1_0000
}
