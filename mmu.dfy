/** The memory unit (src/mmu.h, src/mmu.cpp): one byte per 16-bit address. */
module Mmu {
  import opened Definitions
  import opened Addresses

  class Mmu {
    /** `uint8_t memory[]`, one cell for every address 0x0000..0xFFFF. */
    const memory: array<bv8>

    ghost predicate Valid()
    {
      memory.Length == ADDRESS_SPACE
    }

    /** MMU::MMU: allocates the memory and zero-fills its first `GB_MEMORY`
        bytes with `memset`; the last cell, 0xFFFF, lies outside that range
        and keeps whatever value it has. */
    constructor ()
      ensures Valid()
      ensures fresh(memory)
      ensures forall i :: 0 <= i < GB_MEMORY ==> memory[i] == 0
    {
      memory := new bv8[ADDRESS_SPACE];
      new;
      var i := 0;
      while i < GB_MEMORY
        invariant 0 <= i <= GB_MEMORY
        invariant forall j :: 0 <= j < i ==> memory[j] == 0
      {
        memory[i] := 0;
        i := i + 1;
      }
    }

    /** MMU::get: the byte stored at `address`. */
    function Get(address: Address): bv8
      requires Valid()
      reads memory
    {
      memory[address]
    }

    /** MMU::set: stores `value` at `address` and changes no other cell. */
    method Set(address: Address, value: bv8)
      requires Valid()
      modifies memory
      ensures memory[..] == old(memory[..])[address := value]
    {
      memory[address] := value;
    }
  }
}
