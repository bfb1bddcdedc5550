/** The CPU of src/cpu.cpp as an object: the register file, `pc`, `sp`, the
    `ime`/`halted`/`extended` flags and `cycles` are fields that the
    operation methods update in place, and memory is the `Mmu` array they
    read and write. Every method is proved to leave the object and the
    memory in the state the matching function of `Semantics` gives. */
module Cpu {
  import opened Bits
  import opened Registers
  import opened Alu
  import opened Definitions
  import opened Addresses
  import S = Semantics
  import Mmu

  class Cpu {
    /** The cells A, F, B, C, D, E, H, L that the views AF, BC, DE, HL read and write. */
    var regs: Regs
    var pc: Address
    var sp: Address
    var ime: bool
    var halted: bool
    var extended: bool
    var cycles: nat
    const mmu: Mmu.Mmu

    ghost predicate Valid()
    {
      mmu.Valid()
    }

    /** The whole machine state as a value of `Semantics.State`. */
    ghost function Snapshot(): S.State
      requires Valid()
      reads this, mmu.memory
    {
      S.State(regs, pc, sp, ime, halted, extended, cycles, mmu.memory[..])
    }

    // -------------------------------------------------------------- registers and memory

    /** Register::getRegister of a pair view, used as an address. */
    function PairAddress(p: Pair): Address
      reads this
    {
      Word(Get(regs, HighCell(p)), Get(regs, LowCell(p)))
    }

    /** Register::setRegister: the high cell takes `value >> 8`, the low cell `value & 0xFF`. */
    method WritePair(p: Pair, value: bv16)
      requires Valid()
      modifies this
      ensures Snapshot() == S.WithPair(old(Snapshot()), p, value)
    {
      regs := SetRegister(regs, p, value);
    }

    /** Assignment to one 8-bit register cell. */
    method WriteCell(x: Reg8, value: bv8)
      requires Valid()
      modifies this
      ensures Snapshot() == S.WithCell(old(Snapshot()), x, value)
    {
      regs := Set(regs, x, value);
    }

    /** `mmu->get(address)`. */
    function Read(address: Address): bv8
      requires Valid()
      reads mmu.memory
    {
      mmu.Get(address)
    }

    /** `mmu->set(address, value)`. */
    method Write(address: Address, value: bv8)
      requires Valid()
      modifies mmu.memory
      ensures Snapshot() == S.Write(old(Snapshot()), address, value)
    {
      mmu.Set(address, value);
    }

    /** A and F after an accumulator operation. */
    method ApplyA(o: Out8)
      requires Valid()
      modifies this
      ensures Snapshot() == S.WithA(old(Snapshot()), o)
    {
      regs := regs.(a := o.v, f := o.f);
    }

    /** F after an operation that only sets flags. */
    method ApplyF(f: bv8)
      requires Valid()
      modifies this
      ensures Snapshot() == S.WithF(old(Snapshot()), f)
    {
      regs := regs.(f := f);
    }

    // -------------------------------------------------------------- stack

    /** CPU::PUSHSTACK16. */
    method PushStack16(w: Address)
      requires Valid()
      modifies this, mmu.memory
      ensures Snapshot() == S.PushStack16(old(Snapshot()), w)
    {
      Write(Wrap(sp - 1), HighByte(w));
      Write(Wrap(sp - 2), LowByte(w));
      sp := Wrap(sp - 2);
    }

    /** CPU::POPSTACK. */
    method PopStack(p: Pair)
      requires Valid()
      modifies this
      ensures Snapshot() == S.PopStack(old(Snapshot()), p)
    {
      WriteCell(HighCell(p), Read(Wrap(sp + 1)));
      WriteCell(LowCell(p), Read(sp));
      sp := Wrap(sp + 2);
    }

    // -------------------------------------------------------------- jumps, calls, returns

    /** CPU::JP(). */
    method Jp()
      requires Valid()
      modifies this
      ensures Snapshot() == S.Jp(old(Snapshot()))
    {
      var low := Read(Wrap(pc + 1));
      var high := Read(Wrap(pc + 2));
      pc := Wrap(Word(high, low) - 1);
    }

    /** CPU::JP_HL. */
    method JpHl()
      requires Valid()
      modifies this
      ensures Snapshot() == S.JpHl(old(Snapshot()))
    {
      pc := PairAddress(HL);
    }

    /** CPU::JR. */
    method Jr()
      requires Valid()
      modifies this
      ensures Snapshot() == S.Jr(old(Snapshot()))
    {
      pc := Wrap(pc + 1 + Signed(Read(Wrap(pc + 1))));
    }

    /** CPU::CALL: PUSHSTACK16(pc + 3), then the jump of CPU::JP. */
    method Call()
      requires Valid()
      modifies this, mmu.memory
      ensures Snapshot() == S.Call(old(Snapshot()))
    {
      PushStack16(Wrap(pc + 3));
      Jp();
    }

    /** CPU::RET. */
    method Ret()
      requires Valid()
      modifies this
      ensures Snapshot() == S.Ret(old(Snapshot()))
    {
      var low := Read(sp);
      sp := Wrap(sp + 1);
      var high := Read(sp);
      sp := Wrap(sp + 1);
      pc := Wrap(Word(high, low) - 1);
    }

    /** `JR cc`: the jump when `taken`, otherwise `pc++`. */
    method JrIf(taken: bool)
      requires Valid()
      modifies this
      ensures Snapshot() == S.JrIf(old(Snapshot()), taken)
    {
      if taken {
        Jr();
      } else {
        pc := Wrap(pc + 1);
      }
    }

    /** `JP cc`: the jump when `taken`, otherwise `pc += 2`. */
    method JpIf(taken: bool)
      requires Valid()
      modifies this
      ensures Snapshot() == S.JpIf(old(Snapshot()), taken)
    {
      if taken {
        Jp();
      } else {
        pc := Wrap(pc + 2);
      }
    }

    /** `CALL cc`: the call when `taken`, otherwise `pc += 2`. */
    method CallIf(taken: bool)
      requires Valid()
      modifies this, mmu.memory
      ensures Snapshot() == S.CallIf(old(Snapshot()), taken)
    {
      if taken {
        Call();
      } else {
        pc := Wrap(pc + 2);
      }
    }

    /** `RET cc`: the return when `taken`, otherwise `pc += skip`. */
    method RetIf(taken: bool, skip: nat)
      requires Valid() && skip <= 1
      modifies this
      ensures Snapshot() == S.RetIf(old(Snapshot()), taken, skip)
    {
      if taken {
        Ret();
      } else {
        pc := Wrap(pc + skip);
      }
    }

    /** Opcode0xD9. */
    method Reti()
      requires Valid()
      modifies this
      ensures Snapshot() == S.Reti(old(Snapshot()))
    {
      Ret();
      ime := true;
    }

    /** CPU::RST. */
    method Rst(vec: nat)
      requires Valid() && vec < |S.RST_VECTORS|
      modifies this, mmu.memory
      ensures Snapshot() == S.Rst(old(Snapshot()), vec)
    {
      PushStack16(pc);
      pc := Word(0, S.RST_VECTORS[vec]);
    }

    // -------------------------------------------------------------- arithmetic on registers

    /** CPU::INC(uint8_t&) on a register cell. */
    method Inc8(x: Reg8)
      requires Valid() && x != F
      modifies this
      ensures Snapshot() == S.Inc8(old(Snapshot()), x)
    {
      var o := Inc(Get(regs, x), regs.f);
      regs := Set(Set(regs, x, o.v), F, o.f);
    }

    /** CPU::DEC(uint8_t&) on a register cell. */
    method Dec8(x: Reg8)
      requires Valid() && x != F
      modifies this
      ensures Snapshot() == S.Dec8(old(Snapshot()), x)
    {
      var o := Dec(Get(regs, x), regs.f);
      regs := Set(Set(regs, x, o.v), F, o.f);
    }

    /** CPU::INC(Register). */
    method IncPair(p: Pair)
      requires Valid()
      modifies this
      ensures Snapshot() == S.IncPair(old(Snapshot()), p)
    {
      WritePair(p, GetRegister(regs, p) + 1);
    }

    /** CPU::DEC(Register). */
    method DecPair(p: Pair)
      requires Valid()
      modifies this
      ensures Snapshot() == S.DecPair(old(Snapshot()), p)
    {
      WritePair(p, GetRegister(regs, p) - 1);
    }

    /** CPU::ADD_HL. */
    method AddHlOp(v: bv16)
      requires Valid()
      modifies this
      ensures Snapshot() == S.AddHlOp(old(Snapshot()), v)
    {
      var o := AddHl(GetRegister(regs, HL), regs.f, v);
      WritePair(HL, o.w);
      ApplyF(o.f);
    }

    /** CPU::ADD_SP. */
    method AddSpOp()
      requires Valid()
      modifies this
      ensures Snapshot() == S.AddSpOp(old(Snapshot()))
    {
      var imm := Read(pc);
      pc := Wrap(pc + 1);
      var o := AddSp(ToWord(sp), regs.f, imm);
      sp := ToAddress(o.w);
      ApplyF(o.f);
    }

    /** The accumulator operations ADD, ADC, SUB, SBC, AND, XOR, OR, CP. */
    method AluA(op: S.AluOp, r: bv8)
      requires Valid()
      modifies this
      ensures Snapshot() == S.AluA(old(Snapshot()), op, r)
    {
      ApplyA(S.Kernel(op, regs.a, regs.f, r));
    }

    /** `LD r, d8`. */
    method LoadImmediate(x: Reg8)
      requires Valid()
      modifies this
      ensures Snapshot() == S.LoadImmediate(old(Snapshot()), x)
    {
      WriteCell(x, Read(Wrap(pc + 1)));
      pc := Wrap(pc + 1);
    }

    /** `LD rr, d16`. */
    method LoadImmediate16(p: Pair)
      requires Valid()
      modifies this
      ensures Snapshot() == S.LoadImmediate16(old(Snapshot()), p)
    {
      WritePair(p, FormWord(Read(Wrap(pc + 2)), Read(Wrap(pc + 1))));
      pc := Wrap(pc + 2);
    }

    // -------------------------------------------------------------- loads and stores

    /** `LD (rr), A`. */
    method StoreIndirect(p: Pair)
      requires Valid()
      modifies mmu.memory
      ensures Snapshot() == S.StoreIndirect(old(Snapshot()), p)
    {
      Write(PairAddress(p), regs.a);
    }

    /** `LD A, (rr)`. */
    method LoadIndirect(p: Pair)
      requires Valid()
      modifies this
      ensures Snapshot() == S.LoadIndirect(old(Snapshot()), p)
    {
      WriteCell(A, Read(PairAddress(p)));
    }

    /** Opcode0x08. */
    method StoreSp()
      requires Valid()
      modifies this, mmu.memory
      ensures Snapshot() == S.StoreSp(old(Snapshot()))
    {
      var target := Word(0, Read(Word(Read(pc), Read(Wrap(pc + 1)))));
      Write(target, LowByte(sp));
      pc := Wrap(pc + 2);
    }

    /** Opcode0x31. */
    method LoadSp()
      requires Valid()
      modifies this
      ensures Snapshot() == S.LoadSp(old(Snapshot()))
    {
      sp := Word(Read(Wrap(pc + 2)), Read(Wrap(pc + 1)));
      pc := Wrap(pc + 2);
    }

    /** Opcode0x34. */
    method IncIndirect()
      requires Valid()
      modifies this
      ensures Snapshot() == S.IncIndirect(old(Snapshot()))
    {
      var reg := Read(PairAddress(HL));
      ApplyF(Inc(reg, regs.f).f);
    }

    /** Opcode0x35. */
    method DecIndirect()
      requires Valid()
      modifies this
      ensures Snapshot() == S.DecIndirect(old(Snapshot()))
    {
      var reg := Read(PairAddress(HL));
      ApplyF(Dec(reg, regs.f).f);
    }

    /** Opcode0x36. */
    method StoreImmediate()
      requires Valid()
      modifies this, mmu.memory
      ensures Snapshot() == S.StoreImmediate(old(Snapshot()))
    {
      Write(PairAddress(HL), Read(pc));
      pc := Wrap(pc + 1);
    }

    /** Opcode0xE0. */
    method StoreHigh()
      requires Valid()
      modifies this, mmu.memory
      ensures Snapshot() == S.StoreHigh(old(Snapshot()))
    {
      Write(Word(0xFF, Read(pc)), regs.a);
      pc := Wrap(pc + 1);
    }

    /** Opcode0xE2. */
    method StoreHighC()
      requires Valid()
      modifies mmu.memory
      ensures Snapshot() == S.StoreHighC(old(Snapshot()))
    {
      Write(Word(0xFF, regs.c), regs.a);
    }

    /** Opcode0xEA. */
    method StoreAbsolute()
      requires Valid()
      modifies this, mmu.memory
      ensures Snapshot() == S.StoreAbsolute(old(Snapshot()))
    {
      Write(Word(Read(Wrap(pc + 2)), Read(Wrap(pc + 1))), regs.a);
      pc := Wrap(pc + 2);
    }

    /** Opcode0xF0. */
    method LoadLy()
      requires Valid()
      modifies this
      ensures Snapshot() == S.LoadLy(old(Snapshot()))
    {
      WriteCell(A, 0x90);
      pc := Wrap(pc + 1);
    }

    /** Opcode0xF2. */
    method LoadHighC()
      requires Valid()
      modifies this
      ensures Snapshot() == S.LoadHighC(old(Snapshot()))
    {
      WriteCell(A, Read(Word(0xFF, regs.c)));
    }

    /** Opcode0xFA. */
    method LoadAbsolute()
      requires Valid()
      modifies this
      ensures Snapshot() == S.LoadAbsolute(old(Snapshot()))
    {
      WriteCell(A, Read(Word(Read(Wrap(pc + 2)), Read(Wrap(pc + 1)))));
      pc := Wrap(pc + 2);
    }

    /** Opcode0xFE. */
    method CompareImmediate()
      requires Valid()
      modifies this
      ensures Snapshot() == S.CompareImmediate(old(Snapshot()))
    {
      AluA(S.CP, Read(Wrap(pc + 1)));
      pc := Wrap(pc + 1);
    }

    // -------------------------------------------------------------- opcode table

    /** Opcode0x00..Opcode0x0F. */
    method Opcodes0X(op: bv8)
      requires Valid() && 0x00 <= op <= 0x0F
      modifies this, mmu.memory
      ensures Snapshot() == S.Opcodes0X(old(Snapshot()), op)
    {
      match op
      case 0x00 =>
      case 0x01 => LoadImmediate16(BC);
      case 0x02 => StoreIndirect(BC);
      case 0x03 => IncPair(BC);
      case 0x04 => Inc8(B);
      case 0x05 => Dec8(B);
      case 0x06 => LoadImmediate(B);
      case 0x07 => ApplyA(Rlc(regs.a, regs.f));
      case 0x08 => StoreSp();
      case 0x09 => AddHlOp(GetRegister(regs, BC));
      case 0x0A => LoadIndirect(BC);
      case 0x0B => DecPair(BC);
      case 0x0C => Inc8(C);
      case 0x0D => Dec8(C);
      case 0x0E => LoadImmediate(C);
      case 0x0F => ApplyA(Rrca(regs.a, regs.f));
    }

    /** Opcode0x10..Opcode0x1F. */
    method Opcodes1X(op: bv8)
      requires Valid() && 0x10 <= op <= 0x1F
      modifies this, mmu.memory
      ensures Snapshot() == S.Opcodes1X(old(Snapshot()), op)
    {
      match op
      case 0x10 =>
      case 0x11 => LoadImmediate16(DE);
      case 0x12 => StoreIndirect(DE);
      case 0x13 => IncPair(DE);
      case 0x14 => Inc8(D);
      case 0x15 => Dec8(D);
      case 0x16 => LoadImmediate(D);
      case 0x17 => ApplyA(Rla(regs.a, regs.f));
      case 0x18 => Jr();
      case 0x19 => AddHlOp(GetRegister(regs, DE));
      case 0x1A => LoadIndirect(DE);
      case 0x1B => DecPair(DE);
      case 0x1C => Inc8(E);
      case 0x1D => Dec8(E);
      case 0x1E => LoadImmediate(E);
      case 0x1F => ApplyA(Rr(regs.a, regs.f));
    }

    /** Opcode0x20..Opcode0x2F. */
    method Opcodes2X(op: bv8)
      requires Valid() && 0x20 <= op <= 0x2F
      modifies this, mmu.memory
      ensures Snapshot() == S.Opcodes2X(old(Snapshot()), op)
    {
      match op
      case 0x20 => JrIf(!FlagZ(regs.f));
      case 0x21 => LoadImmediate16(HL);
      case 0x22 => StoreIndirect(HL); IncPair(HL);
      case 0x23 => IncPair(HL);
      case 0x24 => Inc8(H);
      case 0x25 => Dec8(H);
      case 0x26 => LoadImmediate(H);
      case 0x27 =>
      case 0x28 => JrIf(FlagZ(regs.f));
      case 0x29 => AddHlOp(GetRegister(regs, HL));
      case 0x2A => LoadIndirect(HL); IncPair(HL);
      case 0x2B => DecPair(HL);
      case 0x2C => Inc8(L);
      case 0x2D => Dec8(L);
      case 0x2E => LoadImmediate(L);
      case 0x2F => ApplyA(Cpl(regs.a, regs.f));
    }

    /** Opcode0x30..Opcode0x3F. */
    method Opcodes3X(op: bv8)
      requires Valid() && 0x30 <= op <= 0x3F
      modifies this, mmu.memory
      ensures Snapshot() == S.Opcodes3X(old(Snapshot()), op)
    {
      match op
      case 0x30 => JrIf(!FlagC(regs.f));
      case 0x31 => LoadSp();
      case 0x32 => StoreIndirect(HL); DecPair(HL);
      case 0x33 => sp := Wrap(sp + 1);
      case 0x34 => IncIndirect();
      case 0x35 => DecIndirect();
      case 0x36 => StoreImmediate();
      case 0x37 => ApplyF(Scf(regs.f));
      case 0x38 => JrIf(FlagC(regs.f));
      case 0x39 => AddHlOp(ToWord(sp));
      case 0x3A => LoadIndirect(HL); DecPair(HL);
      case 0x3B => sp := Wrap(sp - 1);
      case 0x3C => Inc8(A);
      case 0x3D => Dec8(A);
      case 0x3E => LoadImmediate(A);
      case 0x3F => ApplyF(Ccf(regs.f));
    }

    /** Opcode0x00..Opcode0x3F. */
    method Row0(op: bv8)
      requires Valid() && op < 0x40
      modifies this, mmu.memory
      ensures Snapshot() == S.Row0(old(Snapshot()), op)
    {
      if op < 0x10 {
        Opcodes0X(op);
      } else if op < 0x20 {
        Opcodes1X(op);
      } else if op < 0x30 {
        Opcodes2X(op);
      } else {
        Opcodes3X(op);
      }
    }

    /** The value an operand field 0..7 names. */
    function Operand(k: bv8): bv8
      requires Valid() && k < 8
      reads this, mmu.memory
    {
      if k == 6 then Read(PairAddress(HL)) else Get(regs, S.CellOf(k))
    }

    /** Opcode0x40..Opcode0x7F. */
    method LoadRow(op: bv8)
      requires Valid() && 0x40 <= op < 0x80
      modifies this, mmu.memory
      ensures Snapshot() == S.LoadRow(old(Snapshot()), op)
    {
      if op == 0x76 {
        halted := true;
      } else if op == 0x4E {
        WriteCell(E, Read(PairAddress(HL)));
      } else {
        var dst := (op >> 3) & 7;
        var v := Operand(op & 7);
        if dst == 6 {
          Write(PairAddress(HL), v);
        } else {
          WriteCell(S.CellOf(dst), v);
        }
      }
    }

    /** Opcode0x80..Opcode0xBF. */
    method AluRow(op: bv8)
      requires Valid() && 0x80 <= op < 0xC0
      modifies this
      ensures Snapshot() == S.AluRow(old(Snapshot()), op)
    {
      if op == 0x86 {
        AluA(S.ADD, Read(pc));
        pc := Wrap(pc + 1);
      } else {
        AluA(S.AluOpOf((op >> 3) & 7), Operand(op & 7));
      }
    }

    /** `OP d8`, reading the byte at `pc`. */
    method AluImmediate(op: S.AluOp)
      requires Valid()
      modifies this
      ensures Snapshot() == S.AluImmediate(old(Snapshot()), op)
    {
      AluA(op, Read(pc));
      pc := Wrap(pc + 1);
    }

    /** Opcode0xF8. */
    method LdHlSpOp()
      requires Valid()
      modifies this
      ensures Snapshot() == S.LdHlSpOp(old(Snapshot()))
    {
      var o := LdHlSp(ToWord(sp), regs.f, Read(pc));
      WritePair(HL, o.w);
      ApplyF(o.f);
      pc := Wrap(pc + 1);
    }

    /** Opcode0xC0..Opcode0xCF. */
    method OpcodesCX(op: bv8)
      requires Valid() && 0xC0 <= op <= 0xCF
      modifies this, mmu.memory
      ensures Snapshot() == S.OpcodesCX(old(Snapshot()), op)
    {
      match op
      case 0xC0 => RetIf(!FlagZ(regs.f), 1);
      case 0xC1 => PopStack(BC);
      case 0xC2 => JpIf(!FlagZ(regs.f));
      case 0xC3 => Jp();
      case 0xC4 => CallIf(!FlagZ(regs.f));
      case 0xC5 => PushStack16(PairAddress(BC));
      case 0xC6 => AluImmediate(S.ADD);
      case 0xC7 => Rst(0);
      case 0xC8 => RetIf(FlagZ(regs.f), 0);
      case 0xC9 => Ret();
      case 0xCA => JpIf(FlagZ(regs.f));
      case 0xCB => extended := true;
      case 0xCC => CallIf(FlagZ(regs.f));
      case 0xCD => Call();
      case 0xCE => AluImmediate(S.ADC);
      case 0xCF => Rst(1);
    }

    /** Opcode0xD0..Opcode0xDF. */
    method OpcodesDX(op: bv8)
      requires Valid() && 0xD0 <= op <= 0xDF
      modifies this, mmu.memory
      ensures Snapshot() == S.OpcodesDX(old(Snapshot()), op)
    {
      match op
      case 0xD0 => RetIf(!FlagC(regs.f), 0);
      case 0xD1 => PopStack(DE);
      case 0xD2 => JpIf(!FlagC(regs.f));
      case 0xD3 =>
      case 0xD4 => CallIf(!FlagC(regs.f));
      case 0xD5 => PushStack16(PairAddress(DE));
      case 0xD6 => AluImmediate(S.SUB);
      case 0xD7 => Rst(2);
      case 0xD8 => RetIf(FlagC(regs.f), 0);
      case 0xD9 => Reti();
      case 0xDA => JpIf(FlagC(regs.f));
      case 0xDB =>
      case 0xDC => CallIf(FlagC(regs.f));
      case 0xDD =>
      case 0xDE => AluImmediate(S.SBC);
      case 0xDF => Rst(3);
    }

    /** Opcode0xE0..Opcode0xEF. */
    method OpcodesEX(op: bv8)
      requires Valid() && 0xE0 <= op <= 0xEF
      modifies this, mmu.memory
      ensures Snapshot() == S.OpcodesEX(old(Snapshot()), op)
    {
      match op
      case 0xE0 => StoreHigh();
      case 0xE1 => PopStack(HL);
      case 0xE2 => StoreHighC();
      case 0xE3 =>
      case 0xE4 =>
      case 0xE5 => PushStack16(PairAddress(HL));
      case 0xE6 => AluImmediate(S.AND);
      case 0xE7 => Rst(4);
      case 0xE8 => AddSpOp();
      case 0xE9 => JpHl();
      case 0xEA => StoreAbsolute();
      case 0xEB =>
      case 0xEC =>
      case 0xED =>
      case 0xEE => AluImmediate(S.XOR);
      case 0xEF => Rst(7);
    }

    /** Opcode0xF0..Opcode0xFF. */
    method OpcodesFX(op: bv8)
      requires Valid() && 0xF0 <= op <= 0xFF
      modifies this, mmu.memory
      ensures Snapshot() == S.OpcodesFX(old(Snapshot()), op)
    {
      match op
      case 0xF0 => LoadLy();
      case 0xF1 => PopStack(AF);
      case 0xF2 => LoadHighC();
      case 0xF3 => ime := false;
      case 0xF4 =>
      case 0xF5 => PushStack16(PairAddress(AF));
      case 0xF6 => AluImmediate(S.OR);
      case 0xF7 => Rst(6);
      case 0xF8 => LdHlSpOp();
      case 0xF9 => sp := PairAddress(HL);
      case 0xFA => LoadAbsolute();
      case 0xFB => ime := true;
      case 0xFC =>
      case 0xFD =>
      case 0xFE => CompareImmediate();
      case 0xFF => Rst(7);
    }

    /** Opcode0xC0..Opcode0xFF. */
    method Row3(op: bv8)
      requires Valid() && 0xC0 <= op
      modifies this, mmu.memory
      ensures Snapshot() == S.Row3(old(Snapshot()), op)
    {
      if op < 0xD0 {
        OpcodesCX(op);
      } else if op < 0xE0 {
        OpcodesDX(op);
      } else if op < 0xF0 {
        OpcodesEX(op);
      } else {
        OpcodesFX(op);
      }
    }

    /** `(this->*opcodes[inst])()`. */
    method Base(op: bv8)
      requires Valid()
      modifies this, mmu.memory
      ensures Snapshot() == S.Base(old(Snapshot()), op)
    {
      if op < 0x40 {
        Row0(op);
      } else if op < 0x80 {
        LoadRow(op);
      } else if op < 0xC0 {
        AluRow(op);
      } else {
        Row3(op);
      }
    }

    // -------------------------------------------------------------- step

    /** CPU::execute. */
    method Execute(inst: bv8)
      requires Valid()
      modifies this, mmu.memory
      ensures Snapshot() == S.Execute(old(Snapshot()), inst)
    {
      if !extended {
        Base(inst);
      } else {
        extended := false;
      }
      if !halted {
        pc := Wrap(pc + 1);
      }
    }

    /** CPU::cycle. */
    method Cycle()
      requires Valid()
      modifies this, mmu.memory
      ensures Snapshot() == S.Step(old(Snapshot()))
    {
      Execute(Read(pc));
    }

    // -------------------------------------------------------------- power-on

    // The I/O register writes of CPU::initialize, one hardware block at a time.

    method WriteTimerDefaults()
      requires Valid()
      modifies mmu.memory
      ensures mmu.memory[..] == S.TimerDefaults(old(mmu.memory[..]))
    {
      mmu.Set(0xFF05, 0x00);
      mmu.Set(0xFF06, 0x00);
      mmu.Set(0xFF07, 0x00);
    }

    method WritePulseDefaults()
      requires Valid()
      modifies mmu.memory
      ensures mmu.memory[..] == S.PulseDefaults(old(mmu.memory[..]))
    {
      mmu.Set(0xFF10, 0x80);
      mmu.Set(0xFF11, 0xBF);
      mmu.Set(0xFF12, 0xF3);
      mmu.Set(0xFF14, 0xBF);
      mmu.Set(0xFF16, 0x3F);
      mmu.Set(0xFF17, 0x00);
      mmu.Set(0xFF19, 0xBF);
    }

    method WriteWaveNoiseDefaults()
      requires Valid()
      modifies mmu.memory
      ensures mmu.memory[..] == S.WaveNoiseDefaults(old(mmu.memory[..]))
    {
      mmu.Set(0xFF1A, 0x7F);
      mmu.Set(0xFF1B, 0xFF);
      mmu.Set(0xFF1C, 0x9F);
      mmu.Set(0xFF1E, 0xBF);
      mmu.Set(0xFF20, 0xFF);
      mmu.Set(0xFF21, 0x00);
      mmu.Set(0xFF22, 0x00);
      mmu.Set(0xFF23, 0xBF);
    }

    method WriteSoundControlDefaults()
      requires Valid()
      modifies mmu.memory
      ensures mmu.memory[..] == S.SoundControlDefaults(old(mmu.memory[..]))
    {
      mmu.Set(0xFF24, 0x77);
      mmu.Set(0xFF25, 0xF3);
      mmu.Set(0xFF26, 0xF1);
    }

    method WriteVideoDefaults()
      requires Valid()
      modifies mmu.memory
      ensures mmu.memory[..] == S.VideoDefaults(old(mmu.memory[..]))
    {
      mmu.Set(0xFF40, 0x91);
      mmu.Set(0xFF42, 0x00);
      mmu.Set(0xFF43, 0x00);
      mmu.Set(0xFF45, 0x00);
      mmu.Set(0xFF47, 0xFC);
      mmu.Set(0xFF48, 0xFF);
      mmu.Set(0xFF49, 0xFF);
      mmu.Set(0xFF4A, 0x00);
      mmu.Set(0xFF4B, 0x00);
    }

    /** The I/O register writes of CPU::initialize, in order. */
    method WriteIoDefaults()
      requires Valid()
      modifies mmu.memory
      ensures Snapshot() == old(Snapshot()).(mem := S.PowerOnMemory(old(mmu.memory[..])))
    {
      WriteTimerDefaults();
      WritePulseDefaults();
      WriteWaveNoiseDefaults();
      WriteSoundControlDefaults();
      WriteVideoDefaults();
      mmu.Set(0xFFFF, 0x00);
    }

    /** The register writes of CPU::initialize. */
    method ResetRegisters()
      requires Valid()
      modifies this
      ensures Snapshot() == old(Snapshot()).(regs := S.PowerOnRegisters())
    {
      regs := Regs(0, 0, 0, 0, 0, 0, 0, 0);
      regs := SetRegister(regs, AF, 0x01B0);
      regs := SetRegister(regs, BC, 0x0013);
      regs := SetRegister(regs, DE, 0x00D8);
      regs := SetRegister(regs, HL, 0x014D);
    }

    /** CPU::initialize. */
    method Initialize()
      requires Valid()
      modifies this, mmu.memory
      ensures Snapshot() == S.PowerOn(old(Snapshot()))
    {
      ResetRegisters();
      WriteIoDefaults();
      ResetCounters();
    }

    /** The last writes of CPU::initialize: program counter, cycle count and stack pointer. */
    method ResetCounters()
      requires Valid()
      modifies this
      ensures Snapshot() == old(Snapshot()).(pc := 0x100, cycles := 0, sp := 0xFFFE)
    {
      pc := 0x100;
      cycles := 0;
      sp := 0xFFFE;
    }

    /** CPU::CPU(MMU*): binds the memory unit and runs `initialize`. The C++
        members `ime`, `halted` and `extended` are not set there, so their
        values are whatever the new object holds. */
    constructor (mmu: Mmu.Mmu)
      requires mmu.Valid()
      modifies mmu.memory
      ensures this.mmu == mmu && Valid()
      ensures Snapshot() == S.PowerOn(S.State(Regs(0, 0, 0, 0, 0, 0, 0, 0), 0, 0, ime, halted, extended, 0, old(mmu.memory[..])))
    {
      this.mmu := mmu;
      new;
      Initialize();
    }
  }
}
