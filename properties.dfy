/** Properties of whole CPU steps: what one `cycle` of the emulator does for
    the opcodes whose behaviour the program relies on, and how the stack,
    call and return operations fit together. */
module Properties {
  import opened Bits
  import opened Registers
  import opened Alu
  import opened Definitions
  import opened Addresses
  import opened Semantics

  // ---------------------------------------------------------------- address arithmetic

  /** Adding after a reduction is the same as reducing after the addition. */
  lemma WrapAdd(x: int, k: int)
    ensures Wrap(Wrap(x) + k) == Wrap(x + k)
  {
    var q := x / ADDRESS_SPACE;
    assert x == q * ADDRESS_SPACE + Wrap(x);
    assert Wrap(x) + k == x + k + (-q) * ADDRESS_SPACE;
    ModuloInvariant(x + k, -q);
  }

  /** Shifting by a multiple of the address space leaves the reduction alone. */
  lemma {:induction false} ModuloInvariant(y: int, m: int)
    ensures (y + m * ADDRESS_SPACE) % ADDRESS_SPACE == y % ADDRESS_SPACE
    decreases if m < 0 then -m else m
  {
    if m > 0 {
      ModuloInvariant(y, m - 1);
      assert y + m * ADDRESS_SPACE == (y + (m - 1) * ADDRESS_SPACE) + ADDRESS_SPACE;
    } else if m < 0 {
      ModuloInvariant(y, m + 1);
      assert y + m * ADDRESS_SPACE == (y + (m + 1) * ADDRESS_SPACE) - ADDRESS_SPACE;
    }
  }

  /** The `pc - 1` offset of a jump body and the step's own `pc++` cancel. */
  lemma OffsetCancels(target: Address)
    ensures Wrap(Wrap(target - 1) + 1) == target
  {
    WrapAdd(target - 1, 1);
  }

  // ---------------------------------------------------------------- the step

  /** With `extended` set, any byte runs an empty extended opcode: `extended`
      is cleared and `pc` moves on by one unless the CPU is halted. */
  lemma ExtendedStepIsEmpty(s: State, inst: bv8)
    requires s.extended
    ensures Execute(s, inst) == s.(extended := false, pc := if s.halted then s.pc else Wrap(s.pc + 1))
  {
  }

  /** `CB xx`: the prefix selects the extended table for the next byte, whose
      entries are all empty, so the pair moves `pc` on by two and changes
      nothing else. */
  lemma PrefixedPairIsEmpty(s: State)
    requires !s.extended && !s.halted && Read(s, s.pc) == 0xCB
    ensures Step(Step(s)) == s.(pc := Wrap(s.pc + 2))
  {
    assert Base(s, 0xCB) == s.(extended := true);
    var s1 := Step(s);
    assert s1 == s.(extended := true, pc := Wrap(s.pc + 1));
    WrapAdd(s.pc + 1, 1);
  }

  /** HALT sets `halted` and, with `halted` set, the step no longer moves `pc`:
      the HALT opcode runs again and again and nothing else changes. */
  lemma HaltStops(s: State)
    requires !s.extended && Read(s, s.pc) == 0x76
    ensures Step(s) == s.(halted := true)
    ensures Step(Step(s)) == Step(s)
  {
    assert Base(s, 0x76) == s.(halted := true);
    var s1 := Step(s);
    assert Base(s1, 0x76) == s1;
  }

  /** `n` steps of the CPU. */
  function Run(s: State, n: nat): State
    decreases n
  {
    if n == 0 then s else Run(Step(s), n - 1)
  }

  /** Once HALT has run, any number of further steps leaves the state as it is. */
  lemma {:induction false} HaltedForever(s: State, n: nat)
    requires !s.extended && Read(s, s.pc) == 0x76
    ensures Run(s, n + 1) == s.(halted := true)
    decreases n
  {
    HaltStops(s);
    if n > 0 {
      var s1 := s.(halted := true);
      assert Read(s1, s1.pc) == 0x76;
      HaltedForever(s1, n - 1);
      assert Run(s, n + 1) == Run(s1, n);
    }
  }

  // ---------------------------------------------------------------- jumps

  /** `JP NZ a16` (0xC2) with operand bytes `lo, hi`: with Z set the step ends
      past the operand, with Z clear at `hi << 8 | lo`; nothing else changes. */
  lemma JumpIfNotZero(s: State)
    requires !s.extended && !s.halted && Read(s, s.pc) == 0xC2
    ensures Z(s) ==> Step(s) == s.(pc := Wrap(s.pc + 3))
    ensures !Z(s) ==> Step(s) == s.(pc := Word(Fetch(s, 2), Fetch(s, 1)))
  {
    assert Base(s, 0xC2) == JpIf(s, !Z(s));
    if Z(s) {
      WrapAdd(s.pc + 2, 1);
    } else {
      OffsetCancels(Word(Fetch(s, 2), Fetch(s, 1)));
    }
  }

  /** `JR r8` (0x18): the step ends `2 + offset` bytes after the opcode, the
      offset read as a signed byte. */
  lemma RelativeJump(s: State)
    requires !s.extended && !s.halted && Read(s, s.pc) == 0x18
    ensures Step(s) == s.(pc := Wrap(s.pc + 2 + Signed(Fetch(s, 1))))
  {
    assert Base(s, 0x18) == Jr(s);
    WrapAdd(s.pc + 1 + Signed(Fetch(s, 1)), 1);
  }

  /** `JP (HL)` (0xE9): the body sets `pc` to HL with no `- 1`, so the step
      ends one past HL, and nothing else changes. */
  lemma JumpToHl(s: State)
    requires !s.extended && !s.halted && Read(s, s.pc) == 0xE9
    ensures Step(s) == s.(pc := Wrap(PairAddress(s, HL) + 1))
  {
    assert Base(s, 0xE9) == JpHl(s);
  }

  /** `INC SP` (0x33): `sp` goes up by one, wrapping from 0xFFFF to 0, and
      nothing else but `pc` changes; in particular F is untouched. */
  lemma StackPointerIncrement(s: State)
    requires !s.extended && !s.halted && Read(s, s.pc) == 0x33
    ensures Step(s) == s.(sp := Wrap(s.sp + 1), pc := Wrap(s.pc + 1))
    ensures s.sp == 0xFFFF ==> Step(s).sp == 0
  {
    assert Base(s, 0x33) == s.(sp := Wrap(s.sp + 1));
  }

  /** `DEC SP` (0x3B): `sp` goes down by one, wrapping from 0 to 0xFFFF, and
      nothing else but `pc` changes; in particular F is untouched. */
  lemma StackPointerDecrement(s: State)
    requires !s.extended && !s.halted && Read(s, s.pc) == 0x3B
    ensures Step(s) == s.(sp := Wrap(s.sp - 1), pc := Wrap(s.pc + 1))
    ensures s.sp == 0 ==> Step(s).sp == 0xFFFF
  {
    assert Base(s, 0x3B) == s.(sp := Wrap(s.sp - 1));
  }

  // ---------------------------------------------------------------- stack, call, return

  /** Two adjacent stack cells are distinct addresses, also across the wrap. */
  lemma StackCellsDiffer(sp: Address)
    ensures Wrap(sp - 1) != Wrap(sp - 2)
    ensures Wrap(Wrap(sp - 2) + 1) == Wrap(sp - 1)
    ensures Wrap(Wrap(sp - 2) + 2) == sp
  {
    WrapAdd(sp - 2, 1);
    WrapAdd(sp - 2, 2);
    if sp >= 2 {
    } else if sp == 1 {
    } else {
    }
  }

  /** PUSHSTACK16 followed by POPSTACK into a pair: the pair reads back the
      pushed word, `sp` is restored, the other cells, `pc` and the memory the
      push left are untouched. */
  lemma PushThenPop(s: State, w: Address, p: Pair)
    ensures var t := PopStack(PushStack16(s, w), p);
      PairAddress(t, p) == w && t.sp == s.sp && t.pc == s.pc &&
      t.mem == PushStack16(s, w).mem &&
      forall y :: y != HighCell(p) && y != LowCell(p) ==> Get(t.regs, y) == Get(s.regs, y)
  {
    StackCellsDiffer(s.sp);
    var u := PushStack16(s, w);
    assert Read(u, Wrap(u.sp + 1)) == HighByte(w);
    assert Read(u, u.sp) == LowByte(w);
    WordOfBytes(w);
  }

  /** `RET` (0xC9): the step ends at the word stored at `sp` (low byte) and
      `sp + 1` (high byte), two bytes higher on the stack. */
  lemma ReturnStep(s: State)
    requires !s.extended && !s.halted && Read(s, s.pc) == 0xC9
    ensures Step(s) == s.(sp := Wrap(s.sp + 2), pc := Word(Read(s, Wrap(s.sp + 1)), Read(s, s.sp)))
  {
    assert Base(s, 0xC9) == Ret(s);
    WrapAdd(s.sp + 1, 1);
    OffsetCancels(Word(Read(s, Wrap(s.sp + 1)), Read(s, s.sp)));
  }

  /** CPU::CALL on its own: the two stack cells hold the return address and
      `pc` the target minus one, the target read after the pushes. */
  lemma CallPushes(s: State)
    ensures var t := Call(s);
      t.sp == Wrap(s.sp - 2) &&
      Read(t, Wrap(s.sp - 1)) == HighByte(Wrap(s.pc + 3)) &&
      Read(t, Wrap(s.sp - 2)) == LowByte(Wrap(s.pc + 3)) &&
      t.pc == Wrap(Word(Read(t, Wrap(s.pc + 2)), Read(t, Wrap(s.pc + 1))) - 1) &&
      t.regs == s.regs && t.halted == s.halted && t.extended == s.extended
  {
    StackCellsDiffer(s.sp);
  }

  /** `CALL a16` (0xCD): pushes the address of the next instruction, high byte
      at `sp - 1`, and ends the step at the target, read from the memory the
      push leaves. */
  lemma CallStep(s: State)
    requires !s.extended && !s.halted && Read(s, s.pc) == 0xCD
    ensures var t := Step(s);
      t.sp == Wrap(s.sp - 2) &&
      Read(t, Wrap(s.sp - 1)) == HighByte(Wrap(s.pc + 3)) &&
      Read(t, Wrap(s.sp - 2)) == LowByte(Wrap(s.pc + 3)) &&
      t.pc == Word(Read(t, Wrap(s.pc + 2)), Read(t, Wrap(s.pc + 1))) &&
      t.regs == s.regs && !t.halted && !t.extended
  {
    assert Base(s, 0xCD) == Call(s);
    assert Step(s) == Advance(Call(s), 1);
    CallLandsOnTarget(s);
  }

  /** CallPushes, with the step's closing `pc++` applied. */
  lemma CallLandsOnTarget(s: State)
    ensures var t := Advance(Call(s), 1);
      t.sp == Wrap(s.sp - 2) &&
      Read(t, Wrap(s.sp - 1)) == HighByte(Wrap(s.pc + 3)) &&
      Read(t, Wrap(s.sp - 2)) == LowByte(Wrap(s.pc + 3)) &&
      t.pc == Word(Read(t, Wrap(s.pc + 2)), Read(t, Wrap(s.pc + 1))) &&
      t.regs == s.regs && t.halted == s.halted && t.extended == s.extended
  {
    var c := Call(s);
    CallPushes(s);
    OffsetCancels(Word(Read(c, Wrap(s.pc + 2)), Read(c, Wrap(s.pc + 1))));
  }

  /** A CALL followed by a RET at its target comes back to the instruction
      after the CALL with `sp` as it was. */
  lemma CallThenReturn(s: State)
    requires !s.extended && !s.halted && Read(s, s.pc) == 0xCD
    requires Read(Step(s), Step(s).pc) == 0xC9
    ensures Step(Step(s)).pc == Wrap(s.pc + 3)
    ensures Step(Step(s)).sp == s.sp
    ensures Step(Step(s)).regs == s.regs
  {
    CallStep(s);
    var t := Step(s);
    ReturnStep(t);
    ReturnUndoesCall(s, t, Step(t));
  }

  /** The stack arithmetic of CallThenReturn, for any states that a CALL and a
      RET relate. */
  lemma ReturnUndoesCall(s: State, t: State, u: State)
    requires t.sp == Wrap(s.sp - 2)
    requires Read(t, Wrap(s.sp - 1)) == HighByte(Wrap(s.pc + 3))
    requires Read(t, Wrap(s.sp - 2)) == LowByte(Wrap(s.pc + 3))
    requires u.sp == Wrap(t.sp + 2) && u.pc == Word(Read(t, Wrap(t.sp + 1)), Read(t, t.sp))
    ensures u.pc == Wrap(s.pc + 3) && u.sp == s.sp
  {
    StackCellsDiffer(s.sp);
    WordOfBytes(Wrap(s.pc + 3));
  }

  /** `RST 7` (0xFF): pushes `pc` itself, not the address after the opcode,
      and ends the step one past vector 0x38. */
  lemma RestartStep(s: State)
    requires !s.extended && !s.halted && Read(s, s.pc) == 0xFF
    ensures Step(s) == PushStack16(s, s.pc).(pc := 0x39)
  {
    assert Base(s, 0xFF) == Rst(s, 7);
  }

  /** Opcode0xEF and Opcode0xFF are the same instruction, `RST 7`. */
  lemma Restart28IsRestart38(s: State)
    ensures Base(s, 0xEF) == Base(s, 0xFF) == Rst(s, 7)
  {
    assert Base(s, 0xEF) == OpcodesEX(s, 0xEF);
    assert Base(s, 0xFF) == OpcodesFX(s, 0xFF);
  }

  /** Since RST pushes its own address, a RET at the vector returns to the
      RST opcode, which then runs again. */
  lemma RestartThenReturnRepeats(s: State)
    requires !s.extended && !s.halted && Read(s, s.pc) == 0xFF
    requires Read(Step(s), 0x39) == 0xC9
    ensures Step(Step(s)).pc == s.pc
    ensures Step(Step(s)).sp == s.sp
  {
    RestartStep(s);
    var t := Step(s);
    ReturnStep(t);
    StackCellsDiffer(s.sp);
    WordOfBytes(s.pc);
  }

  /** The conditional returns differ on the path not taken: RET NZ steps over
      one extra byte, RET Z, RET NC and RET C only take the step's `pc++`. */
  lemma ReturnNotTaken(s: State)
    requires !s.extended && !s.halted
    ensures Read(s, s.pc) == 0xC0 && Z(s) ==> Step(s) == s.(pc := Wrap(s.pc + 2))
    ensures Read(s, s.pc) == 0xC8 && !Z(s) ==> Step(s) == s.(pc := Wrap(s.pc + 1))
    ensures Read(s, s.pc) == 0xD0 && Cy(s) ==> Step(s) == s.(pc := Wrap(s.pc + 1))
    ensures Read(s, s.pc) == 0xD8 && !Cy(s) ==> Step(s) == s.(pc := Wrap(s.pc + 1))
  {
    WrapAdd(s.pc + 1, 1);
    WrapAdd(s.pc, 1);
  }

  // ---------------------------------------------------------------- loads

  /** Opcode0xF0 puts 0x90 in A whatever the operand, and steps over it. */
  lemma LoadHighIsConstant(s: State)
    requires !s.extended && !s.halted && Read(s, s.pc) == 0xF0
    ensures Step(s) == s.(regs := s.regs.(a := 0x90), pc := Wrap(s.pc + 2))
  {
    assert Base(s, 0xF0) == LoadLy(s);
    WrapAdd(s.pc + 1, 1);
  }

  /** `POP AF` (0xF1) copies the stacked byte into F as it is, so F's low
      nibble, which every flag operation keeps, can become nonzero. */
  lemma PopAfTakesRawFlags(s: State)
    requires !s.extended && !s.halted && Read(s, s.pc) == 0xF1
    ensures Step(s).regs.f == Read(s, s.sp)
    ensures Step(s).regs.a == Read(s, Wrap(s.sp + 1))
    ensures Read(s, s.sp) & 0x0F != 0 ==> Step(s).regs.f & 0x0F != 0
  {
    assert Base(s, 0xF1) == PopStack(s, AF);
  }

  /** A flag update confined to bits 4..7 keeps the low nibble. */
  lemma KeepsLowNibble(f: bv8, f': bv8)
    requires Keeps(f, f', ZNHC)
    ensures f' & 0x0F == f & 0x0F
  {
  }

  /** Every accumulator kernel writes F only in its flag bits 4..7. */
  lemma KernelWritesFlagBitsOnly(op: AluOp, a: bv8, f: bv8, r: bv8)
    ensures Keeps(f, Kernel(op, a, f, r).f, ZNHC)
  {
    match op
    case ADD =>
    case ADC =>
    case SUB =>
    case SBC =>
    case AND =>
    case XOR =>
    case OR =>
    case CP =>
  }

  /** An accumulator operation never changes the low nibble of F. */
  lemma AccumulatorKeepsLowNibble(s: State, op: AluOp, r: bv8)
    ensures AluA(s, op, r).regs.f & 0x0F == s.regs.f & 0x0F
  {
    KernelWritesFlagBitsOnly(op, s.regs.a, s.regs.f, r);
    KeepsLowNibble(s.regs.f, Kernel(op, s.regs.a, s.regs.f, r).f);
  }

  // ---------------------------------------------------------------- flags

  /** `INC r`: the register wraps around; Z iff the result is 0, N cleared,
      H iff the result's low nibble is 0, C and every other register kept. */
  lemma IncrementFlags(s: State, x: Reg8)
    requires x != F
    ensures var t := Inc8(s, x); var v := Get(t.regs, x);
      v == Get(s.regs, x) + 1 &&
      (FlagZ(t.regs.f) <==> v == 0) && !FlagN(t.regs.f) &&
      (FlagH(t.regs.f) <==> v & 0x0F == 0) && FlagC(t.regs.f) == FlagC(s.regs.f) &&
      (forall y :: y != x && y != F ==> Get(t.regs, y) == Get(s.regs, y)) &&
      t.pc == s.pc && t.sp == s.sp && t.mem == s.mem
  {
  }

  /** `DEC r`: the register wraps around; Z iff the result is 0, N set,
      H iff the result's low nibble is 0xF, C and every other register kept. */
  lemma DecrementFlags(s: State, x: Reg8)
    requires x != F
    ensures var t := Dec8(s, x); var v := Get(t.regs, x);
      v == Get(s.regs, x) - 1 &&
      (FlagZ(t.regs.f) <==> v == 0) && FlagN(t.regs.f) &&
      (FlagH(t.regs.f) <==> v & 0x0F == 0x0F) && FlagC(t.regs.f) == FlagC(s.regs.f) &&
      (forall y :: y != x && y != F ==> Get(t.regs, y) == Get(s.regs, y)) &&
      t.pc == s.pc && t.sp == s.sp && t.mem == s.mem
  {
  }

  /** Writing a pair other than AF leaves F alone. */
  lemma PairWriteKeepsFlags(s: State, p: Pair, value: bv16)
    requires p != AF
    ensures Semantics.Pair(WithPair(s, p, value), p) == value
    ensures WithPair(s, p, value).regs.f == s.regs.f
  {
    var r := SetRegister(s.regs, p, value);
    assert HighCell(p) != F && LowCell(p) != F;
    assert Get(r, F) == Get(s.regs, F);
  }

  /** The pair form of INC wraps around and leaves F alone. */
  lemma PairIncrementKeepsFlags(s: State, p: Pair)
    requires p != AF
    ensures Semantics.Pair(IncPair(s, p), p) == Semantics.Pair(s, p) + 1
    ensures IncPair(s, p).regs.f == s.regs.f
  {
    PairWriteKeepsFlags(s, p, Semantics.Pair(s, p) + 1);
  }

  /** The pair form of DEC wraps around and leaves F alone. */
  lemma PairDecrementKeepsFlags(s: State, p: Pair)
    requires p != AF
    ensures Semantics.Pair(DecPair(s, p), p) == Semantics.Pair(s, p) - 1
    ensures DecPair(s, p).regs.f == s.regs.f
  {
    PairWriteKeepsFlags(s, p, Semantics.Pair(s, p) - 1);
  }

  /** AND, OR and XOR store their result in A; Z iff that is 0, N and C
      cleared, H set for AND only; the other registers are kept. */
  lemma LogicFlags(s: State, op: AluOp, r: bv8)
    requires op == AND || op == OR || op == XOR
    ensures var t := AluA(s, op, r);
      t.regs.a == (if op == AND then s.regs.a & r else if op == OR then s.regs.a | r else s.regs.a ^ r) &&
      (FlagZ(t.regs.f) <==> t.regs.a == 0) && !FlagN(t.regs.f) && !FlagC(t.regs.f) &&
      (FlagH(t.regs.f) <==> op == AND) &&
      t.regs.(a := s.regs.a, f := s.regs.f) == s.regs
  {
  }

  // ---------------------------------------------------------------- power-on

  /** CPU::initialize: the documented DMG register values, `pc` at the
      cartridge entry point 0x100, `sp` at 0xFFFE, all 31 I/O defaults with
      their values, and every cell outside those 31 kept. */
  lemma PowerOnState(s: State)
    ensures var t := PowerOn(s);
      t.regs == Regs(0x01, 0xB0, 0x00, 0x13, 0x00, 0xD8, 0x01, 0x4D) &&
      t.pc == 0x100 && t.sp == 0xFFFE && t.cycles == 0 &&
      t.ime == s.ime && t.halted == s.halted && t.extended == s.extended
    ensures IoDefaultsWritten(PowerOn(s).mem)
    ensures forall a: Address :: a !in IO_DEFAULT_CELLS ==> PowerOn(s).mem[a] == s.mem[a]
  {
    PowerOnRegisterValues();
    var m := PowerOnMemory(s.mem);
    PowerOnMemoryCells(s.mem);
    assert PowerOn(s).mem == m;
  }

  /** The four `setRegister` calls of CPU::initialize, cell by cell. */
  lemma PowerOnRegisterValues()
    ensures PowerOnRegisters() == Regs(0x01, 0xB0, 0x00, 0x13, 0x00, 0xD8, 0x01, 0x4D)
  {
  }

  /** The cells CPU::initialize writes. */
  const IO_DEFAULT_CELLS: set<Address> :=
    {0xFF05, 0xFF06, 0xFF07, 0xFF10, 0xFF11, 0xFF12, 0xFF14, 0xFF16, 0xFF17, 0xFF19,
     0xFF1A, 0xFF1B, 0xFF1C, 0xFF1E, 0xFF20, 0xFF21, 0xFF22, 0xFF23, 0xFF24, 0xFF25, 0xFF26,
     0xFF40, 0xFF42, 0xFF43, 0xFF45, 0xFF47, 0xFF48, 0xFF49, 0xFF4A, 0xFF4B, 0xFFFF}

  /** Each of the 31 cells CPU::initialize writes holds its default value. */
  predicate IoDefaultsWritten(m: Memory)
  {
    m[0xFF05] == 0x00 && m[0xFF06] == 0x00 && m[0xFF07] == 0x00 &&
    m[0xFF10] == 0x80 && m[0xFF11] == 0xBF && m[0xFF12] == 0xF3 && m[0xFF14] == 0xBF &&
    m[0xFF16] == 0x3F && m[0xFF17] == 0x00 && m[0xFF19] == 0xBF &&
    m[0xFF1A] == 0x7F && m[0xFF1B] == 0xFF && m[0xFF1C] == 0x9F && m[0xFF1E] == 0xBF &&
    m[0xFF20] == 0xFF && m[0xFF21] == 0x00 && m[0xFF22] == 0x00 && m[0xFF23] == 0xBF &&
    m[0xFF24] == 0x77 && m[0xFF25] == 0xF3 && m[0xFF26] == 0xF1 &&
    m[0xFF40] == 0x91 && m[0xFF42] == 0x00 && m[0xFF43] == 0x00 && m[0xFF45] == 0x00 &&
    m[0xFF47] == 0xFC && m[0xFF48] == 0xFF && m[0xFF49] == 0xFF && m[0xFF4A] == 0x00 && m[0xFF4B] == 0x00 &&
    m[0xFFFF] == 0x00
  }

  /** The power-on memory holds every default and keeps every other cell. */
  lemma PowerOnMemoryCells(m: Memory)
    ensures IoDefaultsWritten(PowerOnMemory(m))
    ensures forall a: Address :: a !in IO_DEFAULT_CELLS ==> PowerOnMemory(m)[a] == m[a]
  {
  }

  // ---------------------------------------------------------------- inverse pairs

  /** SWAP undoes itself. */
  lemma SwapTwice(v: bv8, f: bv8, g: bv8)
    ensures Swap(Swap(v, f).v, g).v == v
  {
  }

  /** CPL undoes itself. */
  lemma ComplementTwice(a: bv8, f: bv8, g: bv8)
    ensures Cpl(Cpl(a, f).v, g).v == a
  {
  }

  /** CCF undoes itself. */
  lemma ComplementCarryTwice(f: bv8)
    ensures Ccf(Ccf(f)) == f
  {
  }
}
