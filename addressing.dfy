/** Addressing modes and operand access of the 6502 core
    (6502/mos6502/cpu.rs:494-599). The `AddressingMode` enum itself is not
    among the source files; its variants are the ones cpu.rs matches on,
    plus an implicit mode for instructions without an operand. */
module Addressing {
  import opened Bits
  import opened Wrappers
  import opened CpuState

  datatype AddressingMode =
    | Implicit
    | AccA
    | AccX
    | AccY
    | AccSP
    | Immediate(o: Byte)
    | ZeroPage(o: Byte)
    | ZeroPageX(o: Byte)
    | ZeroPageY(o: Byte)
    | Abs(l: Byte, h: Byte)
    | AbsX(l: Byte, h: Byte)
    | AbsY(l: Byte, h: Byte)
    | Relative(o: Byte)
    | Indirect(l: Byte, h: Byte)
    | IndirectIndexed(a: Byte)
    | IndexedIndirect(a: Byte)
  {
    /** Bytes the instruction occupies: its opcode plus the operand bytes the mode embeds. */
    function ByteSize(): (n: nat)
      ensures 1 <= n <= 3
      ensures n == 1 <==> (Implicit? || AccA? || AccX? || AccY? || AccSP?)
      ensures n == 3 <==> (Abs? || AbsX? || AbsY? || Indirect?)
    {
      match this
      case Implicit | AccA | AccX | AccY | AccSP => 1
      case Abs(_, _) | AbsX(_, _) | AbsY(_, _) | Indirect(_, _) => 3
      case _ => 2
    }

    /** Whether the operand lives in memory (`has_to_access_memory`, not among the
        source files): every mode that names a memory location. */
    predicate HasToAccessMemory()
    {
      ZeroPage? || ZeroPageX? || ZeroPageY? || Abs? || AbsX? || AbsY?
      || Indirect? || IndirectIndexed? || IndexedIndirect?
    }

    /** Modes that name a CPU register. */
    predicate IsRegister()
    {
      AccA? || AccX? || AccY? || AccSP?
    }
  }

  /** `resolve_mem_address`: the effective address of a memory or relative mode.
      The source's plain u16 additions are taken modulo 2^16; a relative offset is
      sign-extended; the pointer's second byte is read at pointer + 1 with a full
      16-bit increment (no page wrap). */
  function Resolve(am: AddressingMode, s: Machine): (r: Result<Word>)
    ensures r.Ok? <==> (am.HasToAccessMemory() || am.Relative?)
  {
    var regs := s.regs;
    match am
    case Abs(l, h) => Ok(Word16(l, h))
    case AbsX(l, h) => Ok(Wrap16(Word16(l, h) + regs.x))
    case AbsY(l, h) => Ok(Wrap16(Word16(l, h) + regs.y))
    case ZeroPage(o) => Ok(o)
    case ZeroPageX(o) => Ok(Wrap8(o + regs.x))
    case ZeroPageY(o) => Ok(Wrap8(o + regs.y))
    case Relative(o) => Ok(Wrap16(regs.pc + SignExtend(o)))
    case Indirect(l, h) =>
      var ptr := Word16(l, h);
      Ok(Word16(s.mem[ptr], s.mem[Wrap16(ptr as int + 1)]))
    case IndirectIndexed(a) =>
      Ok(Wrap16(Word16(s.mem[a], s.mem[a + 1]) + regs.y))
    case IndexedIndirect(a) =>
      var ptr := Wrap8(a + regs.x);
      Ok(Word16(s.mem[ptr], s.mem[ptr + 1]))
    case _ => Panic(NotAMemoryMode)
  }

  /** `read_op`: the operand value of a mode. */
  function ReadOperand(am: AddressingMode, s: Machine): (r: Result<Byte>)
    ensures r.Ok? <==> (am.HasToAccessMemory() || am.IsRegister() || am.Immediate?)
  {
    if am.HasToAccessMemory() then
      var address := Resolve(am, s).value;
      Ok(s.mem[address])
    else
      match am
      case AccA => Ok(s.regs.a)
      case AccX => Ok(s.regs.x)
      case AccY => Ok(s.regs.y)
      case AccSP => Ok(s.regs.sp)
      case Immediate(o) => Ok(o)
      case _ => Panic(ExhaustedModes)
  }

  /** `write_op`: store a value through a mode; Immediate, Implicit and Relative panic. */
  function WriteOperand(am: AddressingMode, s: Machine, value: Byte): (r: Result<Machine>)
    ensures r.Ok? <==> (am.HasToAccessMemory() || am.IsRegister())
  {
    if am.HasToAccessMemory() then
      var address := Resolve(am, s).value;
      Ok(s.(mem := s.mem[address := value]))
    else
      match am
      case AccA => Ok(s.(regs := s.regs.(a := value)))
      case AccX => Ok(s.(regs := s.regs.(x := value)))
      case AccY => Ok(s.(regs := s.regs.(y := value)))
      case AccSP => Ok(s.(regs := s.regs.(sp := value)))
      case _ => Panic(ExhaustedModes)
  }

  // ---------------------------------------------------------------------
  // Properties of the resolver

  /** Zero-page modes stay inside page zero; the index wraps modulo 256. */
  lemma ZeroPageStaysInPageZero(am: AddressingMode, s: Machine)
    requires am.ZeroPage? || am.ZeroPageX? || am.ZeroPageY?
    ensures Resolve(am, s).Ok? && Resolve(am, s).value < 0x100
    ensures am.ZeroPageX? ==> Resolve(am, s).value == (am.o + s.regs.x) % 0x100
    ensures am.ZeroPageY? ==> Resolve(am, s).value == (am.o + s.regs.y) % 0x100
    ensures am.ZeroPage? ==> Resolve(am, s).value == am.o
  {
  }

  /** Absolute addressing is the little-endian word (h << 8) | l. */
  lemma AbsoluteIsLittleEndian(l: Byte, h: Byte, s: Machine)
    ensures Resolve(Abs(l, h), s).Ok? && Resolve(Abs(l, h), s).value == h * 0x100 + l
  {
  }

  /** What the three absolute modes resolve to. */
  lemma IndexedResolve(am: AddressingMode, s: Machine)
    requires am.Abs? || am.AbsX? || am.AbsY?
    ensures Resolve(am, s).Ok?
    ensures am.Abs? ==> Resolve(am, s).value == Word16(am.l, am.h)
    ensures am.AbsX? ==> Resolve(am, s).value == Wrap16(Word16(am.l, am.h) + s.regs.x)
    ensures am.AbsY? ==> Resolve(am, s).value == Wrap16(Word16(am.l, am.h) + s.regs.y)
  {
  }

  /** The indexed absolute modes add X or Y to the absolute address, modulo 2^16. */
  lemma AbsoluteIndexedWraps(l: Byte, h: Byte, s: Machine)
    ensures Resolve(AbsX(l, h), s).Ok? && Resolve(AbsY(l, h), s).Ok?
    ensures Resolve(AbsX(l, h), s).value == (Resolve(Abs(l, h), s).value + s.regs.x) % 0x1_0000
    ensures Resolve(AbsY(l, h), s).value == (Resolve(Abs(l, h), s).value + s.regs.y) % 0x1_0000
  {
    IndexedResolve(AbsX(l, h), s);
    IndexedResolve(AbsY(l, h), s);
    IndexedResolve(Abs(l, h), s);
  }

  /** Indirect addressing reads the low byte at the pointer and the high byte at pointer + 1. */
  lemma IndirectReadsTwoBytes(l: Byte, h: Byte, s: Machine)
    ensures var ptr := h * 0x100 + l;
      && Resolve(Indirect(l, h), s).Ok?
      && Resolve(Indirect(l, h), s).value == s.mem[(ptr + 1) % 0x1_0000] as int * 0x100 + s.mem[ptr]
  {
    var ptr := Word16(l, h);
    var lo, hi := s.mem[ptr], s.mem[Wrap16(ptr as int + 1)];
    assert Resolve(Indirect(l, h), s) == Ok(Word16(lo, hi));
  }

  /** The chosen answer to the JMP ($xxFF) question: the high byte comes from the
      next page, not from the start of the same page as on an NMOS 6502. */
  lemma IndirectCrossesPage(h: Byte, s: Machine)
    requires h < 0xFF
    ensures Resolve(Indirect(0xFF, h), s).Ok?
    ensures Resolve(Indirect(0xFF, h), s).value == s.mem[(h + 1) * 0x100] as int * 0x100 + s.mem[h * 0x100 + 0xFF]
  {
  }

  /** A relative offset of 0x80 or more moves the target backwards. */
  lemma RelativeIsSigned(o: Byte, s: Machine)
    ensures Resolve(Relative(o), s).Ok?
    ensures Resolve(Relative(o), s).value ==
      if o < 0x80 then (s.regs.pc + o) % 0x1_0000 else (s.regs.pc + o - 0x100) % 0x1_0000
  {
  }

  // ---------------------------------------------------------------------
  // Properties of operand access

  /** Register modes read their register and never memory; memory modes read the resolved cell. */
  lemma ReadOperandSource(am: AddressingMode, s: Machine)
    ensures am.HasToAccessMemory() ==> ReadOperand(am, s) == Ok(s.mem[Resolve(am, s).value])
    ensures am == AccA ==> ReadOperand(am, s) == Ok(s.regs.a)
    ensures am == AccX ==> ReadOperand(am, s) == Ok(s.regs.x)
    ensures am == AccY ==> ReadOperand(am, s) == Ok(s.regs.y)
    ensures am == AccSP ==> ReadOperand(am, s) == Ok(s.regs.sp)
  {
  }

  /** A register-mode write changes only that register and never touches memory. */
  lemma WriteRegisterLeavesMemory(am: AddressingMode, s: Machine, v: Byte)
    requires am.IsRegister()
    ensures WriteOperand(am, s, v).Ok?
    ensures WriteOperand(am, s, v).value.mem == s.mem
    ensures WriteOperand(am, s, v).value.regs.pc == s.regs.pc
    ensures WriteOperand(am, s, v).value.regs.flags == s.regs.flags
    ensures ReadOperand(am, WriteOperand(am, s, v).value) == Ok(v)
    ensures am == AccA ==> WriteOperand(am, s, v).value.regs == s.regs.(a := v)
    ensures am == AccX ==> WriteOperand(am, s, v).value.regs == s.regs.(x := v)
    ensures am == AccY ==> WriteOperand(am, s, v).value.regs == s.regs.(y := v)
    ensures am == AccSP ==> WriteOperand(am, s, v).value.regs == s.regs.(sp := v)
  {
  }

  /** A memory-mode write changes exactly the resolved cell and no register. */
  lemma WriteMemoryTouchesOneCell(am: AddressingMode, s: Machine, v: Byte, other: Word)
    requires am.HasToAccessMemory()
    requires other != Resolve(am, s).value
    ensures WriteOperand(am, s, v).Ok?
    ensures WriteOperand(am, s, v).value.regs == s.regs
    ensures WriteOperand(am, s, v).value.mem[Resolve(am, s).value] == v
    ensures WriteOperand(am, s, v).value.mem[other] == s.mem[other]
  {
  }
}
