/** Reference semantics of the 6502 handlers of 6502/mos6502/cpu.rs:114-484 as
    pure functions on a `Machine` value. The `Cpu` class (cpu.dfy) updates its
    fields step by step as the source does and is proved against `Execute` and
    `StepSpec` here; the lemmas below state what the handlers promise. */
module CpuSemantics {
  import opened Bits
  import opened Wrappers
  import opened CpuState
  import opened Addressing
  import Alu

  /** The handler names of cpu.rs, including the unofficial LAX/SAX/AXS. */
  datatype Handler =
    | Adc | And | Asl | Bcc | Bcs | Beq | Bit | Bmi | Bne | Bpl | Brk | Bvc | Bvs
    | Clc | Cld | Cli | Clv | Cmp | Cpx | Cpy | Dec | Dex | Dey | Eor | Inc | Inx | Iny
    | Jmp | Jsr | Lda | Ldx | Ldy | Lsr | Nop | Ora | Pha | Php | Pla | Plp | Rol | Ror
    | Rti | Rts | Sbc | Sec | Sed | Sei | Sta | Stx | Sty | Tax | Tay | Tsx | Txa | Txs | Tya
    | Lax | Sax | Axs
  {
    /** Handlers that may assign the program counter. */
    predicate IsControlFlow()
    {
      Bcc? || Bcs? || Beq? || Bmi? || Bne? || Bpl? || Bvc? || Bvs?
      || Brk? || Jmp? || Jsr? || Rti? || Rts?
    }
  }

  /** A decoded instruction: its handler and its addressing mode, which carries the
      operand bytes. The decode table itself (`Instruction::build`) is not among the
      source files; `StepSpec` takes it as a parameter. */
  datatype Instruction = Instruction(handler: Handler, mode: AddressingMode) {
    function ByteSize(): (n: nat)
      ensures 1 <= n <= 3
    {
      mode.ByteSize()
    }
  }

  /** Bottom of the hardware stack page (`STKRANGE`, memory_map.rs:7). */
  const STACK_BASE: nat := 0x100
  /** The BRK/IRQ vector (`INTVECADR`, memory_map.rs:8). */
  const INTVECADR: Word := 0xFFFE

  /** The state after a handler: the new state, or the old one if it panicked. */
  function Settle(r: Result<Machine>, s: Machine): Machine
  {
    if r.Ok? then r.value else s
  }

  /** `check_zf_with` followed by the corrected `check_nf_with`. */
  function WithNZ(f: CpuFlags, v: Byte): (r: CpuFlags)
    ensures r.HasSet(Zero) <==> v == 0
    ensures r.HasSet(Negative) <==> Bit7(v)
    ensures forall g :: g != Zero && g != Negative ==> (r.HasSet(g) <==> f.HasSet(g))
  {
    f.Set(Zero, v == 0).Set(Negative, Alu.Negative(v))
  }

  function SetRegs(s: Machine, r: Registers): Machine
  {
    s.(regs := r)
  }

  /** Push a byte: store at 0x0100 + sp, then decrement sp modulo 256. */
  function Push(s: Machine, v: Byte): (t: Machine)
    ensures t.regs == s.regs.(sp := (s.regs.sp - 1) % 0x100)
    ensures t.mem == s.mem[0x100 + s.regs.sp := v]
  {
    Machine(s.regs.(sp := Wrap8(s.regs.sp - 1)), s.mem[STACK_BASE + s.regs.sp := v])
  }

  /** Pull a byte: increment sp modulo 256, then read 0x0100 + sp. */
  function Pull(s: Machine): (r: (Machine, Byte))
    ensures r.0.mem == s.mem
    ensures r.0.regs == s.regs.(sp := (s.regs.sp + 1) % 0x100)
  {
    var sp := Wrap8(s.regs.sp + 1);
    (s.(regs := s.regs.(sp := sp)), s.mem[STACK_BASE + sp])
  }

  /** The flags pulled by PLP and RTI: Break is not a stored flag, so it keeps its value. */
  function PulledFlags(b: Byte, current: CpuFlags): CpuFlags
  {
    FromByte(b).Set(Break, current.HasSet(Break))
  }

  /** `branch_on_flag` (cpu.rs:480-484): jump to the resolved target iff the flag has the expected value. */
  function BranchOnFlag(am: AddressingMode, f: Flag, value: bool, s: Machine): Result<Machine>
  {
    if s.regs.flags.HasSet(f) == value then
      var target :- Resolve(am, s);
      Ok(s.(regs := s.regs.(pc := target)))
    else Ok(s)
  }

  /** `compare` (cpu.rs:472-478). */
  function CompareWith(am: AddressingMode, reg: Byte, s: Machine): Result<Machine>
  {
    var m :- ReadOperand(am, s);
    var cf := Alu.Compare(reg, m);
    var fl := s.regs.flags.Set(Carry, cf.carry).Set(Zero, cf.zero).Set(Negative, cf.negative);
    Ok(s.(regs := s.regs.(flags := fl)))
  }

  /** A read-modify-write handler: the operand is replaced by `f(operand)`, and
      N/Z (and, for shifts, Carry) follow the new value. */
  function Modify(am: AddressingMode, s: Machine, r: Byte, carry: Option<bool>): Result<Machine>
  {
    var t :- WriteOperand(am, s, r);
    var fl := if carry.Some? then t.regs.flags.Set(Carry, carry.value) else t.regs.flags;
    Ok(t.(regs := t.regs.(flags := WithNZ(fl, r))))
  }

  /** A load into a register selected by `setReg`, with N/Z from the value. */
  function LoadA(s: Machine, v: Byte): Machine
  {
    s.(regs := s.regs.(a := v, flags := WithNZ(s.regs.flags, v)))
  }

  function LoadX(s: Machine, v: Byte): Machine
  {
    s.(regs := s.regs.(x := v, flags := WithNZ(s.regs.flags, v)))
  }

  function LoadY(s: Machine, v: Byte): Machine
  {
    s.(regs := s.regs.(y := v, flags := WithNZ(s.regs.flags, v)))
  }

  function SetFlag(s: Machine, f: Flag, v: bool): Machine
  {
    s.(regs := s.regs.(flags := s.regs.flags.Set(f, v)))
  }

  /** ADC and SBC write A, Carry, Overflow, Zero and Negative from the sum. */
  function ApplySum(s: Machine, sum: Alu.Sum): Machine
  {
    var fl := s.regs.flags.Set(Carry, sum.carry).Set(Overflow, sum.overflow)
      .Set(Zero, sum.result == 0).Set(Negative, Alu.Negative(sum.result));
    s.(regs := s.regs.(a := sum.result, flags := fl))
  }

  /** One handler applied to a state whose pc already points past the instruction. */
  function Execute(h: Handler, am: AddressingMode, s: Machine): (r: Result<Machine>)
    ensures !h.IsControlFlow() && r.Ok? ==> r.value.regs.pc == s.regs.pc
  {
    match h
    case Adc => AdcOp(am, s)
    case Sbc => SbcOp(am, s)
    case And => AndOp(am, s)
    case Ora => OraOp(am, s)
    case Eor => EorOp(am, s)
    case Asl => AslOp(am, s)
    case Lsr => LsrOp(am, s)
    case Rol => RolOp(am, s)
    case Ror => RorOp(am, s)
    case Inc => IncOp(am, s)
    case Dec => DecOp(am, s)
    case Inx => InxOp(am, s)
    case Iny => InyOp(am, s)
    case Dex => DexOp(am, s)
    case Dey => DeyOp(am, s)
    case Bit => BitOp(am, s)
    case Bcc => BccOp(am, s)
    case Bcs => BcsOp(am, s)
    case Beq => BeqOp(am, s)
    case Bmi => BmiOp(am, s)
    case Bne => BneOp(am, s)
    case Bpl => BplOp(am, s)
    case Bvc => BvcOp(am, s)
    case Bvs => BvsOp(am, s)
    case Clc => ClcOp(am, s)
    case Cld => CldOp(am, s)
    case Cli => CliOp(am, s)
    case Clv => ClvOp(am, s)
    case Sec => SecOp(am, s)
    case Sed => SedOp(am, s)
    case Sei => SeiOp(am, s)
    case Cmp => CmpOp(am, s)
    case Cpx => CpxOp(am, s)
    case Cpy => CpyOp(am, s)
    case Jmp => JmpOp(am, s)
    case Jsr => JsrOp(am, s)
    case Rts => RtsOp(am, s)
    case Rti => RtiOp(am, s)
    case Brk => BrkOp(am, s)
    case Pha => PhaOp(am, s)
    case Php => PhpOp(am, s)
    case Pla => PlaOp(am, s)
    case Plp => PlpOp(am, s)
    case Lda => LdaOp(am, s)
    case Ldx => LdxOp(am, s)
    case Ldy => LdyOp(am, s)
    case Sta => StaOp(am, s)
    case Stx => StxOp(am, s)
    case Sty => StyOp(am, s)
    case Tax => TaxOp(am, s)
    case Tay => TayOp(am, s)
    case Tsx => TsxOp(am, s)
    case Txa => TxaOp(am, s)
    case Tya => TyaOp(am, s)
    case Txs => TxsOp(am, s)
    case Nop => NopOp(am, s)
    case Lax => LaxOp(am, s)
    case Sax => SaxOp(am, s)
    case Axs => AxsOp(am, s)
  }

  function AdcOp(am: AddressingMode, s: Machine): Result<Machine>
  {
    var r := s.regs;
    var m :- ReadOperand(am, s);
    var c := r.flags.Bit(Carry);
    Ok(ApplySum(s, if r.flags.HasSet(Decimal) then Alu.AdcDecimal(r.a, m, c) else Alu.AdcBinary(r.a, m, c)))
  }

  function SbcOp(am: AddressingMode, s: Machine): Result<Machine>
  {
    var r := s.regs;
    var m :- ReadOperand(am, s);
    var c := r.flags.Bit(Carry);
    Ok(ApplySum(s, if r.flags.HasSet(Decimal) then Alu.SbcDecimal(r.a, m, c) else Alu.SbcBinary(r.a, m, c)))
  }

  function AndOp(am: AddressingMode, s: Machine): Result<Machine>
  {
    var r := s.regs;
    var m :- ReadOperand(am, s);
    Ok(LoadA(s, Bits.And(r.a, m)))
  }

  function OraOp(am: AddressingMode, s: Machine): Result<Machine>
  {
    var r := s.regs;
    var m :- ReadOperand(am, s);
    Ok(LoadA(s, Or(r.a, m)))
  }

  function EorOp(am: AddressingMode, s: Machine): Result<Machine>
  {
    var r := s.regs;
    var m :- ReadOperand(am, s);
    Ok(LoadA(s, Xor(r.a, m)))
  }

  function AslOp(am: AddressingMode, s: Machine): Result<Machine>
  {
    var m :- ReadOperand(am, s);
    var sh := Alu.Asl(m);
    Modify(am, s, sh.result, Some(sh.carry))
  }

  function LsrOp(am: AddressingMode, s: Machine): Result<Machine>
  {
    var m :- ReadOperand(am, s);
    var sh := Alu.Lsr(m);
    Modify(am, s, sh.result, Some(sh.carry))
  }

  function RolOp(am: AddressingMode, s: Machine): Result<Machine>
  {
    var r := s.regs;
    var m :- ReadOperand(am, s);
    var sh := Alu.Rol(m, r.flags.HasSet(Carry));
    Modify(am, s, sh.result, Some(sh.carry))
  }

  function RorOp(am: AddressingMode, s: Machine): Result<Machine>
  {
    var r := s.regs;
    var m :- ReadOperand(am, s);
    var sh := Alu.Ror(m, r.flags.HasSet(Carry));
    Modify(am, s, sh.result, Some(sh.carry))
  }

  function IncOp(am: AddressingMode, s: Machine): Result<Machine>
  {
    var m :- ReadOperand(am, s);
    Modify(am, s, Alu.Increment(m), None)
  }

  function DecOp(am: AddressingMode, s: Machine): Result<Machine>
  {
    var m :- ReadOperand(am, s);
    Modify(am, s, Alu.Decrement(m), None)
  }

  function InxOp(am: AddressingMode, s: Machine): Result<Machine>
  {
    var m :- ReadOperand(am, s);
    Ok(LoadX(s, Alu.Increment(m)))
  }

  function InyOp(am: AddressingMode, s: Machine): Result<Machine>
  {
    var m :- ReadOperand(am, s);
    Ok(LoadY(s, Alu.Increment(m)))
  }

  function DexOp(am: AddressingMode, s: Machine): Result<Machine>
  {
    var m :- ReadOperand(am, s);
    Ok(LoadX(s, Alu.Decrement(m)))
  }

  function DeyOp(am: AddressingMode, s: Machine): Result<Machine>
  {
    var m :- ReadOperand(am, s);
    Ok(LoadY(s, Alu.Decrement(m)))
  }

  function BitOp(am: AddressingMode, s: Machine): Result<Machine>
  {
    var r := s.regs;
    var m :- ReadOperand(am, s);
    var bf := Alu.BitTest(r.a, m);
    Ok(s.(regs := r.(flags := r.flags.Set(Zero, bf.zero).Set(Negative, bf.negative).Set(Overflow, bf.overflow))))
  }

  function BccOp(am: AddressingMode, s: Machine): Result<Machine>
  {
    BranchOnFlag(am, Carry, false, s)
  }

  function BcsOp(am: AddressingMode, s: Machine): Result<Machine>
  {
    BranchOnFlag(am, Carry, true, s)
  }

  function BeqOp(am: AddressingMode, s: Machine): Result<Machine>
  {
    BranchOnFlag(am, Zero, true, s)
  }

  function BmiOp(am: AddressingMode, s: Machine): Result<Machine>
  {
    BranchOnFlag(am, Negative, true, s)
  }

  function BneOp(am: AddressingMode, s: Machine): Result<Machine>
  {
    BranchOnFlag(am, Zero, false, s)
  }

  function BplOp(am: AddressingMode, s: Machine): Result<Machine>
  {
    BranchOnFlag(am, Negative, false, s)
  }

  function BvcOp(am: AddressingMode, s: Machine): Result<Machine>
  {
    BranchOnFlag(am, Overflow, false, s)
  }

  function BvsOp(am: AddressingMode, s: Machine): Result<Machine>
  {
    BranchOnFlag(am, Overflow, true, s)
  }

  function ClcOp(am: AddressingMode, s: Machine): Result<Machine>
  {
    Ok(SetFlag(s, Carry, false))
  }

  function CldOp(am: AddressingMode, s: Machine): Result<Machine>
  {
    Ok(SetFlag(s, Decimal, false))
  }

  function CliOp(am: AddressingMode, s: Machine): Result<Machine>
  {
    Ok(SetFlag(s, Interrupt, false))
  }

  function ClvOp(am: AddressingMode, s: Machine): Result<Machine>
  {
    Ok(SetFlag(s, Overflow, false))
  }

  function SecOp(am: AddressingMode, s: Machine): Result<Machine>
  {
    Ok(SetFlag(s, Carry, true))
  }

  function SedOp(am: AddressingMode, s: Machine): Result<Machine>
  {
    Ok(SetFlag(s, Decimal, true))
  }

  function SeiOp(am: AddressingMode, s: Machine): Result<Machine>
  {
    Ok(SetFlag(s, Interrupt, true))
  }

  function CmpOp(am: AddressingMode, s: Machine): Result<Machine>
  {
    var r := s.regs;
    CompareWith(am, r.a, s)
  }

  function CpxOp(am: AddressingMode, s: Machine): Result<Machine>
  {
    var r := s.regs;
    CompareWith(am, r.x, s)
  }

  function CpyOp(am: AddressingMode, s: Machine): Result<Machine>
  {
    var r := s.regs;
    CompareWith(am, r.y, s)
  }

  function JmpOp(am: AddressingMode, s: Machine): Result<Machine>
  {
    var r := s.regs;
    var t :- Resolve(am, s);
    Ok(s.(regs := r.(pc := t)))
  }

  function JsrOp(am: AddressingMode, s: Machine): Result<Machine>
  {
    var r := s.regs;
    var t :- Resolve(am, s);
    var ret := Wrap16(r.pc - 1);
    var pushed := Push(Push(s, Hi(ret)), Lo(ret));
    Ok(pushed.(regs := pushed.regs.(pc := t)))
  }

  /** RTS and RTI pull the low byte, then the high byte, of the address they resume
      at; the address is written out as high * 256 + low. */
  function RtsOp(am: AddressingMode, s: Machine): Result<Machine>
  {
    var (s1, lo) := Pull(s);
    var (s2, hi) := Pull(s1);
    Ok(s2.(regs := s2.regs.(pc := Wrap16(hi as int * 0x100 + lo + 1))))
  }

  function RtiOp(am: AddressingMode, s: Machine): Result<Machine>
  {
    var r := s.regs;
    var (s1, p) := Pull(s);
    var (s2, lo) := Pull(s1);
    var (s3, hi) := Pull(s2);
    Ok(s3.(regs := s3.regs.(pc := hi as int * 0x100 + lo, flags := PulledFlags(p, r.flags))))
  }

  function BrkOp(am: AddressingMode, s: Machine): Result<Machine>
  {
    var r := s.regs;
    var ret := Wrap16(r.pc + 1);
    var pushed := Push(Push(Push(s, Hi(ret)), Lo(ret)), ToByte(r.flags.Set(Break, true)));
    var target := Word16(pushed.mem[INTVECADR], pushed.mem[INTVECADR + 1]);
    Ok(pushed.(regs := pushed.regs.(pc := target, flags := r.flags.Set(Break, true).Set(Interrupt, true))))
  }

  function PhaOp(am: AddressingMode, s: Machine): Result<Machine>
  {
    var r := s.regs;
    Ok(Push(s, r.a))
  }

  function PhpOp(am: AddressingMode, s: Machine): Result<Machine>
  {
    var r := s.regs;
    Ok(Push(s, ToByte(r.flags.Set(Break, true))))
  }

  function PlaOp(am: AddressingMode, s: Machine): Result<Machine>
  {
    var (s1, v) := Pull(s);
    Ok(LoadA(s1, v))
  }

  function PlpOp(am: AddressingMode, s: Machine): Result<Machine>
  {
    var r := s.regs;
    var (s1, v) := Pull(s);
    Ok(s1.(regs := s1.regs.(flags := PulledFlags(v, r.flags))))
  }

  function LdaOp(am: AddressingMode, s: Machine): Result<Machine>
  {
    var m :- ReadOperand(am, s);
    Ok(LoadA(s, m))
  }

  function LdxOp(am: AddressingMode, s: Machine): Result<Machine>
  {
    var m :- ReadOperand(am, s);
    Ok(LoadX(s, m))
  }

  function LdyOp(am: AddressingMode, s: Machine): Result<Machine>
  {
    var m :- ReadOperand(am, s);
    Ok(LoadY(s, m))
  }

  function StaOp(am: AddressingMode, s: Machine): Result<Machine>
  {
    var r := s.regs;
    WriteOperand(am, s, r.a)
  }

  function StxOp(am: AddressingMode, s: Machine): Result<Machine>
  {
    var r := s.regs;
    WriteOperand(am, s, r.x)
  }

  function StyOp(am: AddressingMode, s: Machine): Result<Machine>
  {
    var r := s.regs;
    WriteOperand(am, s, r.y)
  }

  function TaxOp(am: AddressingMode, s: Machine): Result<Machine>
  {
    var r := s.regs;
    Ok(LoadX(s, r.a))
  }

  function TayOp(am: AddressingMode, s: Machine): Result<Machine>
  {
    var r := s.regs;
    Ok(LoadY(s, r.a))
  }

  function TsxOp(am: AddressingMode, s: Machine): Result<Machine>
  {
    var r := s.regs;
    Ok(LoadX(s, r.sp))
  }

  function TxaOp(am: AddressingMode, s: Machine): Result<Machine>
  {
    var r := s.regs;
    Ok(LoadA(s, r.x))
  }

  function TyaOp(am: AddressingMode, s: Machine): Result<Machine>
  {
    var r := s.regs;
    Ok(LoadA(s, r.y))
  }

  function TxsOp(am: AddressingMode, s: Machine): Result<Machine>
  {
    var r := s.regs;
    Ok(s.(regs := r.(sp := r.x, flags := WithNZ(r.flags, r.x))))
  }

  function NopOp(am: AddressingMode, s: Machine): Result<Machine>
  {
    Ok(s)
  }

  function LaxOp(am: AddressingMode, s: Machine): Result<Machine>
  {
    var m :- ReadOperand(am, s);
    Ok(s.(regs := s.regs.(a := m, x := m, flags := WithNZ(s.regs.flags, m))))
  }

  function SaxOp(am: AddressingMode, s: Machine): Result<Machine>
  {
    var r := s.regs;
    WriteOperand(am, s, Bits.And(r.a, r.x))
  }

  function AxsOp(am: AddressingMode, s: Machine): Result<Machine>
  {
    var r := s.regs;
    var m :- ReadOperand(am, s);
    var t := Bits.And(r.a, r.x);
    var v := Wrap8(t as int - m);
    Ok(s.(regs := r.(x := v, flags := WithNZ(r.flags.Set(Carry, t >= m), v))))
  }

  /** AXS over a readable operand m, with the flag updates spelled out one at a time. */
  lemma AxsReads(am: AddressingMode, s: Machine, m: Byte)
    requires ReadOperand(am, s) == Ok(m)
    ensures
      var t := Bits.And(s.regs.a, s.regs.x);
      var v := Wrap8(t as int - m);
      AxsOp(am, s) == Ok(s.(regs := s.regs.(x := v, flags := s.regs.flags.Set(Carry, t >= m).Set(Zero, v == 0).Set(Negative, Alu.Negative(v)))))
  {
  }

  /** One iteration of `exec` (cpu.rs:96-105): decode at pc; a decoded instruction
      first advances pc by its byte size and then runs; an undecodable byte is a
      one-byte no-op. */
  function StepSpec(decode: seq<Byte> -> Option<Instruction>, s: Machine): Result<Machine>
  {
    match decode(s.mem[s.regs.pc..])
    case Some(ins) => Execute(ins.handler, ins.mode, Advance(s, ins.ByteSize()))
    case None => Ok(Advance(s, 1))
  }

  /** The state with pc moved `n` bytes on, modulo 2^16. */
  function Advance(s: Machine, n: nat): Machine
  {
    s.(regs := s.regs.(pc := Wrap16(s.regs.pc + n)))
  }

  lemma StepRunsDecoded(decode: seq<Byte> -> Option<Instruction>, s: Machine, ins: Instruction)
    requires decode(s.mem[s.regs.pc..]) == Some(ins)
    ensures StepSpec(decode, s) == Execute(ins.handler, ins.mode, Advance(s, ins.ByteSize()))
  {
  }

  /** Where a bounded run of `exec` ends: the last state, and whether a handler panicked. */
  datatype Trace = Trace(final: Machine, halted: bool)

  function Run(decode: seq<Byte> -> Option<Instruction>, s: Machine, fuel: nat): Trace
    decreases fuel
  {
    if fuel == 0 then Trace(s, false)
    else
      match StepSpec(decode, s)
      case Panic(_) => Trace(s, true)
      case Ok(next) => Run(decode, next, fuel - 1)
  }

  /** Proof helper for the loop of `Cpu.Exec`: the run from s goes on from the state
      one step leaves behind, stopping there when the step panicked. */
  lemma RunContinues(decode: seq<Byte> -> Option<Instruction>, s: Machine, fuel: nat, ok: bool, after: Machine)
    requires fuel > 0
    requires ok == StepSpec(decode, s).Ok? && after == Settle(StepSpec(decode, s), s)
    ensures !ok ==> after == s && Run(decode, s, fuel) == Trace(s, true)
    ensures ok ==> Run(decode, s, fuel) == Run(decode, after, fuel - 1)
  {
    RunUnfolds(decode, s, fuel);
  }

  /** Proof helper for RunContinues: one unfolding of Run. */
  lemma RunUnfolds(decode: seq<Byte> -> Option<Instruction>, s: Machine, fuel: nat)
    requires fuel > 0
    ensures StepSpec(decode, s).Panic? ==> Run(decode, s, fuel) == Trace(s, true)
    ensures StepSpec(decode, s).Ok? ==> Run(decode, s, fuel) == Run(decode, StepSpec(decode, s).value, fuel - 1)
  {
  }
}
