/** The CPU object of 6502/mos6502/cpu.rs: registers and flags that the handlers
    update in place, over the `MemoryMap` array. Every handler is proved to leave
    the object in the state that `CpuSemantics.Execute` prescribes; on a panic of
    the source the method returns `false` and has changed nothing. */
module Cpu6502 {
  import opened Bits
  import opened Wrappers
  import opened CpuState
  import opened Addressing
  import opened CpuSemantics
  import opened MemoryMaps
  import Alu

  class Cpu {
    var a: Byte
    var x: Byte
    var y: Byte
    var sp: Byte
    var pc: Word
    var flags: CpuFlags
    const mem: MemoryMap

    ghost predicate Valid()
      reads this, mem
    {
      mem.Valid()
    }

    function Regs(): Registers
      reads this
    {
      Registers(a, x, y, sp, pc, flags)
    }

    /** The whole machine state as a value. */
    function State(): Machine
      reads this, mem, mem.mm
      requires Valid()
    {
      Machine(Regs(), mem.mm[..])
    }

    /** `ok` reports whether the reference result `r` is a success, and the
        object now holds that result (or still holds `before` on a panic). */
    ghost predicate Committed(ok: bool, r: Result<Machine>, before: Machine)
      reads this, mem, mem.mm
      requires Valid()
    {
      ok == r.Ok? && State() == Settle(r, before)
    }

    /** Power-on state: A = X = Y = 0, SP = 0xFF, PC = 0, no flag set, memory filled with NOPs. */
    constructor ()
      ensures Valid() && fresh(mem) && fresh(mem.mm)
      ensures Regs() == PowerOn
      ensures forall i :: 0 <= i < MM_SIZE ==> State().mem[i] == FILL
    {
      a, x, y, sp, pc := 0, 0, 0, 0xFF, 0;
      flags := NoFlags;
      mem := new MemoryMap();
    }

    /** Copies a program into memory at `from` (cells past the end of memory are dropped). */
    method LoadProgram(from: Word, program: seq<Byte>)
      requires Valid()
      modifies mem.mm
      ensures Valid() && Regs() == old(Regs())
      ensures forall i :: 0 <= i < MM_SIZE ==>
        State().mem[i] == if from <= i < from + |program| then program[i - from] else old(State()).mem[i]
    {
      mem.Copy(from, program);
    }

    // ---- flag helpers

    method CheckZfWith(val: Byte)
      requires Valid()
      modifies this
      ensures Regs() == old(Regs()).(flags := old(flags).Set(Zero, val == 0))
    {
      flags := flags.Set(Zero, val == 0);
    }

    /** Negative follows bit 7 of the value. */
    method CheckNfWith(val: Byte)
      requires Valid()
      modifies this
      ensures Regs() == old(Regs()).(flags := old(flags).Set(Negative, Alu.Negative(val)))
    {
      flags := flags.Set(Negative, Alu.Negative(val));
    }

    // ---- operand access

    /** `write_op`: a memory mode writes the resolved cell, a register mode the register. */
    method WriteOp(am: AddressingMode, value: Byte) returns (ok: bool)
      requires Valid()
      modifies this, mem.mm
      ensures Valid() && Committed(ok, WriteOperand(am, old(State()), value), old(State()))
    {
      if am.HasToAccessMemory() {
        var address := Resolve(am, State()).value;
        var _ := mem.Write(address, value);
        return true;
      }
      ok := true;
      match am
      case AccA => a := value;
      case AccX => x := value;
      case AccY => y := value;
      case AccSP => sp := value;
      case _ => ok := false;
    }

    method Push(v: Byte)
      requires Valid()
      modifies this, mem.mm
      ensures Valid() && State() == CpuSemantics.Push(old(State()), v)
    {
      var _ := mem.Write(STACK_BASE + sp, v);
      sp := Wrap8(sp - 1);
    }

    method Pull() returns (v: Byte)
      requires Valid()
      modifies this
      ensures Valid() && (State(), v) == CpuSemantics.Pull(old(State()))
    {
      sp := Wrap8(sp + 1);
      v := mem.Read(STACK_BASE + sp);
    }

    /** Load-style handlers: read the operand, or panic. */
    method ReadOp(am: AddressingMode) returns (ok: bool, m: Byte)
      requires Valid()
      ensures ok == ReadOperand(am, State()).Ok?
      ensures ok ==> m == ReadOperand(am, State()).value
    {
      var r := ReadOperand(am, State());
      if r.Panic? {
        return false, 0;
      }
      return true, r.value;
    }

    method Compare(am: AddressingMode, reg: Byte) returns (ok: bool)
      requires Valid()
      modifies this
      ensures Valid() && Committed(ok, CompareWith(am, reg, old(State())), old(State()))
    {
      var m;
      ok, m := ReadOp(am);
      if !ok {
        return;
      }
      var c := Wrap8(reg as int - m);
      assert Alu.Compare(reg, m) == Alu.CompareFlags(reg >= m, c == 0, Bit7(c));
      flags := flags.Set(Carry, reg >= m);
      CheckZfWith(c);
      CheckNfWith(c);
    }

    method BranchOnFlag(am: AddressingMode, f: Flag, value: bool) returns (ok: bool)
      requires Valid()
      modifies this
      ensures Valid() && Committed(ok, CpuSemantics.BranchOnFlag(am, f, value, old(State())), old(State()))
    {
      ok := true;
      if flags.HasSet(f) == value {
        var target := Resolve(am, State());
        if target.Panic? {
          return false;
        }
        pc := target.value;
      }
    }

    // ---- arithmetic and logic

    method Adc(am: AddressingMode) returns (ok: bool)
      requires Valid()
      modifies this
      ensures Valid() && Committed(ok, AdcOp(am, old(State())), old(State()))
    {
      var c := flags.Bit(Carry);
      var m;
      ok, m := ReadOp(am);
      if !ok {
        return;
      }
      var sum := if flags.HasSet(Decimal) then Alu.AdcDecimal(a, m, c) else Alu.AdcBinary(a, m, c);
      ghost var s := State();
      assert AdcOp(am, s) == Ok(ApplySum(s, sum));
      flags := flags.Set(Carry, sum.carry);
      flags := flags.Set(Overflow, sum.overflow);
      flags := flags.Set(Zero, sum.result == 0);
      flags := flags.Set(Negative, Alu.Negative(sum.result));
      a := sum.result;
      assert State() == ApplySum(s, sum);
    }

    method Sbc(am: AddressingMode) returns (ok: bool)
      requires Valid()
      modifies this
      ensures Valid() && Committed(ok, SbcOp(am, old(State())), old(State()))
    {
      var c := flags.Bit(Carry);
      var m;
      ok, m := ReadOp(am);
      if !ok {
        return;
      }
      var sum := if flags.HasSet(Decimal) then Alu.SbcDecimal(a, m, c) else Alu.SbcBinary(a, m, c);
      ghost var s := State();
      assert SbcOp(am, s) == Ok(ApplySum(s, sum));
      flags := flags.Set(Carry, sum.carry);
      flags := flags.Set(Overflow, sum.overflow);
      flags := flags.Set(Zero, sum.result == 0);
      flags := flags.Set(Negative, Alu.Negative(sum.result));
      a := sum.result;
      assert State() == ApplySum(s, sum);
    }

    method And(am: AddressingMode) returns (ok: bool)
      requires Valid()
      modifies this
      ensures Valid() && Committed(ok, AndOp(am, old(State())), old(State()))
    {
      var m;
      ok, m := ReadOp(am);
      if !ok {
        return;
      }
      a := Bits.And(a, m);
      CheckZfWith(a);
      CheckNfWith(a);
    }

    method Ora(am: AddressingMode) returns (ok: bool)
      requires Valid()
      modifies this
      ensures Valid() && Committed(ok, OraOp(am, old(State())), old(State()))
    {
      var m;
      ok, m := ReadOp(am);
      if !ok {
        return;
      }
      var r := Or(a, m);
      a := r;
      SetCommutes(flags, Zero, r == 0, Negative, Alu.Negative(r));
      CheckNfWith(r);
      CheckZfWith(r);
    }

    method Eor(am: AddressingMode) returns (ok: bool)
      requires Valid()
      modifies this
      ensures Valid() && Committed(ok, EorOp(am, old(State())), old(State()))
    {
      var m;
      ok, m := ReadOp(am);
      if !ok {
        return;
      }
      var r := Xor(a, m);
      a := r;
      CheckZfWith(r);
      CheckNfWith(r);
    }

    method Bit(am: AddressingMode) returns (ok: bool)
      requires Valid()
      modifies this
      ensures Valid() && Committed(ok, BitOp(am, old(State())), old(State()))
    {
      var m;
      ok, m := ReadOp(am);
      if !ok {
        return;
      }
      var t := Alu.BitTest(a, m);
      flags := flags.Set(Zero, t.zero);
      flags := flags.Set(Negative, t.negative);
      flags := flags.Set(Overflow, t.overflow);
    }

    method Cmp(am: AddressingMode) returns (ok: bool)
      requires Valid()
      modifies this
      ensures Valid() && Committed(ok, CmpOp(am, old(State())), old(State()))
    {
      ok := Compare(am, a);
    }

    method Cpx(am: AddressingMode) returns (ok: bool)
      requires Valid()
      modifies this
      ensures Valid() && Committed(ok, CpxOp(am, old(State())), old(State()))
    {
      ok := Compare(am, x);
    }

    method Cpy(am: AddressingMode) returns (ok: bool)
      requires Valid()
      modifies this
      ensures Valid() && Committed(ok, CpyOp(am, old(State())), old(State()))
    {
      ok := Compare(am, y);
    }

    // ---- read-modify-write

    /** Writes `r` back through `am`, then Carry (when given) and N/Z. */
    method WriteBack(am: AddressingMode, r: Byte, carry: Option<bool>) returns (ok: bool)
      requires Valid()
      modifies this, mem.mm
      ensures Valid() && Committed(ok, Modify(am, old(State()), r, carry), old(State()))
    {
      ok := WriteOp(am, r);
      if !ok {
        return;
      }
      if carry.Some? {
        flags := flags.Set(Carry, carry.value);
      }
      flags := WithNZ(flags, r);
    }

    method Asl(am: AddressingMode) returns (ok: bool)
      requires Valid()
      modifies this, mem.mm
      ensures Valid() && Committed(ok, AslOp(am, old(State())), old(State()))
    {
      var o;
      ok, o := ReadOp(am);
      if !ok {
        return;
      }
      var sh := Alu.Asl(o);
      ok := WriteBack(am, sh.result, Some(sh.carry));
    }

    method Lsr(am: AddressingMode) returns (ok: bool)
      requires Valid()
      modifies this, mem.mm
      ensures Valid() && Committed(ok, LsrOp(am, old(State())), old(State()))
    {
      var op;
      ok, op := ReadOp(am);
      if !ok {
        return;
      }
      var sh := Alu.Lsr(op);
      ok := WriteBack(am, sh.result, Some(sh.carry));
    }

    method Rol(am: AddressingMode) returns (ok: bool)
      requires Valid()
      modifies this, mem.mm
      ensures Valid() && Committed(ok, RolOp(am, old(State())), old(State()))
    {
      var op;
      ok, op := ReadOp(am);
      if !ok {
        return;
      }
      var sh := Alu.Rol(op, flags.HasSet(Carry));
      ok := WriteBack(am, sh.result, Some(sh.carry));
    }

    method Ror(am: AddressingMode) returns (ok: bool)
      requires Valid()
      modifies this, mem.mm
      ensures Valid() && Committed(ok, RorOp(am, old(State())), old(State()))
    {
      var op;
      ok, op := ReadOp(am);
      if !ok {
        return;
      }
      var sh := Alu.Ror(op, flags.HasSet(Carry));
      ok := WriteBack(am, sh.result, Some(sh.carry));
    }

    method Inc(am: AddressingMode) returns (ok: bool)
      requires Valid()
      modifies this, mem.mm
      ensures Valid() && Committed(ok, IncOp(am, old(State())), old(State()))
    {
      var m;
      ok, m := ReadOp(am);
      if !ok {
        return;
      }
      ok := WriteBack(am, Alu.Increment(m), None);
    }

    method Dec(am: AddressingMode) returns (ok: bool)
      requires Valid()
      modifies this, mem.mm
      ensures Valid() && Committed(ok, DecOp(am, old(State())), old(State()))
    {
      var m;
      ok, m := ReadOp(am);
      if !ok {
        return;
      }
      ok := WriteBack(am, Alu.Decrement(m), None);
    }

    method Inx(am: AddressingMode) returns (ok: bool)
      requires Valid()
      modifies this
      ensures Valid() && Committed(ok, InxOp(am, old(State())), old(State()))
    {
      var m;
      ok, m := ReadOp(am);
      if !ok {
        return;
      }
      var r := Alu.Increment(m);
      x := r;
      CheckZfWith(r);
      CheckNfWith(r);
    }

    method Iny(am: AddressingMode) returns (ok: bool)
      requires Valid()
      modifies this
      ensures Valid() && Committed(ok, InyOp(am, old(State())), old(State()))
    {
      var m;
      ok, m := ReadOp(am);
      if !ok {
        return;
      }
      var r := Alu.Increment(m);
      y := r;
      CheckZfWith(r);
      CheckNfWith(r);
    }

    method Dex(am: AddressingMode) returns (ok: bool)
      requires Valid()
      modifies this
      ensures Valid() && Committed(ok, DexOp(am, old(State())), old(State()))
    {
      var m;
      ok, m := ReadOp(am);
      if !ok {
        return;
      }
      var r := Alu.Decrement(m);
      x := r;
      CheckZfWith(r);
      CheckNfWith(r);
    }

    method Dey(am: AddressingMode) returns (ok: bool)
      requires Valid()
      modifies this
      ensures Valid() && Committed(ok, DeyOp(am, old(State())), old(State()))
    {
      var m;
      ok, m := ReadOp(am);
      if !ok {
        return;
      }
      var r := Alu.Decrement(m);
      y := r;
      CheckZfWith(r);
      CheckNfWith(r);
    }

    // ---- branches and jumps

    method Bcc(am: AddressingMode) returns (ok: bool)
      requires Valid()
      modifies this
      ensures Valid() && Committed(ok, BccOp(am, old(State())), old(State()))
    {
      ok := BranchOnFlag(am, Carry, false);
    }

    method Bcs(am: AddressingMode) returns (ok: bool)
      requires Valid()
      modifies this
      ensures Valid() && Committed(ok, BcsOp(am, old(State())), old(State()))
    {
      ok := BranchOnFlag(am, Carry, true);
    }

    method Beq(am: AddressingMode) returns (ok: bool)
      requires Valid()
      modifies this
      ensures Valid() && Committed(ok, BeqOp(am, old(State())), old(State()))
    {
      ok := BranchOnFlag(am, Zero, true);
    }

    method Bmi(am: AddressingMode) returns (ok: bool)
      requires Valid()
      modifies this
      ensures Valid() && Committed(ok, BmiOp(am, old(State())), old(State()))
    {
      ok := BranchOnFlag(am, Negative, true);
    }

    method Bne(am: AddressingMode) returns (ok: bool)
      requires Valid()
      modifies this
      ensures Valid() && Committed(ok, BneOp(am, old(State())), old(State()))
    {
      ok := BranchOnFlag(am, Zero, false);
    }

    method Bpl(am: AddressingMode) returns (ok: bool)
      requires Valid()
      modifies this
      ensures Valid() && Committed(ok, BplOp(am, old(State())), old(State()))
    {
      ok := BranchOnFlag(am, Negative, false);
    }

    method Bvc(am: AddressingMode) returns (ok: bool)
      requires Valid()
      modifies this
      ensures Valid() && Committed(ok, BvcOp(am, old(State())), old(State()))
    {
      ok := BranchOnFlag(am, Overflow, false);
    }

    method Bvs(am: AddressingMode) returns (ok: bool)
      requires Valid()
      modifies this
      ensures Valid() && Committed(ok, BvsOp(am, old(State())), old(State()))
    {
      ok := BranchOnFlag(am, Overflow, true);
    }

    method Jmp(am: AddressingMode) returns (ok: bool)
      requires Valid()
      modifies this
      ensures Valid() && Committed(ok, JmpOp(am, old(State())), old(State()))
    {
      var target := Resolve(am, State());
      if target.Panic? {
        return false;
      }
      pc := target.value;
      ok := true;
    }

    /** Pushes the address of the last operand byte (high byte first), then jumps. */
    method Jsr(am: AddressingMode) returns (ok: bool)
      requires Valid()
      modifies this, mem.mm
      ensures Valid() && Committed(ok, JsrOp(am, old(State())), old(State()))
    {
      var target := Resolve(am, State());
      if target.Panic? {
        return false;
      }
      var ret := Wrap16(pc - 1);
      Push(Hi(ret));
      Push(Lo(ret));
      pc := target.value;
      ok := true;
    }

    method Rts(am: AddressingMode) returns (ok: bool)
      requires Valid()
      modifies this
      ensures Valid() && Committed(ok, RtsOp(am, old(State())), old(State()))
    {
      var lo := Pull();
      var hi := Pull();
      pc := Wrap16(hi as int * 0x100 + lo + 1);
      ok := true;
    }

    method Rti(am: AddressingMode) returns (ok: bool)
      requires Valid()
      modifies this
      ensures Valid() && Committed(ok, RtiOp(am, old(State())), old(State()))
    {
      var p := Pull();
      var lo := Pull();
      var hi := Pull();
      flags := PulledFlags(p, flags);
      pc := hi as int * 0x100 + lo;
      ok := true;
    }

    /** Pushes pc + 1 and the status with Break set, sets Break and Interrupt, and
        loads pc from the vector at 0xFFFE. */
    method Brk(am: AddressingMode) returns (ok: bool)
      requires Valid()
      modifies this, mem.mm
      ensures Valid() && Committed(ok, BrkOp(am, old(State())), old(State()))
    {
      var ret := Wrap16(pc + 1);
      var status := ToByte(flags.Set(Break, true));
      Push(Hi(ret));
      Push(Lo(ret));
      Push(status);
      flags := flags.Set(Break, true).Set(Interrupt, true);
      pc := Word16(mem.Read(INTVECADR), mem.Read(INTVECADR + 1));
      ok := true;
    }

    // ---- stack

    method Pha(am: AddressingMode) returns (ok: bool)
      requires Valid()
      modifies this, mem.mm
      ensures Valid() && Committed(ok, PhaOp(am, old(State())), old(State()))
    {
      Push(a);
      ok := true;
    }

    method Php(am: AddressingMode) returns (ok: bool)
      requires Valid()
      modifies this, mem.mm
      ensures Valid() && Committed(ok, PhpOp(am, old(State())), old(State()))
    {
      Push(ToByte(flags.Set(Break, true)));
      ok := true;
    }

    method Pla(am: AddressingMode) returns (ok: bool)
      requires Valid()
      modifies this
      ensures Valid() && Committed(ok, PlaOp(am, old(State())), old(State()))
    {
      var v := Pull();
      a := v;
      CheckZfWith(v);
      CheckNfWith(v);
      ok := true;
    }

    method Plp(am: AddressingMode) returns (ok: bool)
      requires Valid()
      modifies this
      ensures Valid() && Committed(ok, PlpOp(am, old(State())), old(State()))
    {
      var v := Pull();
      flags := PulledFlags(v, flags);
      ok := true;
    }

    // ---- flag instructions

    method Clc(am: AddressingMode) returns (ok: bool)
      requires Valid()
      modifies this
      ensures Valid() && Committed(ok, ClcOp(am, old(State())), old(State()))
    {
      flags := flags.Set(Carry, false);
      ok := true;
    }

    method Cld(am: AddressingMode) returns (ok: bool)
      requires Valid()
      modifies this
      ensures Valid() && Committed(ok, CldOp(am, old(State())), old(State()))
    {
      flags := flags.Set(Decimal, false);
      ok := true;
    }

    method Cli(am: AddressingMode) returns (ok: bool)
      requires Valid()
      modifies this
      ensures Valid() && Committed(ok, CliOp(am, old(State())), old(State()))
    {
      flags := flags.Set(Interrupt, false);
      ok := true;
    }

    method Clv(am: AddressingMode) returns (ok: bool)
      requires Valid()
      modifies this
      ensures Valid() && Committed(ok, ClvOp(am, old(State())), old(State()))
    {
      flags := flags.Set(Overflow, false);
      ok := true;
    }

    method Sec(am: AddressingMode) returns (ok: bool)
      requires Valid()
      modifies this
      ensures Valid() && Committed(ok, SecOp(am, old(State())), old(State()))
    {
      flags := flags.Set(Carry, true);
      ok := true;
    }

    method Sed(am: AddressingMode) returns (ok: bool)
      requires Valid()
      modifies this
      ensures Valid() && Committed(ok, SedOp(am, old(State())), old(State()))
    {
      flags := flags.Set(Decimal, true);
      ok := true;
    }

    method Sei(am: AddressingMode) returns (ok: bool)
      requires Valid()
      modifies this
      ensures Valid() && Committed(ok, SeiOp(am, old(State())), old(State()))
    {
      flags := flags.Set(Interrupt, true);
      ok := true;
    }

    // ---- loads, stores and transfers

    method Lda(am: AddressingMode) returns (ok: bool)
      requires Valid()
      modifies this
      ensures Valid() && Committed(ok, LdaOp(am, old(State())), old(State()))
    {
      var r;
      ok, r := ReadOp(am);
      if !ok {
        return;
      }
      a := r;
      SetCommutes(flags, Zero, r == 0, Negative, Alu.Negative(r));
      CheckNfWith(r);
      CheckZfWith(r);
    }

    method Ldx(am: AddressingMode) returns (ok: bool)
      requires Valid()
      modifies this
      ensures Valid() && Committed(ok, LdxOp(am, old(State())), old(State()))
    {
      var r;
      ok, r := ReadOp(am);
      if !ok {
        return;
      }
      x := r;
      SetCommutes(flags, Zero, r == 0, Negative, Alu.Negative(r));
      CheckNfWith(r);
      CheckZfWith(r);
    }

    method Ldy(am: AddressingMode) returns (ok: bool)
      requires Valid()
      modifies this
      ensures Valid() && Committed(ok, LdyOp(am, old(State())), old(State()))
    {
      var r;
      ok, r := ReadOp(am);
      if !ok {
        return;
      }
      y := r;
      SetCommutes(flags, Zero, r == 0, Negative, Alu.Negative(r));
      CheckNfWith(r);
      CheckZfWith(r);
    }

    method Sta(am: AddressingMode) returns (ok: bool)
      requires Valid()
      modifies this, mem.mm
      ensures Valid() && Committed(ok, StaOp(am, old(State())), old(State()))
    {
      ok := WriteOp(am, a);
    }

    method Stx(am: AddressingMode) returns (ok: bool)
      requires Valid()
      modifies this, mem.mm
      ensures Valid() && Committed(ok, StxOp(am, old(State())), old(State()))
    {
      ok := WriteOp(am, x);
    }

    method Sty(am: AddressingMode) returns (ok: bool)
      requires Valid()
      modifies this, mem.mm
      ensures Valid() && Committed(ok, StyOp(am, old(State())), old(State()))
    {
      ok := WriteOp(am, y);
    }

    method Tax(am: AddressingMode) returns (ok: bool)
      requires Valid()
      modifies this
      ensures Valid() && Committed(ok, TaxOp(am, old(State())), old(State()))
    {
      x := a;
      SetCommutes(flags, Zero, x == 0, Negative, Alu.Negative(x));
      CheckNfWith(x);
      CheckZfWith(x);
      ok := true;
    }

    method Tay(am: AddressingMode) returns (ok: bool)
      requires Valid()
      modifies this
      ensures Valid() && Committed(ok, TayOp(am, old(State())), old(State()))
    {
      y := a;
      SetCommutes(flags, Zero, y == 0, Negative, Alu.Negative(y));
      CheckNfWith(y);
      CheckZfWith(y);
      ok := true;
    }

    method Tsx(am: AddressingMode) returns (ok: bool)
      requires Valid()
      modifies this
      ensures Valid() && Committed(ok, TsxOp(am, old(State())), old(State()))
    {
      x := sp;
      SetCommutes(flags, Zero, x == 0, Negative, Alu.Negative(x));
      CheckNfWith(x);
      CheckZfWith(x);
      ok := true;
    }

    method Txa(am: AddressingMode) returns (ok: bool)
      requires Valid()
      modifies this
      ensures Valid() && Committed(ok, TxaOp(am, old(State())), old(State()))
    {
      a := x;
      SetCommutes(flags, Zero, a == 0, Negative, Alu.Negative(a));
      CheckNfWith(a);
      CheckZfWith(a);
      ok := true;
    }

    method Txs(am: AddressingMode) returns (ok: bool)
      requires Valid()
      modifies this
      ensures Valid() && Committed(ok, TxsOp(am, old(State())), old(State()))
    {
      sp := x;
      SetCommutes(flags, Zero, sp == 0, Negative, Alu.Negative(sp));
      CheckNfWith(sp);
      CheckZfWith(sp);
      ok := true;
    }

    method Tya(am: AddressingMode) returns (ok: bool)
      requires Valid()
      modifies this
      ensures Valid() && Committed(ok, TyaOp(am, old(State())), old(State()))
    {
      a := y;
      SetCommutes(flags, Zero, a == 0, Negative, Alu.Negative(a));
      CheckNfWith(a);
      CheckZfWith(a);
      ok := true;
    }

    method Nop(am: AddressingMode) returns (ok: bool)
      requires Valid()
      ensures Committed(ok, NopOp(am, State()), State())
    {
      ok := true;
    }

    // ---- unofficial instructions

    method Lax(am: AddressingMode) returns (ok: bool)
      requires Valid()
      modifies this
      ensures Valid() && Committed(ok, LaxOp(am, old(State())), old(State()))
    {
      var m;
      ok, m := ReadOp(am);
      if !ok {
        return;
      }
      a := m;
      x := m;
      CheckZfWith(m);
      CheckNfWith(m);
    }

    method Sax(am: AddressingMode) returns (ok: bool)
      requires Valid()
      modifies this, mem.mm
      ensures Valid() && Committed(ok, SaxOp(am, old(State())), old(State()))
    {
      ok := WriteOp(am, Bits.And(a, x));
    }

    method Axs(am: AddressingMode) returns (ok: bool)
      requires Valid()
      modifies this
      ensures Valid() && Committed(ok, AxsOp(am, old(State())), old(State()))
    {
      var m;
      ok, m := ReadOp(am);
      if !ok {
        return;
      }
      ghost var s0 := State();
      AxsReads(am, s0, m);
      var t := Bits.And(a, x);
      var v := Wrap8(t as int - m);
      x := v;
      flags := flags.Set(Carry, t >= m);
      CheckZfWith(v);
      CheckNfWith(v);
      assert State() == s0.(regs := s0.regs.(x := v, flags := s0.regs.flags.Set(Carry, t >= m).Set(Zero, v == 0).Set(Negative, Alu.Negative(v))));
    }

    // ---- fetch and execute

    /** Runs the handler that an instruction names (`instruction.exec(self)`). */
    method Dispatch(ins: Instruction) returns (ok: bool)
      requires Valid()
      modifies this, mem.mm
      ensures Valid() && Committed(ok, Execute(ins.handler, ins.mode, old(State())), old(State()))
    {
      var am := ins.mode;
      match ins.handler
      case Adc => ok := Adc(am);
      case And => ok := And(am);
      case Asl => ok := Asl(am);
      case Bcc => ok := Bcc(am);
      case Bcs => ok := Bcs(am);
      case Beq => ok := Beq(am);
      case Bit => ok := Bit(am);
      case Bmi => ok := Bmi(am);
      case Bne => ok := Bne(am);
      case Bpl => ok := Bpl(am);
      case Brk => ok := Brk(am);
      case Bvc => ok := Bvc(am);
      case Bvs => ok := Bvs(am);
      case Clc => ok := Clc(am);
      case Cld => ok := Cld(am);
      case Cli => ok := Cli(am);
      case Clv => ok := Clv(am);
      case Cmp => ok := Cmp(am);
      case Cpx => ok := Cpx(am);
      case Cpy => ok := Cpy(am);
      case Dec => ok := Dec(am);
      case Dex => ok := Dex(am);
      case Dey => ok := Dey(am);
      case Eor => ok := Eor(am);
      case Inc => ok := Inc(am);
      case Inx => ok := Inx(am);
      case Iny => ok := Iny(am);
      case Jmp => ok := Jmp(am);
      case Jsr => ok := Jsr(am);
      case Lda => ok := Lda(am);
      case Ldx => ok := Ldx(am);
      case Ldy => ok := Ldy(am);
      case Lsr => ok := Lsr(am);
      case Nop => ok := Nop(am);
      case Ora => ok := Ora(am);
      case Pha => ok := Pha(am);
      case Php => ok := Php(am);
      case Pla => ok := Pla(am);
      case Plp => ok := Plp(am);
      case Rol => ok := Rol(am);
      case Ror => ok := Ror(am);
      case Rti => ok := Rti(am);
      case Rts => ok := Rts(am);
      case Sbc => ok := Sbc(am);
      case Sec => ok := Sec(am);
      case Sed => ok := Sed(am);
      case Sei => ok := Sei(am);
      case Sta => ok := Sta(am);
      case Stx => ok := Stx(am);
      case Sty => ok := Sty(am);
      case Tax => ok := Tax(am);
      case Tay => ok := Tay(am);
      case Tsx => ok := Tsx(am);
      case Txa => ok := Txa(am);
      case Txs => ok := Txs(am);
      case Tya => ok := Tya(am);
      case Lax => ok := Lax(am);
      case Sax => ok := Sax(am);
      case Axs => ok := Axs(am);
    }

    /** One iteration of the `exec` loop: decode at pc; a decoded instruction
        advances pc by its size and then runs, any other byte is skipped. */
    method Step(decode: seq<Byte> -> Option<Instruction>) returns (ok: bool)
      requires Valid()
      modifies this, mem.mm
      ensures Valid() && Committed(ok, StepSpec(decode, old(State())), old(State()))
    {
      ghost var s := State();
      var code := mem.From(pc);
      assert code == s.mem[s.regs.pc..];
      match decode(code)
      case Some(ins) =>
        var current := pc;
        pc := Wrap16(pc + ins.ByteSize());
        assert State() == Advance(s, ins.ByteSize());
        StepRunsDecoded(decode, s, ins);
        ok := Dispatch(ins);
        if !ok {
          // The source panics here; the model restores the state before the step.
          pc := current;
        }
      case None =>
        pc := Wrap16(pc + 1);
        ok := true;
    }

    /** `exec`: start at `fromAddress` and step until a handler panics or `fuel`
        steps have run. The end of memory is never reached, since pc wraps. */
    method Exec(fromAddress: Word, decode: seq<Byte> -> Option<Instruction>, fuel: nat) returns (halted: bool)
      requires Valid()
      modifies this, mem.mm
      ensures Valid()
      ensures Run(decode, old(State()).(regs := old(State()).regs.(pc := fromAddress)), fuel) == Trace(State(), halted)
    {
      pc := fromAddress;
      ghost var start := State();
      assert start == old(State()).(regs := old(State()).regs.(pc := fromAddress));
      var steps := 0;
      while steps < fuel && !mem.IsOverflowing(pc)
        invariant Valid() && 0 <= steps <= fuel
        invariant Run(decode, start, fuel) == Run(decode, State(), fuel - steps)
        decreases fuel - steps
      {
        ghost var before := State();
        var ok := Step(decode);
        RunContinues(decode, before, fuel - steps, ok, State());
        if !ok {
          return true;
        }
        steps := steps + 1;
      }
      assert steps == fuel;
      halted := false;
    }
  }
}
