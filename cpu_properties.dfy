/** Properties of the 6502 reference semantics: what the handlers of
    6502/mos6502/cpu.rs promise, stack round trips, and the fetch-execute step. */
module CpuProperties {
  import opened Bits
  import opened Wrappers
  import opened CpuState
  import opened Addressing
  import opened CpuSemantics
  import Alu

  /** Binary ADC: A = (A + M + C) mod 256, Carry iff the sum reaches 256, Overflow
      iff the signed sum leaves -128..127, Zero and Negative from the new A; no other
      flag, register or memory cell changes. */
  lemma AdcBinaryMode(am: AddressingMode, s: Machine)
    requires !s.regs.flags.HasSet(Decimal)
    ensures AdcOp(am, s).Ok? <==> ReadOperand(am, s).Ok?
    ensures ReadOperand(am, s).Ok? ==>
      var m := ReadOperand(am, s).value;
      var sum := s.regs.a + m + s.regs.flags.Bit(Carry);
      var t := AdcOp(am, s).value;
      && t.regs.a == sum % 0x100
      && (t.regs.flags.HasSet(Carry) <==> sum >= 0x100)
      && (t.regs.flags.HasSet(Zero) <==> t.regs.a == 0)
      && (t.regs.flags.HasSet(Negative) <==> Bit7(t.regs.a))
      && (t.regs.flags.HasSet(Overflow) <==>
            !(-0x80 <= Alu.Signed(s.regs.a) + Alu.Signed(m) + s.regs.flags.Bit(Carry) < 0x80))
      && (forall g :: g != Carry && g != Zero && g != Negative && g != Overflow ==>
            (t.regs.flags.HasSet(g) <==> s.regs.flags.HasSet(g)))
      && t.regs.(a := s.regs.a, flags := s.regs.flags) == s.regs
      && t.mem == s.mem
  {
    if ReadOperand(am, s).Ok? {
      Alu.AdcOverflowIsSignedOverflow(s.regs.a, ReadOperand(am, s).value, s.regs.flags.Bit(Carry));
    }
  }

  /** Decimal ADC on packed-BCD operands adds decimally: the new A is BCD and
      A' + 100 * Carry' = A + M + C in decimal. */
  lemma AdcDecimalMode(am: AddressingMode, s: Machine)
    requires s.regs.flags.HasSet(Decimal) && IsBcdPair(am, s)
    ensures AdcOp(am, s).Ok?
    ensures
      var m := ReadOperand(am, s).value;
      var t := AdcOp(am, s).value;
      && Alu.IsBcd(t.regs.a)
      && Alu.BcdValue(t.regs.a) + (if t.regs.flags.HasSet(Carry) then 100 else 0)
         == Alu.BcdValue(s.regs.a) + Alu.BcdValue(m) + s.regs.flags.Bit(Carry)
  {
    Alu.AdcDecimalIsDecimalSum(s.regs.a, ReadOperand(am, s).value, s.regs.flags.Bit(Carry));
  }

  /** The operand exists and both it and A hold two decimal digits. */
  predicate IsBcdPair(am: AddressingMode, s: Machine)
  {
    ReadOperand(am, s).Ok? && Alu.IsBcd(s.regs.a) && Alu.IsBcd(ReadOperand(am, s).value)
  }

  /** `compare`: Carry iff reg >= M, Zero iff reg == M, Negative from bit 7 of
      reg - M (modulo 256), and no other flag, register or memory cell changes; it
      panics exactly when the operand cannot be read. */
  lemma CompareChangesOnlyFlags(am: AddressingMode, reg: Byte, s: Machine)
    ensures CompareWith(am, reg, s).Ok? <==> ReadOperand(am, s).Ok?
    ensures ReadOperand(am, s).Ok? ==>
      var m := ReadOperand(am, s).value;
      var t := CompareWith(am, reg, s).value;
      && (t.regs.flags.HasSet(Carry) <==> reg >= m)
      && (t.regs.flags.HasSet(Zero) <==> reg == m)
      && (t.regs.flags.HasSet(Negative) <==> Bit7((reg - m) % 0x100))
      && (forall g :: g != Carry && g != Zero && g != Negative ==>
            (t.regs.flags.HasSet(g) <==> s.regs.flags.HasSet(g)))
      && t.regs.(flags := s.regs.flags) == s.regs
      && t.mem == s.mem
  {
  }

  /** `branch_on_flag` with a relative operand: pc moves to pc + offset (signed,
      modulo 2^16) iff the flag has the expected value, and nothing else changes. */
  lemma BranchTakenIffFlag(o: Byte, f: Flag, value: bool, s: Machine)
    ensures CpuSemantics.BranchOnFlag(Relative(o), f, value, s)
         == Ok(if s.regs.flags.HasSet(f) == value
               then s.(regs := s.regs.(pc := Wrap16(s.regs.pc + SignExtend(o))))
               else s)
  {
  }

  /** A decoded straight-line instruction leaves pc just past itself; an
      undecodable byte moves pc by one and changes nothing else. */
  lemma StepAdvancesPc(decode: seq<Byte> -> Option<Instruction>, s: Machine)
    ensures decode(s.mem[s.regs.pc..]).None? ==>
      StepSpec(decode, s) == Ok(s.(regs := s.regs.(pc := (s.regs.pc + 1) % 0x1_0000)))
    ensures (decode(s.mem[s.regs.pc..]).Some? && !decode(s.mem[s.regs.pc..]).value.handler.IsControlFlow()
             && StepSpec(decode, s).Ok?) ==>
      StepSpec(decode, s).value.regs.pc == (s.regs.pc + decode(s.mem[s.regs.pc..]).value.ByteSize()) % 0x1_0000
  {
    match decode(s.mem[s.regs.pc..])
    case None =>
    case Some(ins) =>
      StepRunsDecoded(decode, s, ins);
  }

  // ---------------------------------------------------------------------
  // Stack round trips

  /** Setting a flag and then putting back its old value restores the flag set. */
  lemma SetRestores(fl: CpuFlags, f: Flag, v: bool)
    ensures fl.Set(f, v).Set(f, fl.HasSet(f)) == fl
  {
    assert fl.Set(f, v).Set(f, fl.HasSet(f)).flags == fl.flags;
  }

  /** Decrementing and incrementing the stack pointer undo each other, and a
      decrement always moves it. */
  lemma StackPointerSteps(sp: Byte)
    ensures Wrap8(Wrap8(sp as int - 1) as int + 1) == sp
    ensures Wrap8(sp as int - 1) != sp
  {
  }

  /** A pull from a stack whose pointer and top cell are as one push left them
      returns the pushed byte and the pointer from before the push. */
  lemma PullBack(u: Machine, s: Machine, v: Byte)
    requires u.regs.sp == Push(s, v).regs.sp
    requires u.mem[STACK_BASE + s.regs.sp] == v
    ensures Pull(u).1 == v && Pull(u).0.regs.sp == s.regs.sp
  {
    StackPointerSteps(s.regs.sp);
  }

  /** PLA after PHA gives back A and sp. */
  lemma PhaPlaRoundTrip(s: Machine)
    ensures
      var t := PlaOp(Implicit, PhaOp(Implicit, s).value).value;
      t.regs.a == s.regs.a && t.regs.sp == s.regs.sp
  {
    StackPointerSteps(s.regs.sp);
  }

  /** PLP after PHP gives back every flag, and sp. */
  lemma PhpPlpRoundTrip(s: Machine)
    ensures
      var t := PlpOp(Implicit, PhpOp(Implicit, s).value).value;
      t.regs == s.regs
  {
    var f := s.regs.flags;
    ByteRoundTrip(f.Set(Break, true));
    SetRestores(f, Break, true);
    StackPointerSteps(s.regs.sp);
  }

  /** Two pulls from a stack as two pushes left it give the pushed bytes back in
      reverse order and the pointer from before the pushes. */
  lemma PullTwice(s: Machine, u: Machine, first: Byte, second: Byte)
    requires u.regs.sp == Push(Push(s, first), second).regs.sp
    requires u.mem[STACK_BASE + s.regs.sp] == first
    requires u.mem[STACK_BASE + Push(s, first).regs.sp] == second
    ensures Pull(u).1 == second && Pull(Pull(u).0).1 == first
    ensures Pull(Pull(u).0).0.regs.sp == s.regs.sp
  {
    PullBack(u, Push(s, first), second);
    PullBack(Pull(u).0, s, first);
  }

  /** RTS over a stack holding the low then the high byte of `ret` resumes at
      ret + 1 with both bytes pulled. */
  lemma RtsReturnsTo(u: Machine, ret: Word)
    requires Pull(u).1 == Lo(ret) && Pull(Pull(u).0).1 == Hi(ret)
    ensures RtsOp(Implicit, u).Ok?
    ensures RtsOp(Implicit, u).value.regs.pc == Wrap16(ret as int + 1)
    ensures RtsOp(Implicit, u).value.regs.sp == Pull(Pull(u).0).0.regs.sp
  {
    var (s1, lo) := Pull(u);
    var (s2, hi) := Pull(s1);
    assert RtsOp(Implicit, u) == Ok(s2.(regs := s2.regs.(pc := Wrap16(hi as int * 0x100 + lo + 1))));
    assert hi as int * 0x100 + lo == ret by {
      WordSplitJoin(ret);
    }
  }

  /** JSR stores the return address one below the next instruction, so adding one
      gives the next instruction back. */
  lemma ReturnAddress(pc: Word)
    ensures Wrap16(Wrap16(pc as int - 1) as int + 1) == pc
  {
  }

  /** `JSR abs` jumps to the operand with the high then low byte of pc - 1 pushed. */
  lemma JsrPushesReturn(l: Byte, h: Byte, s: Machine)
    ensures JsrOp(Abs(l, h), s).Ok?
    ensures
      var ret := Wrap16(s.regs.pc as int - 1);
      var j := JsrOp(Abs(l, h), s).value;
      && j.regs.pc == Word16(l, h)
      && j.regs.sp == Push(Push(s, Hi(ret)), Lo(ret)).regs.sp
      && j.mem[STACK_BASE + s.regs.sp] == Hi(ret)
      && j.mem[STACK_BASE + Push(s, Hi(ret)).regs.sp] == Lo(ret)
  {
    StackPointerSteps(s.regs.sp);
  }

  /** After `JSR abs`, two pulls give back the low then the high byte of pc - 1 and
      the stack pointer from before the call. */
  lemma JsrThenPulls(l: Byte, h: Byte, s: Machine)
    ensures JsrOp(Abs(l, h), s).Ok?
    ensures
      var ret := Wrap16(s.regs.pc as int - 1);
      var j := JsrOp(Abs(l, h), s).value;
      && j.regs.pc == Word16(l, h)
      && Pull(j).1 == Lo(ret) && Pull(Pull(j).0).1 == Hi(ret)
      && Pull(Pull(j).0).0.regs.sp == s.regs.sp
  {
    var ret := Wrap16(s.regs.pc as int - 1);
    JsrPushesReturn(l, h, s);
    PullTwice(s, JsrOp(Abs(l, h), s).value, Hi(ret), Lo(ret));
  }

  /** RTS after `JSR abs` returns to the instruction after the call with sp restored. */
  lemma JsrRtsRoundTrip(l: Byte, h: Byte, s: Machine)
    ensures
      var j := JsrOp(Abs(l, h), s);
      && j.Ok? && j.value.regs.pc == Word16(l, h)
      && RtsOp(Implicit, j.value).value.regs.pc == s.regs.pc
      && RtsOp(Implicit, j.value).value.regs.sp == s.regs.sp
  {
    var ret := Wrap16(s.regs.pc as int - 1);
    JsrThenRts(l, h, s);
    assert Wrap16(ret as int + 1) == s.regs.pc by {
      ReturnAddress(s.regs.pc);
    }
  }

  /** RTS after `JSR abs` resumes one past the address JSR pushed, with sp restored. */
  lemma JsrThenRts(l: Byte, h: Byte, s: Machine)
    ensures
      var j := JsrOp(Abs(l, h), s);
      && j.Ok? && j.value.regs.pc == Word16(l, h)
      && RtsOp(Implicit, j.value).value.regs.pc == Wrap16(Wrap16(s.regs.pc as int - 1) as int + 1)
      && RtsOp(Implicit, j.value).value.regs.sp == s.regs.sp
  {
    JsrThenPulls(l, h, s);
    RtsReturnsTo(JsrOp(Abs(l, h), s).value, Wrap16(s.regs.pc as int - 1));
  }

  /** The status byte BRK pushes, pulled back by RTI over BRK's flags, gives the
      flags before BRK with Break set. */
  lemma BrkStatusRestored(fl: CpuFlags)
    ensures PulledFlags(ToByte(fl.Set(Break, true)), fl.Set(Break, true).Set(Interrupt, true)) == fl.Set(Break, true)
  {
    var f := fl.Set(Break, true);
    ByteRoundTrip(f);
    SetRestores(f, Interrupt, true);
  }

  /** BRK leaves the status byte on top of the stack, the low byte of pc + 1 under it
      and the high byte under that; three pulls give them back and restore sp. */
  lemma BrkPulls(s: Machine)
    ensures BrkOp(Implicit, s).Ok?
    ensures
      var ret := Wrap16(s.regs.pc + 1);
      var b := BrkOp(Implicit, s).value;
      && Pull(b).1 == ToByte(s.regs.flags.Set(Break, true))
      && Pull(Pull(b).0).1 == Lo(ret)
      && Pull(Pull(Pull(b).0).0).1 == Hi(ret)
      && Pull(Pull(Pull(b).0).0).0.regs.sp == s.regs.sp
  {
    var ret := Wrap16(s.regs.pc + 1);
    var f := s.regs.flags.Set(Break, true);
    var p1 := Push(s, Hi(ret));
    var p2 := Push(p1, Lo(ret));
    var p3 := Push(p2, ToByte(f));
    var b := BrkOp(Implicit, s).value;
    assert b.mem == p3.mem && b.regs.sp == p3.regs.sp;
    var sp, sp1, sp2 := s.regs.sp, p1.regs.sp, p2.regs.sp;
    StackPointerSteps(sp);
    StackPointerSteps(sp1);
    assert sp2 != sp by {
      assert sp1 == (sp as int - 1) % 0x100 && sp2 == (sp1 as int - 1) % 0x100;
    }
    assert b.mem[STACK_BASE + sp2] == ToByte(f);
    assert b.mem[STACK_BASE + sp1] == Lo(ret);
    assert b.mem[STACK_BASE + sp] == Hi(ret);
    PullBack(b, p2, ToByte(f));
    PullTwice(s, Pull(b).0, Hi(ret), Lo(ret));
  }

  /** RTI over a stack holding a status byte, then the low and the high byte of
      `ret`, resumes at `ret` with the pulled flags and three bytes pulled. */
  lemma RtiReturnsTo(u: Machine, ret: Word, p: Byte)
    requires Pull(u).1 == p && Pull(Pull(u).0).1 == Lo(ret) && Pull(Pull(Pull(u).0).0).1 == Hi(ret)
    ensures RtiOp(Implicit, u).Ok?
    ensures RtiOp(Implicit, u).value.regs.pc == ret
    ensures RtiOp(Implicit, u).value.regs.sp == Pull(Pull(Pull(u).0).0).0.regs.sp
    ensures RtiOp(Implicit, u).value.regs.flags == PulledFlags(p, u.regs.flags)
  {
    var (s1, q) := Pull(u);
    var (s2, lo) := Pull(s1);
    var (s3, hi) := Pull(s2);
    assert RtiOp(Implicit, u) == Ok(s3.(regs := s3.regs.(pc := hi as int * 0x100 + lo, flags := PulledFlags(q, u.regs.flags))));
    assert hi as int * 0x100 + lo == ret by {
      WordSplitJoin(ret);
    }
  }

  /** RTI after BRK resumes at pc + 1 with sp and every flag but Break restored
      (Break reads as set). */
  lemma BrkRtiRoundTrip(s: Machine)
    ensures
      var b := BrkOp(Implicit, s).value;
      var t := RtiOp(Implicit, b).value;
      && b.regs.pc == Word16(b.mem[INTVECADR], b.mem[INTVECADR + 1])
      && b.regs.flags.HasSet(Interrupt) && b.regs.flags.HasSet(Break)
      && t.regs.pc == (s.regs.pc + 1) % 0x1_0000
      && t.regs.sp == s.regs.sp
      && t.regs.flags == s.regs.flags.Set(Break, true)
  {
    var ret := Wrap16(s.regs.pc + 1);
    var f := s.regs.flags.Set(Break, true);
    BrkPulls(s);
    var b := BrkOp(Implicit, s).value;
    assert b.regs.flags == f.Set(Interrupt, true);
    RtiReturnsTo(b, ret, ToByte(f));
    BrkStatusRestored(s.regs.flags);
  }

  // ---------------------------------------------------------------------
  // The handlers as written

  /** JSR as written (cpu.rs:293-296): it jumps but pushes nothing. */
  function JsrAsWritten(am: AddressingMode, s: Machine): Result<Machine>
  {
    var target :- Resolve(am, s);
    Ok(s.(regs := s.regs.(pc := target)))
  }

  /** BRK, PHA, PHP, PLA, PLP, RTI, RTS, SBC, LAX, SAX and AXS as written: they only
      print, so the state is unchanged. */
  function StubAsWritten(s: Machine): Machine
  {
    s
  }

  const Blank: Machine := Machine(Registers(5, 0, 0, 0xFF, 0x0603, NoFlags), seq(MM_SIZE, _ => 0))

  /** The source's JSR from 0x0600 to 0x1234 over zeroed memory pushes nothing. The
      source's RTS is a stub, so after it pc stays at 0x1234 and the call never
      returns. A documented RTS after the source's JSR lands at 0x0001. After the
      documented JSR, it lands at 0x0603, just past the call. */
  lemma JsrAsWrittenLosesReturn()
    ensures JsrAsWritten(Abs(0x34, 0x12), Blank) == Ok(Blank.(regs := Blank.regs.(pc := 0x1234)))
    ensures StubAsWritten(JsrAsWritten(Abs(0x34, 0x12), Blank).value).regs.pc == 0x1234
    ensures RtsOp(Implicit, Blank.(regs := Blank.regs.(pc := 0x1234))).value.regs.pc == 0x0001
    ensures RtsOp(Implicit, JsrOp(Abs(0x34, 0x12), Blank).value).value.regs.pc == 0x0603
  {
    var jumped := Blank.(regs := Blank.regs.(pc := 0x1234));
    assert JsrAsWritten(Abs(0x34, 0x12), Blank) == Ok(jumped) by {
      IndexedResolve(Abs(0x34, 0x12), Blank);
    }
    assert Pull(jumped).1 == Lo(0) && Pull(Pull(jumped).0).1 == Hi(0) by {
      assert Blank.mem[STACK_BASE] == 0 && Blank.mem[STACK_BASE + 1] == 0;
    }
    RtsReturnsTo(jumped, 0);
    JsrRtsRoundTrip(0x34, 0x12, Blank);
  }

  /** `check_zf_with` called twice, as `compare` and the increment and decrement
      handlers do (cpu.rs:240-287, 472-478): Zero follows the value, and every other
      flag, Negative included, keeps its value. */
  function ZeroTwiceAsWritten(f: CpuFlags, v: Byte): (g: CpuFlags)
    ensures g.HasSet(Zero) <==> v == 0
    ensures forall h :: h != Zero ==> (g.HasSet(h) <==> f.HasSet(h))
  {
    f.Set(Zero, v == 0).Set(Zero, v == 0)
  }

  /** The documented Zero and Negative update, with Negative put back to its old
      value, is the source's double Zero update. */
  lemma NegativeRestored(f: CpuFlags, v: Byte)
    ensures WithNZ(f, v).Set(Negative, f.HasSet(Negative)) == ZeroTwiceAsWritten(f, v)
  {
    var l, r := WithNZ(f, v).Set(Negative, f.HasSet(Negative)), ZeroTwiceAsWritten(f, v);
    forall g ensures g in l.flags <==> g in r.flags {
      assert l.HasSet(g) <==> r.HasSet(g);
    }
    assert l.flags == r.flags;
  }

  /** `compare` as written (cpu.rs:472-478): Carry iff reg >= M, then Zero twice
      from reg - M wrapped to a byte. */
  function CompareAsWritten(am: AddressingMode, reg: Byte, s: Machine): Result<Machine>
  {
    var m :- ReadOperand(am, s);
    var c := Wrap8(reg - m);
    Ok(s.(regs := s.regs.(flags := ZeroTwiceAsWritten(s.regs.flags.Set(Carry, reg >= m), c))))
  }

  /** The source's compare panics where the documented one does, and otherwise
      gives the documented state with Negative left as it was before. */
  lemma CompareNegativeMissing(am: AddressingMode, reg: Byte, s: Machine)
    ensures CompareAsWritten(am, reg, s).Ok? <==> CompareWith(am, reg, s).Ok?
    ensures CompareWith(am, reg, s).Ok? ==>
      var t := CompareWith(am, reg, s).value;
      CompareAsWritten(am, reg, s).value
        == t.(regs := t.regs.(flags := t.regs.flags.Set(Negative, s.regs.flags.HasSet(Negative))))
  {
    if ReadOperand(am, s).Ok? {
      var m := ReadOperand(am, s).value;
      var f := s.regs.flags.Set(Carry, reg >= m);
      NegativeRestored(f, Wrap8(reg - m));
    }
  }

  /** Comparing 0 with 1 leaves 0xFF: the documented compare raises Negative, while
      the source's leaves it clear. */
  lemma CompareNegativeExample()
    ensures CompareWith(Immediate(1), 0, Blank).value.regs.flags.HasSet(Negative)
    ensures !CompareAsWritten(Immediate(1), 0, Blank).value.regs.flags.HasSet(Negative)
  {
  }

  /** Where INC, DEC, INX, DEX, INY and DEY put their result. */
  datatype Counted = ThroughMode | IntoX | IntoY

  /** Stores a counted result through the mode or into X or Y. */
  function Store(am: AddressingMode, s: Machine, r: Byte, into: Counted): Result<Machine>
  {
    match into
    case ThroughMode => WriteOperand(am, s, r)
    case IntoX => Ok(s.(regs := s.regs.(x := r)))
    case IntoY => Ok(s.(regs := s.regs.(y := r)))
  }

  /** INC, DEC, INX, DEX, INY and DEY as written (cpu.rs:240-287): the operand plus
      `delta`, wrapped to a byte, stored through the mode or into X or Y, then Zero
      twice. */
  function CountAsWritten(am: AddressingMode, s: Machine, delta: int, into: Counted): Result<Machine>
    requires delta == 1 || delta == -1
  {
    var m :- ReadOperand(am, s);
    var r := Wrap8(m + delta);
    var t :- Store(am, s, r, into);
    Ok(t.(regs := t.regs.(flags := ZeroTwiceAsWritten(t.regs.flags, r))))
  }

  /** The documented handler for each destination and direction. */
  function CountOp(am: AddressingMode, s: Machine, delta: int, into: Counted): Result<Machine>
    requires delta == 1 || delta == -1
  {
    match into
    case ThroughMode => if delta == 1 then IncOp(am, s) else DecOp(am, s)
    case IntoX => if delta == 1 then InxOp(am, s) else DexOp(am, s)
    case IntoY => if delta == 1 then InyOp(am, s) else DeyOp(am, s)
  }

  /** Each increment or decrement handler as written panics where the documented one
      does, and otherwise gives the documented state with Negative left as it was. */
  lemma IncDecNegativeMissing(am: AddressingMode, s: Machine, delta: int, into: Counted)
    requires delta == 1 || delta == -1
    ensures CountAsWritten(am, s, delta, into).Ok? <==> CountOp(am, s, delta, into).Ok?
    ensures CountOp(am, s, delta, into).Ok? ==>
      var t := CountOp(am, s, delta, into).value;
      CountAsWritten(am, s, delta, into).value
        == t.(regs := t.regs.(flags := t.regs.flags.Set(Negative, s.regs.flags.HasSet(Negative))))
  {
    if ReadOperand(am, s).Ok? {
      var m := ReadOperand(am, s).value;
      var r := Wrap8(m + delta);
      assert r == (if delta == 1 then Alu.Increment(m) else Alu.Decrement(m));
      match into
      case ThroughMode =>
        if WriteOperand(am, s, r).Ok? {
          var t := WriteOperand(am, s, r).value;
          assert CountOp(am, s, delta, into) == Modify(am, s, r, None);
          assert t.regs.flags == s.regs.flags;
          NegativeRestored(t.regs.flags, r);
        }
      case IntoX =>
        assert CountOp(am, s, delta, into) == Ok(LoadX(s, r));
        NegativeRestored(s.regs.flags, r);
      case IntoY =>
        assert CountOp(am, s, delta, into) == Ok(LoadY(s, r));
        NegativeRestored(s.regs.flags, r);
    }
  }

  /** INX of 0x7F and DEC of 0x81 give bytes with bit 7 set: the documented handlers
      raise Negative, while the source's leave it clear. */
  lemma IncDecNegativeExample()
    ensures InxOp(AccX, Blank.(regs := Blank.regs.(x := 0x7F))).value.regs.flags.HasSet(Negative)
    ensures !CountAsWritten(AccX, Blank.(regs := Blank.regs.(x := 0x7F)), 1, IntoX).value.regs.flags.HasSet(Negative)
    ensures DecOp(AccA, Blank.(regs := Blank.regs.(a := 0x81))).value.regs.flags.HasSet(Negative)
    ensures !CountAsWritten(AccA, Blank.(regs := Blank.regs.(a := 0x81)), -1, ThroughMode).value.regs.flags.HasSet(Negative)
  {
  }

  /** PHA as written leaves the stack cell untouched; the model stores A there. */
  lemma PhaAsWrittenStoresNothing()
    ensures StubAsWritten(Blank).mem[0x1FF] == 0
    ensures PhaOp(Implicit, Blank).value.mem[0x1FF] == 5
  {
  }
}
