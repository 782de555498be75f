/** The opcode decoder of 6502/mos6502/instruction.rs: an opcode byte and the
    operand bytes after it become one of three instructions, each with a fixed
    byte size. `DecodeAll` walks a byte stream instruction after instruction
    and is the reference for the loops of both program decoders. */
module OpcodeDecoder {
  import opened Bits
  import opened Wrappers
  import opened CpuState
  import Cpu6502

  const LDA_IMMEDIATE: Byte := 0xA9
  const STA_ABSOLUTE: Byte := 0x8D
  const BRK: Byte := 0x00

  datatype Instruction =
    | LdaImmediate(x: Byte)
    | StaAbsolute(absL: Byte, absH: Byte)
    | Brk
  {
    /** `bytesize`: the opcode byte plus the operand bytes the instruction carries. */
    function ByteSize(): (n: nat)
      ensures 1 <= n <= 3
      ensures n == |Encode()|
    {
      match this
      case LdaImmediate(_) => 2
      case StaAbsolute(_, _) => 3
      case Brk => 1
    }

    /** The canonical bytes of the instruction: its opcode and its operands. */
    function Encode(): seq<Byte>
    {
      match this
      case LdaImmediate(x) => [LDA_IMMEDIATE, x]
      case StaAbsolute(l, h) => [STA_ABSOLUTE, l, h]
      case Brk => [BRK]
    }
  }

  /** `try_build`: decode the instruction at the head of `chunk`. 0xA9 and 0x8D
      read one and two operand bytes; every other opcode, 0x00 included, is BRK.
      Indexing past the end of the chunk panics. */
  function TryBuild(chunk: seq<Byte>): (r: Result<Instruction>)
    ensures r.Panic? <==>
      |chunk| == 0 || (chunk[0] == LDA_IMMEDIATE && |chunk| < 2) || (chunk[0] == STA_ABSOLUTE && |chunk| < 3)
    ensures r.Ok? ==> r.value.ByteSize() <= |chunk|
    ensures r.Ok? ==> (r.value.Brk? <==> chunk[0] != LDA_IMMEDIATE && chunk[0] != STA_ABSOLUTE)
    ensures r.Ok? && !r.value.Brk? ==> r.value.Encode() == chunk[..r.value.ByteSize()]
  {
    if |chunk| == 0 then Panic(IndexOutOfBounds)
    else
      match chunk[0]
      case 0x00 => Ok(Brk)
      case 0xA9 => if |chunk| < 2 then Panic(IndexOutOfBounds) else Ok(LdaImmediate(chunk[1]))
      case 0x8D => if |chunk| < 3 then Panic(IndexOutOfBounds) else Ok(StaAbsolute(chunk[1], chunk[2]))
      case _ => Ok(Brk)
  }

  /** Decoding the canonical bytes of an instruction, whatever follows them, gives it back. */
  lemma DecodeEncode(ins: Instruction, rest: seq<Byte>)
    ensures TryBuild(ins.Encode() + rest) == Ok(ins)
  {
  }

  // ---------------------------------------------------------------------
  // exec: the effect of each instruction on the CPU registers

  /** `exec` on the registers. LDA-immediate loads its operand into the accumulator
      (`set_acc`, which is not among the source files, is taken to change A alone);
      STA-absolute only computes its address and prints it; BRK raises Interrupt. */
  function ExecRegs(ins: Instruction, regs: Registers): (r: Registers)
    ensures ins.LdaImmediate? ==> r == regs.(a := ins.x)
    ensures ins.StaAbsolute? ==> r == regs
    ensures ins.Brk? ==> r.flags.HasSet(Interrupt) && r.(flags := regs.flags) == regs
    ensures ins.Brk? ==> forall f :: f != Interrupt ==> (r.flags.HasSet(f) <==> regs.flags.HasSet(f))
  {
    match ins
    case LdaImmediate(x) => regs.(a := x)
    case StaAbsolute(_, _) => regs
    case Brk => regs.(flags := regs.flags.Set(Interrupt, true))
  }

  /** The address STA-absolute computes: `((abs_h as u16) << 8) | abs_l as u16`. */
  function StaAddress(absL: Byte, absH: Byte): (w: Word)
    ensures Lo(w) == absL && Hi(w) == absH
  {
    Word16(absL, absH)
  }

  /** `exec` on the CPU object: the registers change as `ExecRegs` says and memory does
      not change (STA-absolute does not store the accumulator). */
  method Exec(ins: Instruction, cpu: Cpu6502.Cpu)
    requires cpu.Valid()
    modifies cpu
    ensures cpu.Valid() && cpu.Regs() == ExecRegs(ins, old(cpu.Regs()))
    ensures cpu.State().mem == old(cpu.State().mem)
  {
    match ins
    case LdaImmediate(x) =>
      cpu.a := x;
    case StaAbsolute(l, h) =>
      var _ := StaAddress(l, h);
    case Brk =>
      cpu.flags := cpu.flags.Set(Interrupt, true);
  }

  // ---------------------------------------------------------------------
  // Decoding a whole stream

  /** The byte sizes of a sequence of instructions, added up. */
  function TotalSize(instrs: seq<Instruction>): (n: nat)
    ensures n >= |instrs|
  {
    if instrs == [] then 0 else instrs[0].ByteSize() + TotalSize(instrs[1..])
  }

  /** Decoding `code` from its first byte, each instruction starting where the previous
      one ends, until the stream is used up. A panic of `try_build` ends the decoding. */
  function DecodeAll(code: seq<Byte>): (r: Result<seq<Instruction>>)
    ensures r.Ok? ==> TotalSize(r.value) == |code| && |r.value| <= |code|
    decreases |code|
  {
    if code == [] then Ok([])
    else
      var ins :- TryBuild(code);
      var rest :- DecodeAll(code[ins.ByteSize()..]);
      Ok([ins] + rest)
  }

  /** `prefix` followed by the decoding `r`, or the failure of `r`. */
  function Prepend(prefix: seq<Instruction>, r: Result<seq<Instruction>>): Result<seq<Instruction>>
  {
    if r.Ok? then Ok(prefix + r.value) else r
  }

  lemma PrependAssoc(p: seq<Instruction>, q: seq<Instruction>, r: Result<seq<Instruction>>)
    ensures Prepend(p, Prepend(q, r)) == Prepend(p + q, r)
  {
    if r.Ok? {
      assert p + (q + r.value) == (p + q) + r.value;
    }
  }

  /** Where instruction k of a decoded stream starts: the sizes of the instructions before it. */
  function Offset(instrs: seq<Instruction>, k: nat): nat
    requires k <= |instrs|
  {
    TotalSize(instrs[..k])
  }

  /** Each instruction of a decoded stream is what `try_build` yields at its offset, and
      every offset lies inside the stream. */
  lemma {:induction false} DecodedAt(code: seq<Byte>, k: nat)
    requires DecodeAll(code).Ok? && k < |DecodeAll(code).value|
    ensures Offset(DecodeAll(code).value, k) < |code|
    ensures TryBuild(code[Offset(DecodeAll(code).value, k)..]) == Ok(DecodeAll(code).value[k])
    decreases |code|
  {
    var instrs := DecodeAll(code).value;
    var ins := TryBuild(code).value;
    var tail := code[ins.ByteSize()..];
    assert instrs == [ins] + DecodeAll(tail).value;
    if k == 0 {
      assert instrs[..0] == [];
    } else {
      DecodedAt(tail, k - 1);
      var rest := DecodeAll(tail).value;
      assert instrs[..k][1..] == rest[..k - 1];
      assert Offset(instrs, k) == ins.ByteSize() + Offset(rest, k - 1);
      assert code[Offset(instrs, k)..] == tail[Offset(rest, k - 1)..];
    }
  }

  /** Offsets grow by each instruction's size. */
  lemma {:induction false} OffsetStep(instrs: seq<Instruction>, k: nat)
    requires k < |instrs|
    ensures Offset(instrs, k + 1) == Offset(instrs, k) + instrs[k].ByteSize()
  {
    SizeAppend(instrs[..k], [instrs[k]]);
    assert instrs[..k + 1] == instrs[..k] + [instrs[k]];
  }

  lemma {:induction false} SizeAppend(p: seq<Instruction>, q: seq<Instruction>)
    ensures TotalSize(p + q) == TotalSize(p) + TotalSize(q)
  {
    if p == [] {
      assert p + q == q;
    } else {
      SizeAppend(p[1..], q);
      assert (p + q)[1..] == p[1..] + q;
    }
  }

  /** A stream that decodes cleanly may be followed by any stream: the decoding of the
      whole is the decoding of the first part followed by that of the second. */
  lemma {:induction false} DecodeConcat(p: seq<Byte>, q: seq<Byte>)
    requires DecodeAll(p).Ok?
    ensures DecodeAll(p + q) == Prepend(DecodeAll(p).value, DecodeAll(q))
    decreases |p|
  {
    if p == [] {
      assert p + q == q;
      if DecodeAll(q).Ok? {
        assert [] + DecodeAll(q).value == DecodeAll(q).value;
      }
    } else {
      var ins := TryBuild(p).value;
      var n := ins.ByteSize();
      assert (p + q)[..|p|] == p;
      assert TryBuild(p + q) == Ok(ins) by {
        if !ins.Brk? {
          assert (p + q)[..n] == p[..n];
        }
      }
      assert (p + q)[n..] == p[n..] + q;
      DecodeConcat(p[n..], q);
      PrependAssoc([ins], DecodeAll(p[n..]).value, DecodeAll(q));
    }
  }

  /** A trailing 0xA9 or 0x8D whose operands run past the end of the stream is an error. */
  lemma TruncatedOperandPanics(p: seq<Byte>, b: Byte)
    requires DecodeAll(p).Ok?
    ensures DecodeAll(p + [LDA_IMMEDIATE]).Panic?
    ensures DecodeAll(p + [STA_ABSOLUTE]).Panic?
    ensures DecodeAll(p + [STA_ABSOLUTE, b]).Panic?
  {
    DecodeConcat(p, [LDA_IMMEDIATE]);
    DecodeConcat(p, [STA_ABSOLUTE]);
    DecodeConcat(p, [STA_ABSOLUTE, b]);
  }

  /** Where a walk over `code` stands at offset i: the decoding of the whole stream is
      `decoded` followed by the decoding of the bytes from i on. */
  ghost predicate Walked(code: seq<Byte>, i: nat, decoded: seq<Instruction>)
    requires i <= |code|
  {
    DecodeAll(code) == Prepend(decoded, DecodeAll(code[i..]))
  }

  /** One turn of a decoding loop: with `decoded` the instructions before offset i and
      `ins` the one at i, the decoding goes on after ins. */
  lemma DecodeStep(code: seq<Byte>, i: nat, decoded: seq<Instruction>, ins: Instruction)
    requires i < |code| && TryBuild(code[i..]) == Ok(ins)
    requires Walked(code, i, decoded)
    ensures i + ins.ByteSize() <= |code|
    ensures Walked(code, i + ins.ByteSize(), decoded + [ins])
  {
    DecodeHead(code[i..], ins);
    assert code[i..][ins.ByteSize()..] == code[i + ins.ByteSize()..];
    PrependAssoc(decoded, [ins], DecodeAll(code[i + ins.ByteSize()..]));
  }

  /** The byte stream of 6502/main.rs:8-14: load 1, 5 and 8 and store them at 0x0200-0x0202. */
  const SAMPLE: seq<Byte> := [0xA9, 0x01, 0x8D, 0x00, 0x02, 0xA9, 0x05, 0x8D, 0x01, 0x02, 0xA9, 0x08, 0x8D, 0x02, 0x02]

  /** One decoding step: the instruction at the head, then the decoding of the rest. */
  lemma DecodeHead(code: seq<Byte>, ins: Instruction)
    requires TryBuild(code) == Ok(ins)
    ensures DecodeAll(code) == Prepend([ins], DecodeAll(code[ins.ByteSize()..]))
  {
  }

  /** The canonical bytes of a sequence of instructions, one after another. */
  function EncodeAll(instrs: seq<Instruction>): (code: seq<Byte>)
    ensures |code| == TotalSize(instrs)
  {
    if instrs == [] then [] else instrs[0].Encode() + EncodeAll(instrs[1..])
  }

  /** Decoding the canonical bytes of any sequence of instructions gives it back. */
  lemma {:induction false} DecodeEncodeAll(instrs: seq<Instruction>)
    ensures DecodeAll(EncodeAll(instrs)) == Ok(instrs)
    decreases |instrs|
  {
    if instrs != [] {
      var ins, code := instrs[0], EncodeAll(instrs);
      var rest := EncodeAll(instrs[1..]);
      assert code == ins.Encode() + rest;
      DecodeEncode(ins, rest);
      assert code[ins.ByteSize()..] == rest;
      DecodeEncodeAll(instrs[1..]);
      assert [ins] + instrs[1..] == instrs;
    }
  }

  /** The six instructions of the sample program, in order. */
  const SAMPLE_INSTRUCTIONS: seq<Instruction> :=
    [LdaImmediate(1), StaAbsolute(0, 2), LdaImmediate(5), StaAbsolute(1, 2), LdaImmediate(8), StaAbsolute(2, 2)]

  /** The sample bytes are the canonical bytes of those six instructions. */
  lemma SampleEncodes()
    ensures EncodeAll(SAMPLE_INSTRUCTIONS) == SAMPLE
  {
  }

  /** The sample decodes into six instructions alternating LDA (2 bytes) and STA (3 bytes). */
  lemma SampleDecodes()
    ensures DecodeAll(SAMPLE) == Ok([LdaImmediate(1), StaAbsolute(0, 2), LdaImmediate(5),
                                     StaAbsolute(1, 2), LdaImmediate(8), StaAbsolute(2, 2)])
  {
    SampleEncodes();
    DecodeEncodeAll(SAMPLE_INSTRUCTIONS);
  }
}
