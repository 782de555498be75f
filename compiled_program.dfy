/** `Program` of 6502/mos6502/program.rs: a byte stream that `compile` walks,
    decoding one instruction after another. */
module CompiledProgram {
  import opened Bits
  import opened Wrappers
  import opened OpcodeDecoder

  /** Range of the `u32` the source keeps sizes and offsets in. */
  const U32_RANGE: nat := 0x1_0000_0000

  /** `Program::new` is the datatype constructor. */
  datatype Program = Program(bytestream: seq<Byte>) {

    /** `size`: the length of the stream, cut to 32 bits by `as u32`. */
    function Size(): (n: nat)
      ensures n < U32_RANGE && n <= |bytestream|
      ensures |bytestream| < U32_RANGE ==> n == |bytestream|
    {
      |bytestream| % U32_RANGE
    }

    /** The bytes `compile` and `fetch` see: the first `Size()` of the stream. */
    function Code(): (c: seq<Byte>)
      ensures |c| == Size()
    {
      bytestream[..Size()]
    }

    /** `fetch`: the instruction at offset `from`. Slicing from past `Size()` panics, and
        so does `try_build` on the empty slice at `Size()` itself. */
    function Fetch(from: nat): (r: Result<Instruction>)
      ensures r.Ok? ==> from < Size() && from + r.value.ByteSize() <= Size()
      ensures from < Size() ==> r == TryBuild(Code()[from..])
    {
      if from > Size() then Panic(IndexOutOfBounds)
      else TryBuild(bytestream[from..Size()])
    }

    /** `compile`: starting at offset 0, decode an instruction, move on by its byte size
        and append it, until the offset reaches the size. Because every byte size is at
        least 1 the loop ends, with at most one instruction per byte. */
    method Compile() returns (r: Result<seq<Instruction>>)
      ensures r == DecodeAll(Code())
      ensures r.Ok? ==> |r.value| <= Size()
    {
      var instructions: seq<Instruction> := [];
      var i := 0;
      var programSize := Size();
      ghost var code := Code();
      assert Walked(code, 0, []) by {
        assert code[0..] == code;
        if DecodeAll(code).Ok? {
          assert [] + DecodeAll(code).value == DecodeAll(code).value;
        }
      }
      while i < programSize
        invariant i <= programSize
        invariant Walked(code, i, instructions)
        decreases programSize - i
      {
        assert bytestream[i..programSize] == code[i..];
        var built := TryBuild(bytestream[i..programSize]);
        if built.Panic? {
          return Panic(built.fault);
        }
        var instruction := built.value;
        DecodeStep(code, i, instructions, instruction);
        i := i + instruction.ByteSize();
        instructions := instructions + [instruction];
      }
      assert DecodeAll(code) == Prepend(instructions, Ok([])) by {
        assert code[i..] == [];
      }
      assert instructions + [] == instructions;
      return Ok(instructions);
    }
  }

  /** Instruction k of a compiled program is what `fetch` yields at the sum of the byte
      sizes before it, and that offset lies inside the program. */
  lemma CompiledAtOffsets(p: Program, k: nat)
    requires DecodeAll(p.Code()).Ok? && k < |DecodeAll(p.Code()).value|
    ensures Offset(DecodeAll(p.Code()).value, k) < p.Size()
    ensures p.Fetch(Offset(DecodeAll(p.Code()).value, k)) == Ok(DecodeAll(p.Code()).value[k])
  {
    DecodedAt(p.Code(), k);
  }

  /** A program whose last instruction is a 0xA9 without its operand fails to compile. */
  lemma TrailingLoadPanics(p: Program)
    requires |p.bytestream| < U32_RANGE - 1 && DecodeAll(p.bytestream).Ok?
    ensures DecodeAll(Program(p.bytestream + [LDA_IMMEDIATE]).Code()).Panic?
  {
    var q := Program(p.bytestream + [LDA_IMMEDIATE]);
    assert q.Code() == p.bytestream + [LDA_IMMEDIATE];
    TruncatedOperandPanics(p.bytestream, 0);
  }
}
