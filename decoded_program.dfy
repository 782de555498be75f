/** `Program` of 6502/MOS6502/program.rs: the list of instructions that
    `TryFrom<Vec<u8>>` decodes from a byte vector. */
module DecodedProgram {
  import opened Bits
  import opened Wrappers
  import OpcodeDecoder
  import opened InertDecoder

  const U32_RANGE: nat := 0x1_0000_0000

  datatype Program = Program(instructions: seq<Instruction>) {

    /** `size`: the number of instructions, cut to 32 bits by `as u32`. */
    function Size(): (n: nat)
      ensures n < U32_RANGE && n <= |instructions|
      ensures |instructions| < U32_RANGE ==> n == |instructions|
    {
      |instructions| % U32_RANGE
    }

    /** `fetch`: instruction i; indexing past the end panics. */
    function Fetch(i: nat): (r: Result<Instruction>)
      ensures r.Ok? <==> i < |instructions|
      ensures r.Ok? ==> r.value == instructions[i]
    {
      if i < |instructions| then Ok(instructions[i]) else Panic(IndexOutOfBounds)
    }
  }

  /** This decoder's instructions for a decoding of the other decoder. */
  function FromOpcodes(instrs: seq<OpcodeDecoder.Instruction>): seq<Instruction>
  {
    seq(|instrs|, k requires 0 <= k < |instrs| => FromOpcode(instrs[k]))
  }

  lemma FromOpcodesAppend(p: seq<OpcodeDecoder.Instruction>, o: OpcodeDecoder.Instruction)
    ensures FromOpcodes(p + [o]) == FromOpcodes(p) + [FromOpcode(o)]
  {
    assert forall k :: 0 <= k < |p| + 1 ==> FromOpcodes(p + [o])[k] == (FromOpcodes(p) + [FromOpcode(o)])[k];
  }

  /** A panic of `try_build` inside the `try_from` loop means the vector does not decode. */
  lemma WalkPanics(programBytes: seq<Byte>, i: nat, decoded: seq<OpcodeDecoder.Instruction>)
    requires i < |programBytes| && OpcodeDecoder.Walked(programBytes, i, decoded)
    requires TryBuild(programBytes[i..]).Panic?
    ensures OpcodeDecoder.DecodeAll(programBytes).Panic?
    ensures TryBuild(programBytes[i..]).fault == IndexOutOfBounds
  {
    TryBuildAgrees(programBytes[i..]);
  }

  /** An instruction built inside the `try_from` loop is the other decoder's, and the
      decoding so far grows by it. */
  lemma WalkAdvances(programBytes: seq<Byte>, i: nat, decoded: seq<OpcodeDecoder.Instruction>,
                     o: OpcodeDecoder.Instruction)
    requires i < |programBytes| && OpcodeDecoder.Walked(programBytes, i, decoded)
    requires OpcodeDecoder.TryBuild(programBytes[i..]) == Ok(o)
    ensures TryBuild(programBytes[i..]) == Ok(FromOpcode(o))
    ensures i + o.ByteSize() <= |programBytes|
    ensures OpcodeDecoder.Walked(programBytes, i + o.ByteSize(), decoded + [o])
  {
    TryBuildAgrees(programBytes[i..]);
    OpcodeDecoder.DecodeStep(programBytes, i, decoded, o);
  }

  /** `try_from`: decode instruction after instruction, moving on by each byte size, until
      the vector is used up. It has no `Err` path: it returns `Ok` unless `try_build` panics
      on an operand that runs past the end, exactly when the stream does not decode. */
  method TryFrom(programBytes: seq<Byte>) returns (r: Result<Program>)
    ensures r.Ok? <==> OpcodeDecoder.DecodeAll(programBytes).Ok?
    ensures r.Ok? ==> r.value.instructions == FromOpcodes(OpcodeDecoder.DecodeAll(programBytes).value)
    ensures r.Panic? ==> r.fault == IndexOutOfBounds
  {
    var instructions: seq<Instruction> := [];
    ghost var decoded: seq<OpcodeDecoder.Instruction> := [];
    var i := 0;
    var programSize := |programBytes|;
    assert OpcodeDecoder.Walked(programBytes, 0, []) by {
      assert programBytes[0..] == programBytes;
      if OpcodeDecoder.DecodeAll(programBytes).Ok? {
        assert [] + OpcodeDecoder.DecodeAll(programBytes).value == OpcodeDecoder.DecodeAll(programBytes).value;
      }
    }
    while i < programSize
      invariant i <= programSize
      invariant instructions == FromOpcodes(decoded)
      invariant OpcodeDecoder.Walked(programBytes, i, decoded)
      decreases programSize - i
    {
      var chunk := programBytes[i..programSize];
      assert chunk == programBytes[i..];
      var built := TryBuild(chunk);
      if built.Panic? {
        WalkPanics(programBytes, i, decoded);
        return Panic(built.fault);
      }
      TryBuildAgrees(chunk);
      ghost var original := OpcodeDecoder.TryBuild(chunk).value;
      WalkAdvances(programBytes, i, decoded, original);
      var instruction := built.value;
      FromOpcodesAppend(decoded, original);
      i := i + instruction.ByteSize();
      instructions := instructions + [instruction];
      decoded := decoded + [original];
    }
    assert OpcodeDecoder.DecodeAll(programBytes) == OpcodeDecoder.Prepend(decoded, Ok([])) by {
      assert programBytes[i..] == [];
    }
    assert decoded + [] == decoded;
    return Ok(Program(instructions));
  }

  /** Instruction k of the decoded program comes from the bytes at the sum of the sizes
      before it, and that offset lies inside the input. */
  lemma DecodedAtOffsets(programBytes: seq<Byte>, k: nat)
    requires OpcodeDecoder.DecodeAll(programBytes).Ok? && k < |OpcodeDecoder.DecodeAll(programBytes).value|
    ensures var instrs := OpcodeDecoder.DecodeAll(programBytes).value;
      && OpcodeDecoder.Offset(instrs, k) < |programBytes|
      && TryBuild(programBytes[OpcodeDecoder.Offset(instrs, k)..]) == Ok(FromOpcodes(instrs)[k])
  {
    var instrs := OpcodeDecoder.DecodeAll(programBytes).value;
    OpcodeDecoder.DecodedAt(programBytes, k);
    TryBuildAgrees(programBytes[OpcodeDecoder.Offset(instrs, k)..]);
  }

  /** The bytes of 6502/main.rs:8-14 give a program of six instructions alternating
      LDA-immediate (2 bytes) and STA-absolute (3 bytes). */
  lemma SampleProgram()
    ensures OpcodeDecoder.DecodeAll(OpcodeDecoder.SAMPLE).Ok?
    ensures var p := Program(FromOpcodes(OpcodeDecoder.DecodeAll(OpcodeDecoder.SAMPLE).value));
      && p.Size() == 6
      && p.instructions == [LdaImmediate(1), StaAbsolute(0, 2), LdaImmediate(5),
                            StaAbsolute(1, 2), LdaImmediate(8), StaAbsolute(2, 2)]
  {
    var instrs := [OpcodeDecoder.LdaImmediate(1), OpcodeDecoder.StaAbsolute(0, 2),
                   OpcodeDecoder.LdaImmediate(5), OpcodeDecoder.StaAbsolute(1, 2),
                   OpcodeDecoder.LdaImmediate(8), OpcodeDecoder.StaAbsolute(2, 2)];
    assert OpcodeDecoder.DecodeAll(OpcodeDecoder.SAMPLE) == Ok(instrs) by {
      OpcodeDecoder.SampleDecodes();
    }
    var f := FromOpcodes(instrs);
    assert |f| == 6;
    assert f[0] == LdaImmediate(1) && f[1] == StaAbsolute(0, 2) && f[2] == LdaImmediate(5);
    assert f[3] == StaAbsolute(1, 2) && f[4] == LdaImmediate(8) && f[5] == StaAbsolute(2, 2);
  }
}
