/** The opcode decoder of 6502/MOS6502/instruction.rs. It decodes the same three
    instructions as 6502/mos6502/instruction.rs (without an explicit 0x00 arm),
    and every `exec` leaves the CPU as it was. */
module InertDecoder {
  import opened Bits
  import opened Wrappers
  import OpcodeDecoder

  datatype Instruction =
    | LdaImmediate(x: Byte)
    | StaAbsolute(abs: Byte, y: Byte)
    | Brk
  {
    /** `bytesize`: 2, 3 and 1 bytes. */
    function ByteSize(): (n: nat)
      ensures n in {1, 2, 3}
    {
      match this
      case LdaImmediate(_) => 2
      case StaAbsolute(_, _) => 3
      case Brk => 1
    }
  }

  /** The register file of 6502/MOS6502/cpu.rs that `exec` receives. */
  datatype Cpu = Cpu(a: Byte, x: Byte, y: Byte, sr: Byte, sp: Byte, pc: Word)

  /** `CPU::new`: every register 0 except sp = 0xFF. */
  const NewCpu: Cpu := Cpu(0, 0, 0, 0, 0xFF, 0)

  /** `exec`: the three bodies are `();`, so no register changes. */
  function Exec(ins: Instruction, cpu: Cpu): (r: Cpu)
    ensures r.a == cpu.a && r.x == cpu.x && r.y == cpu.y
    ensures r.sr == cpu.sr && r.sp == cpu.sp && r.pc == cpu.pc
  {
    cpu
  }

  /** `try_build`: 0xA9 is LDA-immediate with operand chunk[1], 0x8D is STA-absolute with
      operands chunk[1] and chunk[2], every other byte is BRK; short chunks panic. */
  function TryBuild(chunk: seq<Byte>): (r: Result<Instruction>)
    ensures r.Ok? ==> 1 <= r.value.ByteSize() <= |chunk|
    ensures r.Ok? ==> |chunk| > 0 && (chunk[0] == 0xA9 ==> |chunk| >= 2 && r.value == LdaImmediate(chunk[1]))
    ensures r.Ok? ==> |chunk| > 0 && (chunk[0] == 0x8D ==> |chunk| >= 3 && r.value == StaAbsolute(chunk[1], chunk[2]))
    ensures r.Ok? ==> |chunk| > 0 && (chunk[0] != 0xA9 && chunk[0] != 0x8D ==> r.value == Brk)
  {
    if |chunk| == 0 then Panic(IndexOutOfBounds)
    else
      match chunk[0]
      case 0xA9 => if |chunk| < 2 then Panic(IndexOutOfBounds) else Ok(LdaImmediate(chunk[1]))
      case 0x8D => if |chunk| < 3 then Panic(IndexOutOfBounds) else Ok(StaAbsolute(chunk[1], chunk[2]))
      case _ => Ok(Brk)
  }

  /** The instruction of this decoder that corresponds to one of 6502/mos6502/instruction.rs. */
  function FromOpcode(ins: OpcodeDecoder.Instruction): (r: Instruction)
    ensures r.ByteSize() == ins.ByteSize()
  {
    match ins
    case LdaImmediate(x) => LdaImmediate(x)
    case StaAbsolute(l, h) => StaAbsolute(l, h)
    case Brk => Brk
  }

  /** Both decoders agree on every chunk: the same panics, and corresponding instructions
      of the same size; the extra 0x00 arm of the other decoder changes nothing. */
  lemma TryBuildAgrees(chunk: seq<Byte>)
    ensures TryBuild(chunk).Panic? <==> OpcodeDecoder.TryBuild(chunk).Panic?
    ensures TryBuild(chunk).Ok? ==> TryBuild(chunk).value == FromOpcode(OpcodeDecoder.TryBuild(chunk).value)
  {
  }
}
