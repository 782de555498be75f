/** The register file of the 6502 core (6502/mos6502/cpu.rs:7-68): the
    flag set, the 8-bit registers a/x/y/sp, the 16-bit program counter,
    and the flat 64 KiB memory the core owns. */
module CpuState {
  import opened Bits

  /** The processor status flags, kept by the source in a `HashSet`. */
  datatype Flag = Carry | Zero | Interrupt | Decimal | Break | Overflow | Negative

  /** `CPUFlags`: the set of flags currently raised. */
  datatype CpuFlags = CpuFlags(flags: set<Flag>) {

    /** `bit`: 1 when f is raised, 0 otherwise. */
    function Bit(f: Flag): (b: nat)
      ensures b == 1 <==> f in flags
      ensures b == 0 <==> f !in flags
    {
      if f in flags then 1 else 0
    }

    /** `has_set`: whether f is raised (HasSetAgrees relates it to `bit` and the
        status byte). */
    predicate HasSet(f: Flag)
    {
      f in flags
    }

    /** `set`: raise or clear one flag. */
    function Set(f: Flag, val: bool): (r: CpuFlags)
      ensures r.HasSet(f) == val
      ensures forall g :: g != f ==> (r.HasSet(g) <==> HasSet(g))
    {
      if val then CpuFlags(flags + {f}) else CpuFlags(flags - {f})
    }
  }

  /** Setting two different flags gives the same set in either order. */
  lemma SetCommutes(fl: CpuFlags, f: Flag, v: bool, g: Flag, w: bool)
    requires f != g
    ensures fl.Set(f, v).Set(g, w) == fl.Set(g, w).Set(f, v)
  {
    assert fl.Set(f, v).Set(g, w).flags == fl.Set(g, w).Set(f, v).flags;
  }

  /** `CPUFlags::new`: no flag raised. */
  const NoFlags: CpuFlags := CpuFlags({})

  /** Position of each flag in the status byte pushed by PHP, BRK and
      interrupts (MCS6500 manual, the P register): N V - B D I Z C. */
  function FlagBit(f: Flag): (k: nat)
    ensures k < 8 && k != 5
  {
    match f
    case Carry => 0
    case Zero => 1
    case Interrupt => 2
    case Decimal => 3
    case Break => 4
    case Overflow => 6
    case Negative => 7
  }

  /** The bits of a status byte, least significant first. */
  function StatusBits(fs: CpuFlags): (bits: seq<bool>)
    ensures |bits| == 8
  {
    [fs.HasSet(Carry), fs.HasSet(Zero), fs.HasSet(Interrupt), fs.HasSet(Decimal),
     fs.HasSet(Break), true, fs.HasSet(Overflow), fs.HasSet(Negative)]
  }

  /** The status byte; bit 5 is unused and always reads as 1. */
  function ToByte(fs: CpuFlags): (b: Byte)
    ensures forall f :: BitOf(b, FlagBit(f)) <==> fs.HasSet(f)
    ensures BitOf(b, 5)
  {
    var bits := StatusBits(fs);
    forall k: nat | k < 8 ensures BitOf(Pack(bits), k) == bits[k] {
      PackBit(bits, k);
    }
    Pack(bits)
  }

  /** FromByte reads the flags back from the bits ToByte placed them in (bit 5 is ignored). */
  function FromByte(b: Byte): (fs: CpuFlags)
    ensures forall f :: fs.HasSet(f) <==> BitOf(b, FlagBit(f))
  {
    var c := if BitOf(b, 0) then {Carry} else {};
    var z := if BitOf(b, 1) then {Zero} else {};
    var i := if BitOf(b, 2) then {Interrupt} else {};
    var d := if BitOf(b, 3) then {Decimal} else {};
    var k := if BitOf(b, 4) then {Break} else {};
    var v := if BitOf(b, 6) then {Overflow} else {};
    var n := if BitOf(b, 7) then {Negative} else {};
    CpuFlags(c + z + i + d + k + v + n)
  }

  /** A raised flag is one whose `bit` is 1 and whose bit of the status byte is set. */
  lemma HasSetAgrees(fs: CpuFlags, f: Flag)
    ensures fs.HasSet(f) <==> fs.Bit(f) == 1
    ensures fs.HasSet(f) <==> BitOf(ToByte(fs), FlagBit(f))
  {
  }

  /** Encoding the flags into a status byte loses nothing. */
  lemma ByteRoundTrip(fs: CpuFlags)
    ensures FromByte(ToByte(fs)) == fs
  {
    var b := ToByte(fs);
    var r := FromByte(b);
    forall f ensures f in r.flags <==> f in fs.flags {
      assert r.HasSet(f) <==> BitOf(b, FlagBit(f));
    }
  }

  /** The flags in the order the `Debug` string shows them, and their letters. */
  const DEBUG_ORDER: seq<Flag> := [Carry, Zero, Interrupt, Decimal, Break, Overflow, Negative]
  const DEBUG_LETTERS: string := "CZIDBVN"

  /** `fmt::Debug` for `CPUFlags`: seven characters, position k the letter of the
      k-th flag of C Z I D B V N when it is raised and '-' when it is not. */
  function DebugString(fs: CpuFlags): (s: string)
    ensures |s| == 7
    ensures forall k :: 0 <= k < 7 ==> (s[k] == DEBUG_LETTERS[k] <==> fs.HasSet(DEBUG_ORDER[k]))
    ensures forall k :: 0 <= k < 7 ==> (s[k] == '-' <==> !fs.HasSet(DEBUG_ORDER[k]))
  {
    seq(7, k requires 0 <= k < 7 => if fs.HasSet(DEBUG_ORDER[k]) then DEBUG_LETTERS[k] else '-')
  }

  /** The string shows every flag, so two flag sets with the same string are equal. */
  lemma DebugStringInjective(fs: CpuFlags, gs: CpuFlags)
    requires DebugString(fs) == DebugString(gs)
    ensures fs == gs
  {
    forall f
      ensures f in fs.flags <==> f in gs.flags
    {
      var k := match f
        case Carry => 0 case Zero => 1 case Interrupt => 2 case Decimal => 3
        case Break => 4 case Overflow => 5 case Negative => 6;
      assert DEBUG_ORDER[k] == f;
      assert DebugString(fs)[k] == DebugString(gs)[k];
    }
  }

  /** The 64 KiB address space of `MemoryMap` (MM_SIZE = 65536). */
  const MM_SIZE: nat := 0x1_0000

  type Memory = m: seq<Byte> | |m| == MM_SIZE witness seq(MM_SIZE, _ => 0)

  /** The CPU's registers as a value. */
  datatype Registers = Registers(a: Byte, x: Byte, y: Byte, sp: Byte, pc: Word, flags: CpuFlags)

  /** The whole observable CPU state: registers and memory. */
  datatype Machine = Machine(regs: Registers, mem: Memory)

  /** `CPU::new`: a = x = y = 0, sp = 0xFF, pc = 0, no flags. */
  const PowerOn: Registers := Registers(0, 0, 0, 0xFF, 0, NoFlags)
}
