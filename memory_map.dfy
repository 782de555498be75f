/** The flat 64 KiB memory of 6502/mos6502/memory_map.rs: a fixed-size byte array
    that the CPU reads and overwrites in place. */
module MemoryMaps {
  import opened Bits
  import opened CpuState

  /** The byte every cell holds after `new`: the NOP opcode. */
  const FILL: Byte := 0xEA

  class MemoryMap {
    const mm: array<Byte>

    ghost predicate Valid()
      reads this
    {
      mm.Length == MM_SIZE
    }

    /** All 65536 cells start as 0xEA. */
    constructor ()
      ensures Valid() && fresh(mm)
      ensures forall i :: 0 <= i < mm.Length ==> mm[i] == FILL
    {
      mm := new Byte[MM_SIZE](_ => FILL);
    }

    function IsOverflowing(index: nat): (r: bool)
      reads this
      requires Valid()
      ensures r <==> index >= MM_SIZE
    {
      index >= mm.Length
    }

    /** Stores `stream[k]` at `from + k` while that address exists, and stops at the
        end of memory; every other cell keeps its value. */
    method Copy(from: nat, stream: seq<Byte>)
      requires Valid()
      modifies mm
      ensures forall i :: 0 <= i < mm.Length ==>
        mm[i] == if from <= i < from + |stream| then stream[i - from] else old(mm[i])
    {
      var index := from;
      var k := 0;
      while k < |stream|
        invariant 0 <= k <= |stream| && index == from + k
        invariant forall i :: 0 <= i < mm.Length ==>
          mm[i] == if from <= i < index then stream[i - from] else old(mm[i])
      {
        if IsOverflowing(index) {
          break;
        }
        mm[index] := stream[k];
        index := index + 1;
        k := k + 1;
      }
    }

    /** Overwrites one cell and returns the value written. */
    method Write(address: Word, value: Byte) returns (r: Byte)
      requires Valid()
      modifies mm
      ensures r == value && Read(address) == value
      ensures forall i :: 0 <= i < mm.Length && i != address ==> mm[i] == old(mm[i])
      ensures mm[..] == old(mm[..])[address := value]
    {
      mm[address] := value;
      r := value;
    }

    /** `read`: the first byte of the suffix starting at the address. */
    function Read(address: Word): (v: Byte)
      reads this, mm
      requires Valid()
      ensures v == From(address)[0]
    {
      mm[address]
    }

    /** The suffix of memory starting at `fromAddress`. */
    function From(fromAddress: Word): (r: seq<Byte>)
      reads this, mm
      requires Valid()
      ensures |r| == MM_SIZE - fromAddress
      ensures forall k :: 0 <= k < |r| ==> r[k] == mm[fromAddress + k]
    {
      mm[fromAddress..]
    }
  }
}
