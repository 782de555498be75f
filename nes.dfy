/** The console of src/main.rs: the 2 KiB work RAM mirrored over 8 KiB, the
    address ranges the devices are mounted at, and the step that forwards the
    PPU's NMI to the CPU. */
module Console {
  import opened Bits
  import opened Wrappers
  import opened Cartridge
  import opened PpuDevice

  const RAM_SIZE: nat := 2048

  /** `Ram`: 2048 bytes, seen at every address modulo 2048. */
  class Ram {
    const ram: array<Byte>

    predicate Valid()
    {
      ram.Length == RAM_SIZE
    }

    /** `Ram::new`: all zeros. */
    constructor ()
      ensures Valid() && fresh(ram)
      ensures forall k :: 0 <= k < ram.Length ==> ram[k] == 0
    {
      ram := new Byte[RAM_SIZE](_ => 0);
    }

    /** `read`: the byte at the address modulo 2048. */
    function Read(address: nat): (v: Byte)
      requires Valid()
      reads ram
      ensures address < RAM_SIZE ==> v == ram[address]
      ensures address >= RAM_SIZE ==> v == ram[(address - RAM_SIZE) % RAM_SIZE]
    {
      ram[address % RAM_SIZE]
    }

    /** `slice`: from the address modulo 2048 up to, and never including, the
        last RAM byte. */
    function Slice(from: nat): (s: seq<Byte>)
      requires Valid()
      reads ram
      ensures from % RAM_SIZE + |s| == RAM_SIZE - 1
      ensures forall k :: 0 <= k < |s| ==> s[k] == Read(from + k)
    {
      ram[from % RAM_SIZE..RAM_SIZE - 1]
    }

    /** `write`: the byte at the address modulo 2048 takes the value, which is
        returned; no other byte changes. */
    method Write(address: nat, value: Byte) returns (v: Byte)
      requires Valid()
      modifies ram
      ensures v == value
      ensures ram[..] == old(ram[..])[address % RAM_SIZE := value]
      ensures forall b: nat :: Read(b) == if b % RAM_SIZE == address % RAM_SIZE then value else old(Read(b))
    {
      ram[address % RAM_SIZE] := value;
      return value;
    }
  }

  /** The four mirrors of the RAM alias: addresses 2048 apart read the same byte. */
  lemma RamMirrors(r: Ram, address: nat)
    requires r.Valid()
    ensures r.Read(address) == r.Read(address + RAM_SIZE)
  {
  }

  /** The devices the console mounts. */
  datatype Device = WorkRam | Ppu | Apu | Cartridge

  /** A device at the half-open address range [low, high). */
  datatype Mount = Mount(device: Device, low: nat, high: nat)

  /** The ranges `NesDevice::new` registers: RAM with its mirrors, the PPU
      registers with theirs, the APU and I/O registers (a RAM stands in for the
      APU) and the cartridge where `cpu_address_range` puts it. */
  function Mounts(rom: Rom): (ms: Result<seq<Mount>>)
    ensures ms.Ok? <==> rom.mapper == 0
    ensures ms.Panic? ==> ms.fault == UnsupportedMapper
  {
    var range :- CpuAddressRange(rom);
    Ok([Mount(WorkRam, 0x0000, 0x2000), Mount(Ppu, 0x2000, 0x4000),
        Mount(Apu, 0x4000, 0x4018), Mount(Cartridge, range.0, range.1)])
  }

  predicate Disjoint(a: Mount, b: Mount)
  {
    a.high <= b.low || b.high <= a.low
  }

  /** The mounted ranges never overlap and each lies inside the 16-bit bus. */
  lemma MountsDisjoint(rom: Rom)
    requires rom.mapper == 0
    ensures var ms := Mounts(rom).value;
      && |ms| == 4
      && (forall i, j :: 0 <= i < j < |ms| ==> Disjoint(ms[i], ms[j]))
      && (forall i :: 0 <= i < |ms| ==> ms[i].low < ms[i].high <= 0x10000)
  {
  }

  /** The device that answers an address, if any. */
  function Owner(ms: seq<Mount>, address: nat): (d: Option<Device>)
    ensures d.Some? <==> exists i :: 0 <= i < |ms| && ms[i].low <= address < ms[i].high
    ensures d.Some? ==> exists i :: 0 <= i < |ms| && ms[i].low <= address < ms[i].high && ms[i].device == d.value
  {
    if |ms| == 0 then None
    else if ms[0].low <= address < ms[0].high then Some(ms[0].device)
    else
      var rest := Owner(ms[1..], address);
      assert forall i :: 1 <= i < |ms| ==> ms[i] == ms[1..][i - 1];
      rest
  }

  /** With the console's layout every address up to 0x2000 is RAM, 0x2000 to
      0x4000 the PPU, 0x4000 to 0x4018 the APU, 0x6000 on the cartridge, and
      0x4018 to 0x6000 is unmapped. */
  lemma OwnerOfAddress(rom: Rom, address: nat)
    requires rom.mapper == 0 && address < 0x10000
    ensures var o := Owner(Mounts(rom).value, address);
      && (address < 0x2000 ==> o == Some(WorkRam))
      && (0x2000 <= address < 0x4000 ==> o == Some(Ppu))
      && (0x4000 <= address < 0x4018 ==> o == Some(Apu))
      && (0x4018 <= address < 0x6000 ==> o == None)
      && (0x6000 <= address ==> o == Some(Cartridge))
  {
    var ms := Mounts(rom).value;
    if address >= 0x2000 {
      assert Owner(ms, address) == Owner(ms[1..], address);
      if address >= 0x4000 {
        assert Owner(ms[1..], address) == Owner(ms[2..], address) by {
          assert ms[1..][1..] == ms[2..];
        }
        if address >= 0x4018 {
          assert Owner(ms[2..], address) == Owner(ms[3..], address) by {
            assert ms[2..][1..] == ms[3..];
          }
          if address < 0x6000 {
            assert Owner(ms[3..], address) == Owner(ms[4..], address) by {
              assert ms[3..][1..] == ms[4..];
            }
          }
        }
      }
    }
  }

  /** What the console asks of the CPU, in order. */
  datatype CpuRequest = Reset | StepCpu | RequestNmi

  /** `NesDevice`: the PPU it shares with the bus, the mounted ranges, and the
      requests made of the CPU so far. */
  class NesDevice {
    const ppu: PpuDevice.Ppu
    const mounts: seq<Mount>
    var requests: seq<CpuRequest>

    /** `NesDevice::new`: mounts the devices and requests a reset; a cartridge
        whose mapper is not 0 panics in `cpu_address_range`. */
    constructor (rom: Rom)
      requires rom.mapper == 0
      ensures fresh(ppu) && ppu.Valid() && ppu.Regs() == POWER_ON
      ensures mounts == Mounts(rom).value
      ensures requests == [Reset]
    {
      var range := CpuAddressRange(rom).value;
      mounts := [Mount(WorkRam, 0x0000, 0x2000), Mount(Ppu, 0x2000, 0x4000),
                 Mount(Apu, 0x4000, 0x4018), Mount(Cartridge, range.0, range.1)];
      ppu := new PpuDevice.Ppu();
      requests := [Reset];
    }

    /** `NesDevice::new` with its failure: a cartridge whose mapper is not 0 panics
        in `cpu_address_range`, and no device is made; otherwise the device the
        constructor makes. */
    static method New(rom: Rom) returns (res: Result<NesDevice>)
      ensures res.Panic? <==> rom.mapper != 0
      ensures res.Panic? ==> res.fault == UnsupportedMapper
      ensures res.Ok? ==> fresh(res.value) && fresh(res.value.ppu)
      ensures res.Ok? ==> res.value.ppu.Valid() && res.value.ppu.Regs() == POWER_ON
      ensures res.Ok? ==> res.value.mounts == Mounts(rom).value && res.value.requests == [Reset]
    {
      var ms := Mounts(rom);
      if ms.Panic? {
        return Panic(ms.fault);
      }
      var device := new NesDevice(rom);
      return Ok(device);
    }

    /** `reset`. */
    method ResetCpu()
      modifies this
      ensures requests == old(requests) + [Reset]
    {
      requests := requests + [Reset];
    }

    /** `step`: the CPU steps, then the PPU; an NMI from the PPU becomes a
        `request_nmi`, and only then. */
    method Step()
      modifies this, ppu
      ensures ppu.Regs() == StepSpec(old(ppu.Regs())).0
      ensures requests == old(requests) + [StepCpu]
        + (if StepSpec(old(ppu.Regs())).1 == Nmi then [RequestNmi] else [])
    {
      requests := requests + [StepCpu];
      var status := ppu.Step();
      match status {
        case Normal =>
        case Nmi => requests := requests + [RequestNmi];
      }
    }
  }
}
