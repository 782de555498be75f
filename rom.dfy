/** The iNES cartridge image of src/rom.rs: the header fields read from the raw
    file bytes, the trainer, PRG-ROM and CHR-ROM slices that follow the 16-byte
    header, and the read-only mapper-0 device view of the PRG bytes. */
module Cartridge {
  import opened Bits
  import opened Wrappers

  const HEADER_SIZE: nat := 16
  const TRAINER_SIZE: nat := 512
  const PRG_BANK_SIZE: nat := 16384
  const CHR_BANK_SIZE: nat := 8192

  /** The header bytes the helpers read: flags up to byte 9. */
  const HEADER_FIELDS: nat := 10

  /** "NES" followed by MS-DOS end-of-file. */
  const NES_MAGIC: seq<Byte> := [0x4E, 0x45, 0x53]
  const MAGIC_EOF: Byte := 0x1A

  /** `RomVersion`. */
  datatype RomVersion = INes | Nes2 | UnknownFormat

  /** `TVSystem`. */
  datatype TvSystem = Ntsc | Pal | UnknownTv

  /** `PGRROM` and `CHRROM`. */
  datatype Bank = Bank(lsbBanks: Byte, msbBanks: Byte, data: seq<Byte>)

  /** `Rom`. */
  datatype Rom = Rom(
    format: RomVersion,
    trainer: Option<seq<Byte>>,
    pgrrom: Bank,
    chrrom: Bank,
    mapper: Byte,
    flag6: Byte,
    flag7: Byte,
    pgrramBanks: Byte,
    tvSystem: TvSystem)
  {
    /** `program`: the PRG-ROM bytes. */
    function Program(): (prg: seq<Byte>)
      ensures prg == pgrrom.data
    {
      pgrrom.data
    }
  }

  /** `parse_mapper`: `(data[7] & 0xF0) | (data[6] >> 4)`, the upper nibble of
      flags 7 above the upper nibble of flags 6. */
  function ParseMapper(data: seq<Byte>): (m: Byte)
    requires |data| >= HEADER_FIELDS
    ensures forall k: nat :: k < 4 ==> (BitOf(m, k) <==> BitOf(data[6], k + 4))
    ensures forall k: nat :: 4 <= k < 8 ==> (BitOf(m, k) <==> BitOf(data[7], k))
  {
    assert Pow2(4) == 16 && Pow2(8) == 0x100;
    forall k: nat | k < 8
      ensures BitOf(And(data[7], 0xF0), k) <==> BitOf(data[7], k) && k >= 4
      ensures BitOf(data[6] / 16, k) <==> k < 4 && BitOf(data[6], k + 4)
    {
      MaskBits(k);
      ShiftBits(data[6], 4, k);
      if k >= 4 {
        HighBitsClear(data[6], 8, k + 4);
      }
    }
    Or(And(data[7], 0xF0), data[6] / 16)
  }

  /** `(v & 0x0C) == 0x08`: bit 3 set and bit 2 clear. */
  lemma Nes2Bits(v: Byte)
    ensures And(v, 0x0C) == 0x08 <==> BitOf(v, 3) && !BitOf(v, 2)
  {
    var r := And(v, 0x0C);
    assert Pow2(3) == 0x08;
    MaskBits(2);
    MaskBits(3);
    if BitOf(v, 3) && !BitOf(v, 2) {
      forall k: nat | k < 8
        ensures BitOf(r, k) <==> BitOf(0x08, k)
      {
        MaskBits(k);
        Pow2Bits(3, k);
      }
      assert Pow2(8) == 0x100;
      BitsEqual(r, 0x08, 8);
    } else if r == 0x08 {
      Pow2Bits(3, 3);
      Pow2Bits(3, 2);
    }
  }

  /** Whether the file starts with the iNES magic number. */
  predicate HasMagic(data: seq<Byte>)
    requires |data| >= HEADER_FIELDS
  {
    data[0..3] == NES_MAGIC && data[3] == MAGIC_EOF
  }

  /** `guess_version`: with the magic number, NES 2.0 when bits 3..2 of flags 7
      are 10, iNES otherwise; without it, unknown. */
  function GuessVersion(data: seq<Byte>): (v: RomVersion)
    requires |data| >= HEADER_FIELDS
    ensures v == Nes2 <==> HasMagic(data) && BitOf(data[7], 3) && !BitOf(data[7], 2)
    ensures v == INes <==> HasMagic(data) && !(BitOf(data[7], 3) && !BitOf(data[7], 2))
    ensures v == UnknownFormat <==> !HasMagic(data)
  {
    Nes2Bits(data[7]);
    var ines := data[0..3] == NES_MAGIC && data[3] == MAGIC_EOF;
    var nes2Ext := And(data[7], 0x0C) == 0x08;
    if ines then (if nes2Ext then Nes2 else INes) else UnknownFormat
  }

  /** `has_trainer`: bit 2 of flags 6. */
  function HasTrainer(data: seq<Byte>): (t: bool)
    requires |data| >= HEADER_FIELDS
    ensures t <==> BitOf(data[6], 2)
  {
    assert Pow2(2) == 4;
    AndPow2(data[6], 0x04, 2);
    And(data[6], 0x04) != 0
  }

  /** `pgrrom_banks` and `pgrrom_size`: byte 4 counts 16 KiB banks. */
  function PrgBanks(data: seq<Byte>): (banks: Byte)
    requires |data| >= HEADER_FIELDS
    ensures banks == data[4]
  {
    data[4]
  }

  function PrgSize(data: seq<Byte>): (size: nat)
    requires |data| >= HEADER_FIELDS
    ensures size % PRG_BANK_SIZE == 0 && size / PRG_BANK_SIZE == data[4]
  {
    PrgBanks(data) * PRG_BANK_SIZE
  }

  /** `chrrom_banks` and `chrrom_size`: byte 5 counts 8 KiB banks. */
  function ChrBanks(data: seq<Byte>): (banks: Byte)
    requires |data| >= HEADER_FIELDS
    ensures banks == data[5]
  {
    data[5]
  }

  function ChrSize(data: seq<Byte>): (size: nat)
    requires |data| >= HEADER_FIELDS
    ensures size % CHR_BANK_SIZE == 0 && size / CHR_BANK_SIZE == data[5]
  {
    ChrBanks(data) * CHR_BANK_SIZE
  }

  /** `trainer` as written: `data[16..512]`. */
  function TrainerAsWritten(data: seq<Byte>): (t: Result<Option<seq<Byte>>>)
    requires |data| >= HEADER_FIELDS
    ensures t.Panic? <==> HasTrainer(data) && |data| < TRAINER_SIZE
    ensures t.Ok? && t.value.Some? ==> |t.value.value| == TRAINER_SIZE - HEADER_SIZE
  {
    if HasTrainer(data) then
      if |data| < TRAINER_SIZE then Panic(IndexOutOfBounds) else Ok(Some(data[HEADER_SIZE..TRAINER_SIZE]))
    else Ok(None)
  }

  /** `trainer`: the 512 bytes after the header when flags 6 announces them. */
  function Trainer(data: seq<Byte>): (t: Result<Option<seq<Byte>>>)
    requires |data| >= HEADER_FIELDS
    ensures t.Panic? <==> HasTrainer(data) && |data| < HEADER_SIZE + TRAINER_SIZE
    ensures t.Ok? ==> (t.value.Some? <==> HasTrainer(data))
    ensures t.Ok? && t.value.Some? ==> |t.value.value| == TRAINER_SIZE
  {
    if HasTrainer(data) then
      if |data| < HEADER_SIZE + TRAINER_SIZE then Panic(IndexOutOfBounds)
      else Ok(Some(data[HEADER_SIZE..HEADER_SIZE + TRAINER_SIZE]))
    else Ok(None)
  }

  /** The written slice stops 16 bytes short: it holds 496 bytes, the first 496 of
      the trainer, and drops its last 16 even when the file has all 512. */
  lemma TrainerAsWrittenShort(data: seq<Byte>)
    requires |data| >= HEADER_SIZE + TRAINER_SIZE && HasTrainer(data)
    ensures TrainerAsWritten(data) == Ok(Some(Trainer(data).value.value[..TRAINER_SIZE - HEADER_SIZE]))
    ensures |Trainer(data).value.value| - |TrainerAsWritten(data).value.value| == HEADER_SIZE
  {
    assert data[HEADER_SIZE..TRAINER_SIZE] == data[HEADER_SIZE..HEADER_SIZE + TRAINER_SIZE][..TRAINER_SIZE - HEADER_SIZE];
  }

  /** `tv_system`: `data[9] & 0x01` is 0 (NTSC) or 1 (PAL); the third arm is dead. */
  function TvSystemOf(data: seq<Byte>): (tv: TvSystem)
    requires |data| >= HEADER_FIELDS
    ensures tv == Pal <==> BitOf(data[9], 0)
    ensures tv == Ntsc <==> !BitOf(data[9], 0)
  {
    AndPow2(data[9], 0x01, 0);
    match And(data[9], 0x01)
    case 0 => Ntsc
    case 1 => Pal
    case _ => UnknownTv
  }

  /** Where the PRG-ROM bytes start: after the header, and after the trainer too
      when there is one. */
  function PrgStart(data: seq<Byte>): (from: nat)
    requires |data| >= HEADER_FIELDS
    ensures from == if BitOf(data[6], 2) then HEADER_SIZE + TRAINER_SIZE else HEADER_SIZE
  {
    var from := HEADER_SIZE;
    if HasTrainer(data) then from + TRAINER_SIZE else from
  }

  /** `pgrrom_data`: the PRG size bytes from the PRG start. */
  function PrgData(data: seq<Byte>): (prg: Result<seq<Byte>>)
    requires |data| >= HEADER_FIELDS
    ensures prg.Ok? <==> PrgStart(data) + PrgSize(data) <= |data|
    ensures prg.Ok? ==> |prg.value| == data[4] * PRG_BANK_SIZE
    ensures prg.Ok? ==> prg.value == data[PrgStart(data)..PrgStart(data) + PrgSize(data)]
  {
    var from := HEADER_SIZE;
    var to := from + PrgSize(data);
    var (from', to') := if HasTrainer(data) then (from + TRAINER_SIZE, to + TRAINER_SIZE) else (from, to);
    if to' > |data| then Panic(IndexOutOfBounds) else Ok(data[from'..to'])
  }

  /** `chrrom_data`: the CHR size bytes that follow the PRG-ROM bytes. */
  function ChrData(data: seq<Byte>): (chr: Result<seq<Byte>>)
    requires |data| >= HEADER_FIELDS
    ensures chr.Ok? <==> PrgStart(data) + PrgSize(data) + ChrSize(data) <= |data|
    ensures chr.Ok? ==> |chr.value| == data[5] * CHR_BANK_SIZE
    ensures chr.Ok? ==> chr.value == data[PrgStart(data) + PrgSize(data)..PrgStart(data) + PrgSize(data) + ChrSize(data)]
  {
    var from := HEADER_SIZE + PrgSize(data);
    var to := from + ChrSize(data);
    var (from', to') := if HasTrainer(data) then (from + TRAINER_SIZE, to + TRAINER_SIZE) else (from, to);
    if to' > |data| then Panic(IndexOutOfBounds) else Ok(data[from'..to'])
  }

  /** The file is header, optional trainer, PRG-ROM, CHR-ROM, back to back: when
      both slices exist, the PRG and CHR bytes together are the bytes from the
      PRG start, and the trainer ends where the PRG starts. */
  lemma SectionsAdjacent(data: seq<Byte>)
    requires |data| >= HEADER_FIELDS && ChrData(data).Ok?
    ensures PrgData(data).Ok? && Trainer(data).Ok?
    ensures PrgData(data).value + ChrData(data).value
      == data[PrgStart(data)..PrgStart(data) + PrgSize(data) + ChrSize(data)]
    ensures Trainer(data).value.Some? ==> HEADER_SIZE + |Trainer(data).value.value| == PrgStart(data)
  {
    var s := PrgStart(data);
    var p := PrgSize(data);
    assert data[s..s + p] + data[s + p..s + p + ChrSize(data)] == data[s..s + p + ChrSize(data)];
  }

  /** `from_file` without the file I/O: every field of the header, the trainer and
      both ROM banks. A file too short for the header or for a slice panics. */
  function FromBytes(data: seq<Byte>): (rom: Result<Rom>)
    ensures rom.Ok? <==> |data| >= HEADER_FIELDS && PrgStart(data) + PrgSize(data) + ChrSize(data) <= |data|
    ensures rom.Ok? ==> rom.value.flag6 == data[6] && rom.value.flag7 == data[7] && rom.value.pgrramBanks == data[8]
    ensures rom.Ok? ==> |rom.value.Program()| == data[4] * PRG_BANK_SIZE && |rom.value.chrrom.data| == data[5] * CHR_BANK_SIZE
    ensures rom.Ok? ==> (rom.value.trainer.Some? <==> BitOf(data[6], 2))
    ensures rom.Ok? ==>
      rom.value.trainer == if BitOf(data[6], 2) then Some(data[HEADER_SIZE..HEADER_SIZE + TRAINER_SIZE]) else None
    ensures rom.Ok? ==> rom.value.Program() == data[PrgStart(data)..PrgStart(data) + PrgSize(data)]
    ensures rom.Ok? ==>
      rom.value.chrrom.data == data[PrgStart(data) + PrgSize(data)..PrgStart(data) + PrgSize(data) + ChrSize(data)]
    ensures rom.Ok? ==> rom.value.pgrrom.lsbBanks == data[4] && rom.value.pgrrom.msbBanks == And(data[9], 0x0F)
    ensures rom.Ok? ==> rom.value.chrrom.lsbBanks == data[5] && rom.value.chrrom.msbBanks == And(data[9], 0xF0)
    ensures rom.Ok? ==> rom.value.format == GuessVersion(data)
    ensures rom.Ok? ==> rom.value.mapper == ParseMapper(data) && rom.value.tvSystem == TvSystemOf(data)
  {
    if |data| < HEADER_FIELDS then Panic(IndexOutOfBounds)
    else
      var format := GuessVersion(data);
      var trainer :- Trainer(data);
      var prg :- PrgData(data);
      var chr :- ChrData(data);
      Ok(Rom(
        format := format,
        trainer := trainer,
        pgrrom := Bank(PrgBanks(data), And(data[9], 0x0F), prg),
        chrrom := Bank(ChrBanks(data), And(data[9], 0xF0), chr),
        mapper := ParseMapper(data),
        flag6 := data[6],
        flag7 := data[7],
        pgrramBanks := data[8],
        tvSystem := TvSystemOf(data)))
  }

  /** `cpu_address_range`: mapper 0 sits at [0x6000, 0x10000); any other mapper
      is refused. */
  function CpuAddressRange(rom: Rom): (range: Result<(nat, nat)>)
    ensures range.Ok? <==> rom.mapper == 0
    ensures range.Panic? ==> range.fault == UnsupportedMapper
    ensures range.Ok? ==> range.value.0 < range.value.1 && range.value.1 - range.value.0 == 0xA000
  {
    if rom.mapper == 0 then Ok((0x6000, 0x10000)) else Panic(UnsupportedMapper)
  }

  /** The PRG index the device view uses for an offset of at least 0x2000: the
      offset less 0x2000 below 0x4000, less 0x6000 from 0x6000 on. */
  function PrgIndex(offset: nat): nat
    requires offset >= 0x2000 && !(0x4000 <= offset < 0x6000)
  {
    if offset < 0x4000 then offset - 0x2000 else offset - 0x6000
  }

  /** `read` of the device view. Below 0x2000 there is no PRG-RAM; from 0x4000 to
      0x6000 the second subtraction of 0x4000 underflows; past the PRG bytes the
      index is out of bounds. */
  function Read(rom: Rom, offset: nat): (r: Result<Byte>)
    ensures r.Panic? && r.fault == NoPrgRam <==> offset < 0x2000
    ensures r.Panic? && r.fault == ArithmeticOverflow <==> 0x4000 <= offset < 0x6000
    ensures r.Ok? <==> offset >= 0x2000 && !(0x4000 <= offset < 0x6000) && PrgIndex(offset) < |rom.Program()|
    ensures r.Ok? ==> r.value == rom.Program()[PrgIndex(offset)]
  {
    if offset < 0x2000 then Panic(NoPrgRam)
    else
      var translated := offset - 0x2000;
      if offset < 0x4000 then
        if translated < |rom.Program()| then Ok(rom.Program()[translated]) else Panic(IndexOutOfBounds)
      else if translated < 0x4000 then Panic(ArithmeticOverflow)
      else
        var translated' := translated - 0x4000;
        if translated' < |rom.Program()| then Ok(rom.Program()[translated']) else Panic(IndexOutOfBounds)
  }

  /** Offsets o in [0x2000, 0x4000) and o + 0x4000 read the same PRG byte: the
      first 8 KiB of PRG-ROM appear twice. */
  lemma ReadMirrors(rom: Rom, offset: nat)
    requires 0x2000 <= offset < 0x4000
    ensures Read(rom, offset) == Read(rom, offset + 0x4000)
  {
  }

  /** `slice` of the device view: from the PRG index to one before the end, so
      the last PRG byte is never part of a slice; an empty PRG underflows. */
  function Slice(rom: Rom, from: nat): (r: Result<seq<Byte>>)
    ensures r.Panic? && r.fault == NoPrgRam <==> from < 0x2000
    ensures r.Ok? <==> from >= 0x2000 && !(0x4000 <= from < 0x6000) && PrgIndex(from) < |rom.Program()|
    ensures r.Ok? ==> r.value == rom.Program()[PrgIndex(from)..|rom.Program()| - 1]
    ensures r.Ok? ==> |r.value| == |rom.Program()| - 1 - PrgIndex(from)
  {
    if from < 0x2000 then Panic(NoPrgRam)
    else
      var translated := from - 0x2000;
      var t :- if from < 0x4000 then Ok(translated)
               else if translated < 0x4000 then Panic(ArithmeticOverflow)
               else Ok(translated - 0x4000);
      if |rom.Program()| == 0 then Panic(ArithmeticOverflow)
      else if t > |rom.Program()| - 1 then Panic(IndexOutOfBounds)
      else Ok(rom.Program()[t..|rom.Program()| - 1])
  }

  /** `write`: mapper 0 has nothing to write; the value comes back and the
      cartridge is unchanged. */
  function Write(rom: Rom, address: nat, value: Byte): (r: (Rom, Byte))
    ensures r.0 == rom && r.1 == value
  {
    (rom, value)
  }
}
