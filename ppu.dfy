/** The picture processing unit of src/ppu.rs: eight memory-mapped registers
    (the status port read-only), the two-write scroll and address latches, the
    scanline/cycle counters that raise and clear VBlank, CHR tile decoding and
    the framebuffer writes of the sprite-sheet viewer. */
module PpuDevice {
  import opened Bits
  import opened Wrappers

  const SCANLINE_LIMIT: int := 340
  const VBLANK_SCANLINE: int := 241
  const LAST_SCANLINE: int := 261
  const PRE_SCANLINE: int := -1

  /** Cycles per scanline and scanlines per frame of the counters below. */
  const LINE_CYCLES: int := 341
  const FRAME_TICKS: int := 262 * 341

  /** The framebuffer: 256 x 240 pixels of three bytes. */
  const SCREEN_WIDTH: nat := 256
  const PIXELS: nat := 256 * 240
  const SCREEN_BYTES: nat := 184320

  /** `PpuStepEval`. */
  datatype StepEval = Normal | Nmi

  /** Every field of `Ppu` except the screen. The counters are unbounded here;
      `Counting` below is the range they keep. */
  datatype Registers = Registers(
    control: Byte, mask: Byte, status: Byte, oamaddress: Byte, oamdata: Byte,
    scroll: Word, address: Word, data: Byte,
    isScrollLow: bool, isAddressLow: bool,
    scanline: int, cycles: int)

  /** The registers `Ppu::new` starts with. */
  const POWER_ON: Registers :=
    Registers(0, 0, 0, 0, 0, 0, 0, 0, true, true, 240, 0)

  /** `read`: the register selected by address mod 8; the 16-bit scroll and
      address registers show only their low byte. */
  function ReadPort(r: Registers, address: nat): (v: Byte)
    ensures address % 8 == 0 ==> v == r.control
    ensures address % 8 == 1 ==> v == r.mask
    ensures address % 8 == 2 ==> v == r.status
    ensures address % 8 == 3 ==> v == r.oamaddress
    ensures address % 8 == 4 ==> v == r.oamdata
    ensures address % 8 == 5 ==> v == Lo(r.scroll)
    ensures address % 8 == 6 ==> v == Lo(r.address)
    ensures address % 8 == 7 ==> v == r.data
  {
    match address % 8
    case 0 => r.control
    case 1 => r.mask
    case 2 => r.status
    case 3 => r.oamaddress
    case 4 => r.oamdata
    case 5 => Lo(r.scroll)
    case 6 => Lo(r.address)
    case 7 => r.data
  }

  /** One write to a two-write latch. With the toggle set the value is stored as
      it is; otherwise the old value moves up a byte (`<<` on a u16 drops its high
      byte) and the new value fills the low byte. */
  function Latch(previous: Word, low: bool, v: Byte): (w: Word)
    ensures Lo(w) == v
    ensures !low ==> Hi(w) == Lo(previous)
    ensures low ==> w == v
  {
    if low then v else Word16(v, Lo(previous))
  }

  /** `write`: the register selected by address mod 8 takes the value; ports 5
      and 6 go through their latch and flip its toggle; port 2 is an error. No
      write touches the status, the counters or the screen. */
  function WritePort(r: Registers, address: nat, v: Byte): (res: Result<Registers>)
    ensures res.Panic? <==> address % 8 == 2
    ensures res.Panic? ==> res.fault == StatusWrite
    ensures res.Ok? ==> res.value.status == r.status
    ensures res.Ok? ==> res.value.scanline == r.scanline && res.value.cycles == r.cycles
  {
    match address % 8
    case 0 => Ok(r.(control := v))
    case 1 => Ok(r.(mask := v))
    case 2 => Panic(StatusWrite)
    case 3 => Ok(r.(oamaddress := v))
    case 4 => Ok(r.(oamdata := v))
    case 5 => Ok(r.(scroll := Latch(r.scroll, r.isScrollLow, v), isScrollLow := !r.isScrollLow))
    case 6 => Ok(r.(address := Latch(r.address, r.isAddressLow, v), isAddressLow := !r.isAddressLow))
    case 7 => Ok(r.(data := v))
  }

  /** Reading back the port just written gives the value written. */
  lemma WriteThenRead(r: Registers, address: nat, v: Byte)
    requires address % 8 != 2
    ensures WritePort(r, address, v).Ok?
    ensures ReadPort(WritePort(r, address, v).value, address) == v
  {
  }

  /** A write leaves every other port and the other latch's toggle as they were. */
  lemma WriteLeavesOtherPorts(r: Registers, address: nat, other: nat, v: Byte)
    requires address % 8 != 2 && address % 8 != other % 8
    ensures ReadPort(WritePort(r, address, v).value, other) == ReadPort(r, other)
    ensures address % 8 != 5 ==> WritePort(r, address, v).value.isScrollLow == r.isScrollLow
    ensures address % 8 != 6 ==> WritePort(r, address, v).value.isAddressLow == r.isAddressLow
  {
  }

  /** Two writes to a latch port, starting from the toggle's initial value, leave
      (first << 8) | second in the register and the toggle as it started. */
  lemma LatchTwoWrites(r: Registers, address: nat, first: Byte, second: Byte)
    requires address % 8 == 5 || address % 8 == 6
    requires address % 8 == 5 ==> r.isScrollLow
    requires address % 8 == 6 ==> r.isAddressLow
    ensures var r2 := WritePort(WritePort(r, address, first).value, address, second).value;
      && (address % 8 == 5 ==> r2.scroll == first * 0x100 + second && r2.isScrollLow)
      && (address % 8 == 6 ==> r2.address == first * 0x100 + second && r2.isAddressLow)
  {
  }

  /** `set_vblank`: bit 7 of the status becomes `on`, by `|= 0x80` or `&= 0x7F`. */
  function VblankStatus(status: Byte, on: bool): (s: Byte)
    ensures BitOf(s, 7) == on
    ensures forall k: nat :: k < 7 ==> (BitOf(s, k) <==> BitOf(status, k))
  {
    assert Pow2(7) == 0x80;
    forall k: nat | k < 8
      ensures (BitOf(0x80, k) <==> k == 7) && (BitOf(0x7F, k) <==> k < 7)
    {
      Pow2Bits(7, k);
      MaskBits(k);
    }
    if on then Or(status, 0x80) else And(status, 0x7F)
  }

  /** The part of `step` before the NMI test: roll the cycle counter over into
      the next scanline, clear VBlank at (-1, 1) and set it at (241, 1). The flag
      says whether this is the VBlank dot. */
  function CountAndBlank(r: Registers): (p: (Registers, bool))
  {
    var r1 := if r.cycles > SCANLINE_LIMIT then r.(cycles := 0, scanline := r.scanline + 1) else r;
    var r2 := if r1.scanline == PRE_SCANLINE && r1.cycles == 1
      then r1.(status := VblankStatus(r1.status, false)) else r1;
    var vblank := r2.scanline == VBLANK_SCANLINE && r2.cycles == 1;
    (if vblank then r2.(status := VblankStatus(r2.status, true)) else r2, vblank)
  }

  /** The rest of `step`: scanline 261 wraps to -1 and the cycle advances. */
  function Finish(r: Registers): Registers
  {
    var r4 := if r.scanline == LAST_SCANLINE then r.(scanline := PRE_SCANLINE) else r;
    r4.(cycles := r4.cycles + 1)
  }

  /** `step` as intended: NMI at the VBlank dot when bit 7 of the control register
      is set, and the counters advance on every step. */
  function StepSpec(r: Registers): (p: (Registers, StepEval))
    ensures p.1 == Nmi <==> r.scanline == VBLANK_SCANLINE && r.cycles == 1 && BitOf(r.control, 7)
    ensures p.0.(status := r.status, scanline := r.scanline, cycles := r.cycles) == r
  {
    var (r3, vblank) := CountAndBlank(r);
    (Finish(r3), if vblank && BitOf(r.control, 7) then Nmi else Normal)
  }

  /** The control flow of `step` as the source writes it, given the value of its
      NMI test: when the test holds at the VBlank dot it returns before the
      scanline wrap and the cycle increment. */
  function StepReturningEarly(r: Registers, nmiTest: bool): (p: (Registers, StepEval))
  {
    var (r3, vblank) := CountAndBlank(r);
    if vblank && nmiTest then (r3, Nmi) else (Finish(r3), Normal)
  }

  /** `step` exactly as written: the NMI test is `self.control & 0x80 == 1`.
      `control & 0x80` is 0 or 0x80 and never 1, so it never yields NMI and
      otherwise does what the intended step does. */
  function StepAsWritten(r: Registers): (p: (Registers, StepEval))
    ensures p.1 == Normal
    ensures p.0 == StepSpec(r).0
  {
    AndEvenMaskIsNotOne(r.control, 0x80);
    StepReturningEarly(r, And(r.control, 0x80) == 1)
  }

  /** With bit 7 of control set, the intended step yields NMI at the VBlank dot
      where the written one does not. */
  lemma NmiLostAsWritten()
    ensures StepSpec(POWER_ON.(control := 0x80, scanline := 241, cycles := 1)).1 == Nmi
    ensures StepAsWritten(POWER_ON.(control := 0x80, scanline := 241, cycles := 1)).1 == Normal
  {
    Bit7IsBitOf(0x80);
  }

  /** Repairing only the NMI test would leave the early return: at the VBlank dot
      the counters stay at (241, 1), so every later step yields NMI again. */
  lemma EarlyReturnStalls(r: Registers)
    requires r.scanline == VBLANK_SCANLINE && r.cycles == 1
    ensures var (r1, e) := StepReturningEarly(r, true);
      e == Nmi && r1.scanline == VBLANK_SCANLINE && r1.cycles == 1
  {
  }

  /** The counter ranges `step` keeps: scanline in [-1, 260], cycles in [0, 341]. */
  predicate Counting(r: Registers)
  {
    PRE_SCANLINE <= r.scanline <= LAST_SCANLINE - 1 && 0 <= r.cycles <= LINE_CYCLES
  }

  lemma PowerOnCounting()
    ensures Counting(POWER_ON)
  {
  }

  /** Every step keeps the counters in range and leaves the cycle at 1 or more. */
  lemma StepKeepsCounting(r: Registers)
    requires Counting(r)
    ensures Counting(StepSpec(r).0)
    ensures StepSpec(r).0.cycles >= 1
  {
  }

  /** The position of a state in the frame, counted in dots from (-1, 1). Cycle 0
      only occurs at power on, where it stands for the last dot of the previous
      scanline. */
  function Tick(r: Registers): int
  {
    if r.cycles == 0 then ((r.scanline + 1) * LINE_CYCLES - 1) % FRAME_TICKS
    else ((r.scanline + 1) * LINE_CYCLES + r.cycles - 1) % FRAME_TICKS
  }

  /** Each step moves one dot forward in a frame of 262 scanlines of 341 dots. */
  lemma StepTicks(r: Registers)
    requires Counting(r)
    ensures Tick(StepSpec(r).0) == (Tick(r) + 1) % FRAME_TICKS
  {
    var n := StepSpec(r).0;
    var base := (r.scanline + 1) * LINE_CYCLES;
    var x := if r.cycles == 0 then base - 1 else base + r.cycles - 1;
    assert Tick(r) == x % FRAME_TICKS;
    if r.cycles > SCANLINE_LIMIT {
      assert n.cycles == 1;
      if r.scanline + 1 == LAST_SCANLINE {
        assert n.scanline == PRE_SCANLINE;
        assert x + 1 == FRAME_TICKS;
      } else {
        assert n.scanline == r.scanline + 1;
        assert x + 1 == base + LINE_CYCLES;
      }
    } else {
      assert n.scanline == r.scanline && n.cycles == r.cycles + 1;
    }
    assert Tick(n) == (x + 1) % FRAME_TICKS;
    ModSucc(x);
  }

  /** Taking the remainder before adding one changes nothing modulo the frame. */
  lemma ModSucc(x: int)
    ensures (x % FRAME_TICKS + 1) % FRAME_TICKS == (x + 1) % FRAME_TICKS
  {
    var q := x / FRAME_TICKS;
    if x % FRAME_TICKS + 1 < FRAME_TICKS {
      DivUnique(x + 1, FRAME_TICKS, q, x % FRAME_TICKS + 1);
    } else {
      DivUnique(x + 1, FRAME_TICKS, q + 1, 0);
    }
  }

  /** The intended step yields NMI exactly at the VBlank dot (241, 1) with bit 7
      of control set, which is one dot per frame. */
  lemma StepNmiExactly(r: Registers)
    ensures StepSpec(r).1 == Nmi <==>
      r.scanline == VBLANK_SCANLINE && r.cycles == 1 && BitOf(r.control, 7)
    ensures r.scanline == VBLANK_SCANLINE && r.cycles == 1 ==> Tick(r) == 242 * LINE_CYCLES
  {
  }

  /** VBlank (status bit 7) is cleared at (-1, 1), set at (241, 1) and otherwise
      kept; the other status bits are never touched by a step. */
  lemma StepVblank(r: Registers)
    ensures var s := StepSpec(r).0.status;
      && (forall k: nat :: k < 7 ==> (BitOf(s, k) <==> BitOf(r.status, k)))
      && (r.scanline == PRE_SCANLINE && r.cycles == 1 ==> !BitOf(s, 7))
      && (r.scanline == VBLANK_SCANLINE && r.cycles == 1 ==> BitOf(s, 7))
      && ((r.cycles != 1 || (r.scanline != PRE_SCANLINE && r.scanline != VBLANK_SCANLINE))
            ==> s == r.status)
  {
  }

  /** A pixel colour of a sprite: the two bit planes of a CHR tile. */
  datatype SpriteColor = Color0 | Color1 | Color2 | Color3

  /** The palette index of a colour. */
  function ColorIndex(c: SpriteColor): nat
  {
    match c
    case Color0 => 0
    case Color1 => 1
    case Color2 => 2
    case Color3 => 3
  }

  function BitValue(b: bool): nat
  {
    if b then 1 else 0
  }

  /** The colour of a pixel whose first-plane bit is b1 and second-plane bit b2. */
  function ColorOf(b1: bool, b2: bool): (c: SpriteColor)
    ensures ColorIndex(c) == 2 * BitValue(b1) + BitValue(b2)
  {
    match (b1, b2)
    case (false, false) => Color0
    case (false, true) => Color1
    case (true, false) => Color2
    case (true, true) => Color3
  }

  /** `Sprite`: rows of pixel colours; `from_chr_chunk` always makes 8 rows of 8. */
  type Sprite = seq<seq<SpriteColor>>

  predicate WellFormed(s: Sprite)
  {
    |s| == 8 && forall r :: 0 <= r < 8 ==> |s[r]| == 8
  }

  /** Pixel i (0 leftmost) of a tile row whose two bit planes are a and b. */
  function PixelColor(a: Byte, b: Byte, i: nat): SpriteColor
    requires i < 8
  {
    ColorOf(BitOf(a, 7 - i), BitOf(b, 7 - i))
  }

  /** The sprite of a 16-byte CHR tile: pixel i of row r has colour index
      2 * b1 + b2, with b1 bit 7 - i of byte r and b2 the same bit of byte 8 + r. */
  function ChrSprite(chunk: seq<Byte>): (s: Sprite)
    requires |chunk| >= 16
    ensures WellFormed(s)
    ensures forall r, i :: 0 <= r < 8 && 0 <= i < 8 ==>
      ColorIndex(s[r][i]) == 2 * BitValue(BitOf(chunk[r], 7 - i)) + BitValue(BitOf(chunk[8 + r], 7 - i))
  {
    seq(8, r requires 0 <= r < 8 => seq(8, i requires 0 <= i < 8 => PixelColor(chunk[r], chunk[8 + r], i)))
  }

  /** `Sprite::from_chr_chunk`: rows from the first eight bytes paired with the next
      eight, pixels from the masks 128 >> i. A chunk of fewer than 16 bytes panics
      on its slices. */
  method FromChrChunk(chunk: seq<Byte>) returns (res: Result<Sprite>)
    ensures res.Ok? <==> |chunk| >= 16
    ensures res.Ok? ==> res.value == ChrSprite(chunk)
  {
    if |chunk| < 16 {
      return Panic(IndexOutOfBounds);
    }
    var channel1 := chunk[0..8];
    var channel2 := chunk[8..16];
    var rows: Sprite := [];
    var r := 0;
    while r < 8
      invariant 0 <= r <= 8 && |rows| == r
      invariant forall r' :: 0 <= r' < r ==> rows[r'] == ChrSprite(chunk)[r']
    {
      var a, b := channel1[r], channel2[r];
      var row: seq<SpriteColor> := [];
      var i := 0;
      while i < 8
        invariant 0 <= i <= 8 && |row| == i
        invariant forall i' :: 0 <= i' < i ==> row[i'] == PixelColor(a, b, i')
      {
        ShiftMask(i);
        var mask := 0x80 / Pow2(i);
        AndPow2(a, mask, 7 - i);
        AndPow2(b, mask, 7 - i);
        var b1 := And(a, mask) != 0;
        var b2 := And(b, mask) != 0;
        row := row + [ColorOf(b1, b2)];
        i := i + 1;
      }
      rows := rows + [row];
      r := r + 1;
    }
    return Ok(rows);
  }

  /** RGB colour. */
  datatype Color = Color(red: Byte, green: Byte, blue: Byte)

  /** `std_palette`. */
  function Palette(c: SpriteColor): (rgb: Color)
    ensures c == Color0 <==> rgb.red == 255 && rgb.green == 255 && rgb.blue == 255
    ensures c != Color0 ==> rgb.red + rgb.green + rgb.blue == 255 && (rgb.red == 255 || rgb.green == 255 || rgb.blue == 255)
  {
    match c
    case Color0 => Color(255, 255, 255)
    case Color1 => Color(0, 255, 0)
    case Color2 => Color(0, 0, 255)
    case Color3 => Color(255, 0, 0)
  }

  /** The palette tells every colour apart. */
  lemma PaletteInjective(c: SpriteColor, d: SpriteColor)
    ensures Palette(c) == Palette(d) <==> c == d
  {
  }

  /** Byte k (0 red, 1 green, 2 blue) of a colour in the framebuffer. */
  function Component(c: Color, k: nat): Byte
  {
    if k == 0 then c.red else if k == 1 then c.green else c.blue
  }

  /** The framebuffer after pixel p is set to c: bytes 3p, 3p + 1, 3p + 2. */
  function Paint(s: seq<Byte>, p: nat, c: Color): (t: seq<Byte>)
    requires 3 * p + 2 < |s|
    ensures |t| == |s|
    ensures forall n :: 0 <= n < |s| && n / 3 != p ==> t[n] == s[n]
    ensures forall n :: 0 <= n < |s| && n / 3 == p ==> t[n] == Component(c, n % 3)
  {
    s[3 * p := c.red][3 * p + 1 := c.green][3 * p + 2 := c.blue]
  }

  /** Pixel index of the first pixel of row i of a sprite drawn at (x, y). */
  function RowStart(x: nat, y: nat, i: nat): nat
  {
    (y + i) * SCREEN_WIDTH + x
  }

  /** Whether byte n of the framebuffer belongs to the 8 pixels from pixel `start`. */
  predicate InBand(n: nat, start: nat)
  {
    3 * start <= n < 3 * (start + 8)
  }

  /** The framebuffer after the first j pixels of a line are drawn from pixel `start`. */
  function PaintRow(s: seq<Byte>, start: nat, line: seq<SpriteColor>, j: nat): (t: seq<Byte>)
    requires j <= |line| && (j > 0 ==> 3 * (start + j) <= |s|)
    ensures |t| == |s|
  {
    if j == 0 then s
    else Paint(PaintRow(s, start, line, j - 1), start + j - 1, Palette(line[j - 1]))
  }

  /** Whether a sprite drawn at (x, y) lies inside the framebuffer; its last pixel
      is the largest index it writes. */
  predicate SpriteFits(x: nat, y: nat)
  {
    RowStart(x, y, 7) + 7 < PIXELS
  }

  /** The framebuffer after the first i rows of a sprite are drawn at (x, y). */
  function PaintRows(s: seq<Byte>, x: nat, y: nat, sprite: Sprite, i: nat): (t: seq<Byte>)
    requires |s| == SCREEN_BYTES && WellFormed(sprite) && i <= 8
    requires i > 0 ==> RowStart(x, y, i - 1) + 7 < PIXELS
    ensures |t| == |s|
  {
    if i == 0 then s
    else PaintRow(PaintRows(s, x, y, sprite, i - 1), RowStart(x, y, i - 1), sprite[i - 1], 8)
  }

  /** The framebuffer after a whole sprite is drawn at (x, y). */
  function PaintSprite(s: seq<Byte>, x: nat, y: nat, sprite: Sprite): (t: seq<Byte>)
    requires |s| == SCREEN_BYTES && WellFormed(sprite) && SpriteFits(x, y)
    ensures |t| == |s|
  {
    PaintRows(s, x, y, sprite, 8)
  }

  lemma {:induction false} PaintRowEffect(s: seq<Byte>, start: nat, line: seq<SpriteColor>, j: nat, n: nat)
    requires j <= |line| && (j > 0 ==> 3 * (start + j) <= |s|) && n < |s|
    ensures 3 * start <= n < 3 * (start + j) ==>
      PaintRow(s, start, line, j)[n] == Component(Palette(line[n / 3 - start]), n % 3)
    ensures !(3 * start <= n < 3 * (start + j)) ==> PaintRow(s, start, line, j)[n] == s[n]
  {
    if j > 0 {
      PaintRowEffect(s, start, line, j - 1, n);
    }
  }

  lemma {:induction false} PaintRowsEffect(s: seq<Byte>, x: nat, y: nat, sprite: Sprite, i: nat, n: nat)
    requires |s| == SCREEN_BYTES && WellFormed(sprite) && i <= 8 && n < |s|
    requires i > 0 ==> RowStart(x, y, i - 1) + 7 < PIXELS
    ensures forall r :: 0 <= r < i && InBand(n, RowStart(x, y, r)) ==>
      PaintRows(s, x, y, sprite, i)[n] == Component(Palette(sprite[r][n / 3 - RowStart(x, y, r)]), n % 3)
    ensures (forall r :: 0 <= r < i ==> !InBand(n, RowStart(x, y, r))) ==>
      PaintRows(s, x, y, sprite, i)[n] == s[n]
  {
    if i > 0 {
      var start := RowStart(x, y, i - 1);
      PaintRowsEffect(s, x, y, sprite, i - 1, n);
      PaintRowEffect(PaintRows(s, x, y, sprite, i - 1), start, sprite[i - 1], 8, n);
      if InBand(n, start) {
        forall r | 0 <= r < i - 1
          ensures !InBand(n, RowStart(x, y, r))
        {
          RowsApart(x, y, r, i - 1);
        }
      }
    }
  }

  /** The bands of two different rows of a sprite do not overlap: a row is a whole
      screen line after the one above it. */
  lemma RowsApart(x: nat, y: nat, r: nat, q: nat)
    requires r < q
    ensures RowStart(x, y, r) + 8 <= RowStart(x, y, q)
  {
    MulAtLeast(SCREEN_WIDTH, q - r);
    assert RowStart(x, y, q) - RowStart(x, y, r) == SCREEN_WIDTH * (q - r);
  }

  /** Drawing a sprite at (x, y) sets byte k of pixel (x + j, y + i) to component k
      of the palette colour of sprite pixel (i, j), and leaves every byte outside
      the sprite's eight row bands as it was. */
  lemma PaintSpriteEffect(s: seq<Byte>, x: nat, y: nat, sprite: Sprite)
    requires |s| == SCREEN_BYTES && WellFormed(sprite) && SpriteFits(x, y)
    ensures forall i, j, k :: 0 <= i < 8 && 0 <= j < 8 && 0 <= k < 3 ==>
      PaintSprite(s, x, y, sprite)[3 * (RowStart(x, y, i) + j) + k] == Component(Palette(sprite[i][j]), k)
    ensures forall n :: 0 <= n < |s| && (forall r :: 0 <= r < 8 ==> !InBand(n, RowStart(x, y, r))) ==>
      PaintSprite(s, x, y, sprite)[n] == s[n]
  {
    forall n | 0 <= n < |s|
      ensures forall r :: 0 <= r < 8 && InBand(n, RowStart(x, y, r)) ==>
        PaintSprite(s, x, y, sprite)[n] == Component(Palette(sprite[r][n / 3 - RowStart(x, y, r)]), n % 3)
      ensures (forall r :: 0 <= r < 8 ==> !InBand(n, RowStart(x, y, r))) ==> PaintSprite(s, x, y, sprite)[n] == s[n]
    {
      PaintRowsEffect(s, x, y, sprite, 8, n);
    }
    forall i, j, k | 0 <= i < 8 && 0 <= j < 8 && 0 <= k < 3
      ensures PaintSprite(s, x, y, sprite)[3 * (RowStart(x, y, i) + j) + k] == Component(Palette(sprite[i][j]), k)
    {
      var n := 3 * (RowStart(x, y, i) + j) + k;
      assert n / 3 == RowStart(x, y, i) + j && n % 3 == k;
      assert InBand(n, RowStart(x, y, i));
    }
  }

  /** Where `draw_spritesheet` puts sprite i: 32 sprites of 8 pixels per row. */
  function SheetX(i: nat): nat { 8 * (i % 32) }
  function SheetY(i: nat): nat { 8 * (i / 32) }

  /** Sprites 0 to 900 all fit the framebuffer, and no two share a position. */
  lemma SheetFits(i: nat)
    requires i <= 900
    ensures SpriteFits(SheetX(i), SheetY(i))
    ensures SheetX(i) + 7 < SCREEN_WIDTH && SheetY(i) + 7 < 240
  {
  }

  lemma SheetPositionsDistinct(i: nat, j: nat)
    requires i != j
    ensures SheetX(i) != SheetX(j) || SheetY(i) != SheetY(j)
  {
  }

  /** The sprites of a CHR bank up to sprite m: one per 16-byte chunk. */
  function ChrSprites(chr: seq<Byte>, m: nat): (sprites: seq<Sprite>)
    requires 16 * m <= |chr|
    ensures |sprites| == m
    ensures forall k :: 0 <= k < m ==> WellFormed(sprites[k])
  {
    seq(m, k requires 0 <= k < m => ChrSprite(chr[16 * k .. 16 * k + 16]))
  }

  /** The framebuffer after the first k sprites are drawn at their sheet positions. */
  function PaintSheet(s: seq<Byte>, sprites: seq<Sprite>, k: nat): (t: seq<Byte>)
    requires |s| == SCREEN_BYTES && k <= |sprites| && k <= 901
    requires forall n :: 0 <= n < |sprites| ==> WellFormed(sprites[n])
    ensures |t| == |s|
  {
    if k == 0 then s
    else
      SheetFits(k - 1);
      PaintSprite(PaintSheet(s, sprites, k - 1), SheetX(k - 1), SheetY(k - 1), sprites[k - 1])
  }

  /** Moving from sprite i to i + 1 on the sheet: 8 pixels right, or to the
      start of the next band of 8 rows after every 32nd sprite. */
  lemma SheetNext(i: nat)
    ensures (i + 1) % 32 != 0 ==> SheetX(i + 1) == SheetX(i) + 8 && SheetY(i + 1) == SheetY(i)
    ensures (i + 1) % 32 == 0 ==> SheetX(i + 1) == 0 && SheetY(i + 1) == SheetY(i) + 8
  {
  }

  /** A pixel index of the screen names one row and one column. */
  lemma PixelRowColumn(row: nat, col: nat, row2: nat, col2: nat)
    requires col < SCREEN_WIDTH && col2 < SCREEN_WIDTH
    requires row * SCREEN_WIDTH + col == row2 * SCREEN_WIDTH + col2
    ensures row == row2 && col == col2
  {
  }

  /** Two numbers 8a + j and 8b + d with j and d below 8 are equal only when a == b
      and j == d. */
  lemma EighthsEqual(a: nat, j: nat, b: nat, d: nat)
    requires j < 8 && d < 8 && 8 * a + j == 8 * b + d
    ensures a == b && j == d
  {
  }

  /** Pixel (r, j) of sheet tile i lies in no row band of another tile i2. */
  lemma TilesApart(i: nat, i2: nat, r: nat, j: nat, r2: nat)
    requires i != i2 && i <= 900 && i2 <= 900 && r < 8 && j < 8 && r2 < 8
    ensures var start := RowStart(SheetX(i2), SheetY(i2), r2);
      !(start <= RowStart(SheetX(i), SheetY(i), r) + j < start + 8)
  {
    var start := RowStart(SheetX(i2), SheetY(i2), r2);
    var p := RowStart(SheetX(i), SheetY(i), r) + j;
    if start <= p < start + 8 {
      var d := p - start;
      SheetFits(i);
      SheetFits(i2);
      assert p == (SheetY(i) + r) * SCREEN_WIDTH + (SheetX(i) + j);
      assert p == (SheetY(i2) + r2) * SCREEN_WIDTH + (SheetX(i2) + d);
      PixelRowColumn(SheetY(i) + r, SheetX(i) + j, SheetY(i2) + r2, SheetX(i2) + d);
      EighthsEqual(i % 32, j, i2 % 32, d);
      EighthsEqual(i / 32, r, i2 / 32, r2);
      assert false;
    }
  }

  /** Painting the sprite of tile i2 at its sheet position leaves every byte of
      another tile i as it was. */
  lemma OtherTileKept(prev: seq<Byte>, sprite: Sprite, i2: nat, i: nat, r: nat, j: nat, c: nat)
    requires |prev| == SCREEN_BYTES && WellFormed(sprite) && i2 <= 900 && i <= 900 && i != i2
    requires r < 8 && j < 8 && c < 3
    ensures SpriteFits(SheetX(i2), SheetY(i2))
    ensures PaintSprite(prev, SheetX(i2), SheetY(i2), sprite)[3 * (RowStart(SheetX(i), SheetY(i), r) + j) + c]
         == prev[3 * (RowStart(SheetX(i), SheetY(i), r) + j) + c]
  {
    SheetFits(i2);
    SheetFits(i);
    var x, y := SheetX(i2), SheetY(i2);
    var n := 3 * (RowStart(SheetX(i), SheetY(i), r) + j) + c;
    forall r2 | 0 <= r2 < 8
      ensures !InBand(n, RowStart(x, y, r2))
    {
      TilesApart(i, i2, r, j, r2);
    }
    PaintSpriteEffect(prev, x, y, sprite);
  }

  /** Painting a sprite at (x, y) sets byte c of its pixel (r, j) to component c of
      that sprite pixel's palette colour. */
  lemma SpritePixelPainted(prev: seq<Byte>, x: nat, y: nat, sprite: Sprite, r: nat, j: nat, c: nat)
    requires |prev| == SCREEN_BYTES && WellFormed(sprite) && SpriteFits(x, y)
    requires r < 8 && j < 8 && c < 3
    ensures PaintSprite(prev, x, y, sprite)[3 * (RowStart(x, y, r) + j) + c] == Component(Palette(sprite[r][j]), c)
  {
    PaintSpriteEffect(prev, x, y, sprite);
  }

  /** After the first k tiles of a sheet are painted, byte c of pixel (r, j) of
      every tile i < k holds component c of the palette colour of that sprite pixel:
      a later tile never paints over an earlier one. */
  lemma {:induction false} PaintSheetEffect(s: seq<Byte>, sprites: seq<Sprite>, k: nat, i: nat, r: nat, j: nat, c: nat)
    requires |s| == SCREEN_BYTES && k <= |sprites| && k <= 901
    requires forall n :: 0 <= n < |sprites| ==> WellFormed(sprites[n])
    requires i < k && r < 8 && j < 8 && c < 3
    ensures PaintSheet(s, sprites, k)[3 * (RowStart(SheetX(i), SheetY(i), r) + j) + c]
         == Component(Palette(sprites[i][r][j]), c)
    decreases k
  {
    var prev := PaintSheet(s, sprites, k - 1);
    if i == k - 1 {
      SheetFits(i);
      SpritePixelPainted(prev, SheetX(i), SheetY(i), sprites[i], r, j, c);
    } else {
      OtherTileKept(prev, sprites[k - 1], k - 1, i, r, j, c);
      PaintSheetEffect(s, sprites, k - 1, i, r, j, c);
    }
  }

  /** The sprite list of `draw_spritesheet`: the CHR bytes cut into chunks of 16
      (the last one shorter when the length is not a multiple of 16), each made a
      sprite by `from_chr_chunk`, which panics on a short chunk. */
  method SpriteList(chr: seq<Byte>) returns (res: Result<seq<Sprite>>)
    ensures res.Ok? <==> |chr| % 16 == 0
    ensures res.Ok? ==> res.value == ChrSprites(chr, |chr| / 16)
  {
    var sprites: seq<Sprite> := [];
    var c := 0;
    while 16 * c < |chr|
      invariant 16 * c <= |chr|
      invariant sprites == ChrSprites(chr, c)
    {
      var end := if 16 * c + 16 <= |chr| then 16 * c + 16 else |chr|;
      var sprite := FromChrChunk(chr[16 * c .. end]);
      if sprite.Panic? {
        return Panic(sprite.fault);
      }
      sprites := sprites + [sprite.value];
      c := c + 1;
    }
    assert 16 * c == |chr|;
    return Ok(sprites);
  }

  function Min(a: nat, b: nat): nat
  {
    if a <= b then a else b
  }

  /** `Ppu`: the registers and the framebuffer. */
  class Ppu {
    var control: Byte
    var mask: Byte
    var status: Byte
    var oamaddress: Byte
    var oamdata: Byte
    var scroll: Word
    var address: Word
    var data: Byte
    var isScrollLow: bool
    var isAddressLow: bool
    var scanline: int
    var cycles: int
    const screen: array<Byte>

    predicate Valid()
      reads this
    {
      screen.Length == SCREEN_BYTES
    }

    function Regs(): Registers
      reads this
    {
      Registers(control, mask, status, oamaddress, oamdata, scroll, address, data,
                isScrollLow, isAddressLow, scanline, cycles)
    }

    /** `Ppu::new`: every register 0, both toggles set, the counters at (240, 0)
        and a black screen. */
    constructor ()
      ensures Valid() && Regs() == POWER_ON
      ensures forall n :: 0 <= n < screen.Length ==> screen[n] == 0
    {
      screen := new Byte[SCREEN_BYTES](_ => 0);
      control, mask, status, oamaddress, oamdata := 0, 0, 0, 0, 0;
      scroll, address, data := 0, 0, 0;
      isScrollLow, isAddressLow := true, true;
      scanline, cycles := 240, 0;
    }

    /** `read`. */
    function Read(address: nat): (v: Byte)
      reads this
      ensures v == ReadPort(Regs(), address)
    {
      match address % 8
      case 0 => control
      case 1 => mask
      case 2 => status
      case 3 => oamaddress
      case 4 => oamdata
      case 5 => Lo(scroll)
      case 6 => Lo(this.address)
      case 7 => data
    }

    /** `write`: returns the value written; the status port panics and changes nothing. */
    method Write(address: nat, value: Byte) returns (res: Result<Byte>)
      modifies this
      ensures res.Ok? <==> WritePort(old(Regs()), address, value).Ok?
      ensures res.Ok? ==> res.value == value && Regs() == WritePort(old(Regs()), address, value).value
      ensures res.Panic? ==> res.fault == StatusWrite && Regs() == old(Regs())
    {
      match address % 8 {
        case 0 => control := value;
        case 1 => mask := value;
        case 2 => return Panic(StatusWrite);
        case 3 => oamaddress := value;
        case 4 => oamdata := value;
        case 5 =>
          if isScrollLow {
            scroll := value;
          } else {
            scroll := Word16(value, Lo(scroll));
          }
          isScrollLow := !isScrollLow;
        case 6 =>
          if isAddressLow {
            this.address := value;
          } else {
            this.address := Word16(value, Lo(this.address));
          }
          isAddressLow := !isAddressLow;
        case 7 => data := value;
      }
      return Ok(value);
    }

    /** `set_vblank`. */
    method SetVblank(on: bool)
      modifies this
      ensures Regs() == old(Regs()).(status := VblankStatus(old(status), on))
    {
      if on {
        status := Or(status, 0x80);
      } else {
        status := And(status, 0x7F);
      }
    }

    /** `step`, with the NMI test on bit 7 of control and the counters advancing
        on every step (see `StepAsWritten` for the source's own test and return). */
    method Step() returns (e: StepEval)
      modifies this
      ensures (Regs(), e) == StepSpec(old(Regs()))
    {
      if cycles > SCANLINE_LIMIT {
        cycles := 0;
        scanline := scanline + 1;
      }
      if scanline == PRE_SCANLINE && cycles == 1 {
        SetVblank(false);
      }
      e := Normal;
      if scanline == VBLANK_SCANLINE && cycles == 1 {
        SetVblank(true);
        if BitOf(control, 7) {
          e := Nmi;
        }
      }
      if scanline == LAST_SCANLINE {
        scanline := PRE_SCANLINE;
      }
      cycles := cycles + 1;
    }

    /** `draw_pixel`: pixel (x, y) is y * 256 + x; its three bytes take the colour.
        An index past the framebuffer panics before anything is written. */
    method DrawPixel(x: nat, y: nat, c: Color) returns (res: Result<()>)
      requires Valid()
      modifies screen
      ensures res.Ok? <==> y * SCREEN_WIDTH + x < PIXELS
      ensures res.Ok? ==> screen[..] == Paint(old(screen[..]), y * SCREEN_WIDTH + x, c)
      ensures res.Panic? ==> screen[..] == old(screen[..])
    {
      var p := y * SCREEN_WIDTH + x;
      if 3 * p >= screen.Length {
        return Panic(IndexOutOfBounds);
      }
      screen[3 * p] := c.red;
      screen[3 * p + 1] := c.green;
      screen[3 * p + 2] := c.blue;
      return Ok(());
    }

    /** `draw_sprite`: every pixel (j, i) of the sprite goes to (x + j, y + i),
        row by row. It panics exactly when the sprite does not fit. */
    method DrawSprite(x: nat, y: nat, sprite: Sprite) returns (res: Result<()>)
      requires Valid() && WellFormed(sprite)
      modifies screen
      ensures res.Ok? <==> SpriteFits(x, y)
      ensures res.Ok? ==> screen[..] == PaintSprite(old(screen[..]), x, y, sprite)
    {
      var i := 0;
      while i < |sprite|
        invariant 0 <= i <= 8
        invariant i > 0 ==> RowStart(x, y, i - 1) + 7 < PIXELS
        invariant screen[..] == PaintRows(old(screen[..]), x, y, sprite, i)
      {
        var line := sprite[i];
        var j := 0;
        while j < |line|
          invariant 0 <= j <= 8
          invariant j > 0 ==> RowStart(x, y, i) + j - 1 < PIXELS
          invariant screen[..] == PaintRow(PaintRows(old(screen[..]), x, y, sprite, i), RowStart(x, y, i), line, j)
        {
          var drawn := DrawPixel(x + j, y + i, Palette(line[j]));
          if drawn.Panic? {
            return Panic(drawn.fault);
          }
          j := j + 1;
        }
        i := i + 1;
      }
      return Ok(());
    }

    /** `draw_spritesheet`: the sprites of the CHR bytes (see `SpriteList`), of
        which sprites 0 to 900 are drawn 32 to a row; the rest are skipped. */
    method DrawSpritesheet(chr: seq<Byte>) returns (res: Result<()>)
      requires Valid()
      modifies screen
      ensures res.Ok? <==> |chr| % 16 == 0
      ensures res.Ok? ==> screen[..] == PaintSheet(old(screen[..]), ChrSprites(chr, |chr| / 16), Min(|chr| / 16, 901))
    {
      var listed := SpriteList(chr);
      if listed.Panic? {
        return Panic(listed.fault);
      }
      var sprites := listed.value;
      var x, y := 0, 0;
      var i := 0;
      while i < |sprites|
        invariant i <= |sprites| && i <= 901
        invariant x == SheetX(i) && y == SheetY(i)
        invariant screen[..] == PaintSheet(old(screen[..]), sprites, i)
      {
        if i > 900 {
          break;
        }
        SheetFits(i);
        SheetNext(i);
        var drawn := DrawSprite(x, y, sprites[i]);
        if (i + 1) % 32 != 0 {
          x := x + 8;
        } else {
          y := y + 8;
          x := 0;
        }
        i := i + 1;
      }
      return Ok(());
    }
  }
}
