/** Fixed-width unsigned integers of the Rust source and the bit operations
    on them. Rust's `u8`/`u16` become bounded integers; wrap-around is
    written out with `%`. */
module Bits {

  const BYTE_RANGE: nat := 0x100
  const WORD_RANGE: nat := 0x1_0000

  type Byte = x: int | 0 <= x < 0x100
  type Word = x: int | 0 <= x < 0x1_0000

  function Pow2(n: nat): (r: nat)
    ensures r >= 1
  {
    if n == 0 then 1 else 2 * Pow2(n - 1)
  }

  /** Bit k of v (bit 0 is the least significant). */
  predicate BitOf(v: nat, k: nat)
  {
    if k == 0 then v % 2 == 1 else BitOf(v / 2, k - 1)
  }

  /** The low n bits of the bitwise combination of a and b under op. */
  function Combine(a: nat, b: nat, n: nat, op: (bool, bool) -> bool): (r: nat)
    ensures r < Pow2(n)
    ensures forall k: nat :: k < n ==> (BitOf(r, k) <==> op(BitOf(a, k), BitOf(b, k)))
  {
    if n == 0 then 0
    else
      var rest := Combine(a / 2, b / 2, n - 1, op);
      var low := if op(a % 2 == 1, b % 2 == 1) then 1 else 0;
      assert (2 * rest + low) / 2 == rest;
      2 * rest + low
  }

  function And(a: Byte, b: Byte): (r: Byte)
    ensures r <= a && r <= b
  {
    AndBelow(a, b, 8);
    Combine(a, b, 8, (p, q) => p && q)
  }

  function Or(a: Byte, b: Byte): Byte
  {
    Combine(a, b, 8, (p, q) => p || q)
  }

  function Xor(a: Byte, b: Byte): Byte
  {
    Combine(a, b, 8, (p, q) => p != q)
  }

  lemma {:induction false} AndBelow(a: nat, b: nat, n: nat)
    ensures Combine(a, b, n, (p, q) => p && q) <= a
    ensures Combine(a, b, n, (p, q) => p && q) <= b
  {
    if n > 0 {
      AndBelow(a / 2, b / 2, n - 1);
    }
  }

  /** Masking with an even constant clears bit 0, so the result is never 1.
      This is why every `(v & MASK) == 1` test of the source is false. */
  lemma AndEvenMaskIsNotOne(v: Byte, mask: Byte)
    requires mask % 2 == 0
    ensures And(v, mask) != 1
  {
    var r := And(v, mask);
    assert BitOf(r, 0) <==> BitOf(v, 0) && BitOf(mask, 0);
  }

  /** Numbers below 2^n with the same low n bits are equal. */
  lemma {:induction false} BitsEqual(a: nat, b: nat, n: nat)
    requires a < Pow2(n) && b < Pow2(n)
    requires forall k: nat :: k < n ==> (BitOf(a, k) <==> BitOf(b, k))
    ensures a == b
  {
    if n > 0 {
      assert BitOf(a, 0) <==> BitOf(b, 0);
      forall k: nat | k < n - 1
        ensures BitOf(a / 2, k) <==> BitOf(b / 2, k)
      {
        assert BitOf(a, k + 1) <==> BitOf(b, k + 1);
      }
      BitsEqual(a / 2, b / 2, n - 1);
    }
  }

  /** A number below 2^n has no bit set at or above n. */
  lemma {:induction false} HighBitsClear(v: nat, n: nat, k: nat)
    requires v < Pow2(n) && n <= k
    ensures !BitOf(v, k)
  {
    if k > 0 {
      HighBitsClear(v / 2, if n == 0 then 0 else n - 1, k - 1);
    }
  }

  /** 2^m has exactly bit m set. */
  lemma {:induction false} Pow2Bits(m: nat, k: nat)
    ensures BitOf(Pow2(m), k) <==> k == m
  {
    if k == 0 {
      if m > 0 {
        assert Pow2(m) % 2 == 0;
      }
    } else if m == 0 {
      HighBitsClear(1, 1, k);
    } else {
      assert Pow2(m) / 2 == Pow2(m - 1);
      Pow2Bits(m - 1, k - 1);
    }
  }

  lemma DivHalf(v: nat, p: nat)
    requires p > 0
    ensures v / (2 * p) == (v / 2) / p
  {
    var q, a, b := v / 2, (v / 2) / p, (v / 2) % p;
    assert v == (2 * p) * a + (2 * b + v % 2);
    var c := 2 * b + v % 2;
    assert 0 <= c < 2 * p;
    DivUnique(v, 2 * p, a, c);
  }

  lemma {:induction false} MulAtLeast(d: int, t: int)
    requires d > 0 && t >= 1
    ensures d * t >= d
  {
    if t > 1 {
      MulAtLeast(d, t - 1);
      assert d * t == d * (t - 1) + d;
    }
  }

  /** Euclidean division has one quotient. */
  lemma DivUnique(v: int, d: int, a: int, c: int)
    requires d > 0 && 0 <= c < d && v == d * a + c
    ensures v / d == a
  {
    var q, r := v / d, v % d;
    assert v == d * q + r && 0 <= r < d;
    assert d * (q - a) == c - r;
    if q > a {
      MulAtLeast(d, q - a);
    } else if q < a {
      MulAtLeast(d, a - q);
    }
  }

  /** A non-negative number divided by a positive one is non-negative. */
  lemma DivNonNegative(v: nat, d: int)
    requires d > 0
    ensures v / d >= 0
  {
  }

  /** `v >> j`. */
  function ShiftRight(v: nat, j: nat): (r: nat)
    ensures r == v / Pow2(j)
  {
    DivNonNegative(v, Pow2(j));
    v / Pow2(j)
  }

  /** Shifting right by j (`v >> j`) moves bit k + j to bit k. */
  lemma {:induction false} ShiftBits(v: nat, j: nat, k: nat)
    ensures BitOf(ShiftRight(v, j), k) == BitOf(v, k + j)
  {
    if j > 0 {
      DivHalf(v, Pow2(j - 1));
      ShiftBits(v / 2, j - 1, k);
    }
  }

  /** Masking with a single-bit mask 2^m tests bit m. */
  lemma AndPow2(a: Byte, mask: Byte, m: nat)
    requires m < 8 && mask == Pow2(m)
    ensures And(a, mask) != 0 <==> BitOf(a, m)
  {
    var r := And(a, mask);
    forall k: nat | k < 8
      ensures BitOf(r, k) <==> BitOf(a, k) && k == m
    {
      Pow2Bits(m, k);
    }
    if BitOf(a, m) {
      HighBitsClear(0, 0, m);
    } else {
      forall k: nat | k < 8
        ensures BitOf(r, k) <==> BitOf(0, k)
      {
        HighBitsClear(0, 0, k);
      }
      assert Pow2(8) == 0x100;
      BitsEqual(r, 0, 8);
    }
  }

  /** `128 >> i` is the mask of bit 7 - i. */
  lemma ShiftMask(i: nat)
    requires i < 8
    ensures 0x80 / Pow2(i) == Pow2(7 - i)
  {
    assert Pow2(0) == 1 && Pow2(1) == 2 && Pow2(2) == 4 && Pow2(3) == 8;
    assert Pow2(4) == 16 && Pow2(5) == 32 && Pow2(6) == 64 && Pow2(7) == 0x80;
  }

  /** The bits of the masks the source uses. */
  lemma MaskBits(k: nat)
    requires k < 8
    ensures BitOf(0xF0, k) <==> k >= 4
    ensures BitOf(0x0C, k) <==> k == 2 || k == 3
    ensures BitOf(0x7F, k) <==> k < 7
  {
    if k == 0 {
    } else if k == 1 {
    } else if k == 2 {
    } else if k == 3 {
    } else if k == 4 {
    } else if k == 5 {
    } else if k == 6 {
    } else {
      assert BitOf(0xF0, 7) && !BitOf(0x0C, 7) && !BitOf(0x7F, 7);
    }
  }

  /** The number whose bits, least significant first, are bits. */
  function Pack(bits: seq<bool>): (r: nat)
    ensures r < Pow2(|bits|)
  {
    if bits == [] then 0 else (if bits[0] then 1 else 0) + 2 * Pack(bits[1..])
  }

  lemma {:induction false} PackBit(bits: seq<bool>, k: nat)
    requires k < |bits|
    ensures BitOf(Pack(bits), k) == bits[k]
  {
    var r := Pack(bits);
    var low := if bits[0] then 1 else 0;
    assert r / 2 == Pack(bits[1..]) && r % 2 == low;
    if k > 0 {
      PackBit(bits[1..], k - 1);
    }
  }

  /** The 16-bit value whose high byte is h and low byte is l: `((h as u16) << 8) | l as u16`. */
  function Word16(l: Byte, h: Byte): Word
  {
    h * 0x100 + l
  }

  function Lo(w: Word): Byte { w % 0x100 }
  function Hi(w: Word): Byte { w / 0x100 }

  lemma WordSplitJoin(w: Word)
    ensures Word16(Lo(w), Hi(w)) == w
  {
  }

  lemma WordJoinSplit(l: Byte, h: Byte)
    ensures Lo(Word16(l, h)) == l && Hi(Word16(l, h)) == h
  {
  }

  /** Two's-complement wrapping of an integer into a byte (`wrapping_add`, `as u8`). */
  function Wrap8(v: int): Byte
  {
    v % 0x100
  }

  /** Two's-complement wrapping of an integer into 16 bits. */
  function Wrap16(v: int): Word
  {
    v % 0x1_0000
  }

  /** Bit 7 of a byte, seen as the sign of an `i8`. */
  predicate Bit7(v: Byte)
  {
    v >= 0x80
  }

  lemma Bit7IsBitOf(v: Byte)
    ensures Bit7(v) <==> BitOf(v, 7)
  {
    var v1, v2, v3 := v / 2, v / 4, v / 8;
    var v4, v5, v6, v7 := v / 16, v / 32, v / 64, v / 128;
    assert v1 / 2 == v2 && v2 / 2 == v3 && v3 / 2 == v4;
    assert v4 / 2 == v5 && v5 / 2 == v6 && v6 / 2 == v7;
    assert BitOf(v, 7) == BitOf(v1, 6) == BitOf(v2, 5) == BitOf(v3, 4) == BitOf(v4, 3);
    assert BitOf(v4, 3) == BitOf(v5, 2) == BitOf(v6, 1) == BitOf(v7, 0);
  }

  /** An `i8` offset widened to 16 bits by sign extension. */
  function SignExtend(o: Byte): (w: Word)
    ensures Wrap16(w) == Wrap16(if Bit7(o) then o - 0x100 else o)
  {
    if Bit7(o) then o + 0xFF00 else o
  }
}
