/** The arithmetic and flag rules of the 6502 handlers (6502/mos6502/cpu.rs),
    as pure functions on bytes. Where the source computes a flag wrongly,
    the function named `...AsWritten` reproduces the source, a lemma exhibits
    the input on which it differs, and the unsuffixed function (used by the
    rest of the model) follows the MCS6500 programming manual. */
module Alu {
  import opened Bits

  /** Result of an add or subtract: the new accumulator and the carry and overflow outputs. */
  datatype Sum = Sum(result: Byte, carry: bool, overflow: bool)

  /** Value of a byte read as a two's-complement `i8`. */
  function Signed(v: Byte): int
  {
    if Bit7(v) then v - 0x100 else v
  }

  // ---------------------------------------------------------------------
  // The Zero and Negative rules

  /** `check_nf_with` as written: `(val & 0xf0) == 1`. */
  predicate NegativeAsWritten(v: Byte)
  {
    And(v, 0xF0) == 1
  }

  /** The source's Negative test never holds, so N is cleared by every handler that uses it. */
  lemma NegativeAsWrittenNeverHolds(v: Byte)
    ensures !NegativeAsWritten(v)
    ensures Bit7(0x80) && !NegativeAsWritten(0x80)
  {
    AndEvenMaskIsNotOne(v, 0xF0);
    AndEvenMaskIsNotOne(0x80, 0xF0);
  }

  /** The manual's Negative rule: bit 7 of the result. */
  predicate Negative(v: Byte)
  {
    Bit7(v)
  }

  lemma NegativeIsSign(v: Byte)
    ensures Negative(v) <==> Signed(v) < 0
  {
  }

  // ---------------------------------------------------------------------
  // ADC

  /** Signed overflow of an addition, as the source tests it:
      `(a ^ m) & 0x80 == 0 && (a ^ r) & 0x80 == 0x80`, i.e. both operands have
      the same sign and the result's sign differs. */
  predicate AddOverflow(a: Byte, m: Byte, r: Byte)
  {
    Bit7(a) == Bit7(m) && Bit7(a) != Bit7(r)
  }

  /** Binary-mode ADC (cpu.rs:143-150). */
  function AdcBinary(a: Byte, m: Byte, c: nat): (s: Sum)
    requires c <= 1
    ensures s.result == (a + m + c) % 0x100
    ensures s.carry <==> a + m + c >= 0x100
  {
    var r := a + m + c;
    Sum(Wrap8(r), r >= 0x100, AddOverflow(a, m, Wrap8(r)))
  }

  /** The overflow flag of binary ADC is exactly signed overflow of the i8 sum. */
  lemma AdcOverflowIsSignedOverflow(a: Byte, m: Byte, c: nat)
    requires c <= 1
    ensures AdcBinary(a, m, c).overflow <==> !(-0x80 <= Signed(a) + Signed(m) + c < 0x80)
  {
    var r := a + m + c;
    if r >= 0x100 {
      assert Wrap8(r) == r - 0x100;
    } else {
      assert Wrap8(r) == r;
    }
  }

  /** A byte holding two decimal digits. */
  predicate IsBcd(v: Byte)
  {
    v % 16 <= 9 && v / 16 <= 9
  }

  function BcdValue(v: Byte): nat
  {
    10 * (v / 16) + v % 16
  }

  /** Decimal-mode ADC (cpu.rs:118-141): each nibble is added, a digit above 9
      is corrected by +6 and the low digit carries into the high digit. */
  function AdcDecimal(a: Byte, m: Byte, c: nat): (s: Sum)
    requires c <= 1
  {
    var low := a % 16 + m % 16 + c;
    var hasFirstCarry := low > 9;
    var lowDigit := if hasFirstCarry then low + 6 else low;
    var high := a / 16 + m / 16 + (if hasFirstCarry then 1 else 0);
    var hasLastCarry := high > 9;
    var highDigit := if hasLastCarry then high + 6 else high;
    // (high_digit << 4) | (low_digit & 0x0f): the shifted value has a zero low nibble
    var r := highDigit * 16 + lowDigit % 16;
    Sum(Wrap8(r), hasLastCarry, AddOverflow(a, m, Wrap8(r)))
  }

  /** A byte built from two nibbles splits back into them. */
  lemma JoinNibbles(h: int, l: int)
    requires 0 <= h < 16 && 0 <= l < 16
    ensures (16 * h + l) / 16 == h && (16 * h + l) % 16 == l
  {
  }

  /** On packed-BCD operands decimal ADC is decimal addition: the result is a BCD
      byte and result + 100 * carry is the decimal sum. */
  lemma AdcDecimalIsDecimalSum(a: Byte, m: Byte, c: nat)
    requires c <= 1 && IsBcd(a) && IsBcd(m)
    ensures IsBcd(AdcDecimal(a, m, c).result)
    ensures BcdValue(AdcDecimal(a, m, c).result) + (if AdcDecimal(a, m, c).carry then 100 else 0)
         == BcdValue(a) + BcdValue(m) + c
  {
    var low := a % 16 + m % 16 + c;
    var high := a / 16 + m / 16 + (if low > 9 then 1 else 0);
    var lowDigit := if low > 9 then low - 10 else low;
    var highDigit := if high > 9 then high - 10 else high;
    assert (if low > 9 then low + 6 else low) % 16 == lowDigit;
    var raw := (if high > 9 then high + 6 else high) * 16 + lowDigit;
    assert raw == highDigit * 16 + lowDigit + (if high > 9 then 0x100 else 0);
    assert Wrap8(raw) == highDigit * 16 + lowDigit;
    JoinNibbles(highDigit, lowDigit);
  }

  lemma AdcDecimalExample()
    ensures AdcDecimal(0x09, 0x01, 0).result == 0x10 && !AdcDecimal(0x09, 0x01, 0).carry
    ensures AdcDecimal(0x99, 0x01, 0).result == 0x00 && AdcDecimal(0x99, 0x01, 0).carry
  {
  }

  lemma AdcBinaryExample()
    ensures AdcBinary(0xFF, 0x01, 0) == Sum(0x00, true, false)
  {
  }

  /** ADC's Zero and Negative outputs as written (cpu.rs:138-139, 147-148): they
      test the accumulator before the addition, and `a < 0` on an unsigned byte. */
  predicate AdcZeroAsWritten(a: Byte, s: Sum) { a == 0 }
  predicate AdcNegativeAsWritten(a: Byte, s: Sum) { a < 0 }

  /** 0xFF + 0x01 gives 0x00, yet the source leaves Zero clear; 0x7F + 0x01 gives 0x80,
      yet the source leaves Negative clear. The model uses the result. */
  lemma AdcFlagsAsWrittenDiffer()
    ensures AdcBinary(0xFF, 0x01, 0).result == 0 && !AdcZeroAsWritten(0xFF, AdcBinary(0xFF, 0x01, 0))
    ensures Negative(AdcBinary(0x7F, 0x01, 0).result) && !AdcNegativeAsWritten(0x7F, AdcBinary(0x7F, 0x01, 0))
  {
  }

  // ---------------------------------------------------------------------
  // SBC (a print-only stub in the source; manual semantics)

  /** Signed overflow of a subtraction: operands of different signs and a result
      whose sign differs from the minuend's. */
  predicate SubOverflow(a: Byte, m: Byte, r: Byte)
  {
    Bit7(a) != Bit7(m) && Bit7(a) != Bit7(r)
  }

  /** Binary SBC: A - M - (1 - C); Carry is "no borrow". */
  function SbcBinary(a: Byte, m: Byte, c: nat): (s: Sum)
    requires c <= 1
    ensures s.result == (a - m - (1 - c)) % 0x100
    ensures s.carry <==> a >= m + (1 - c)
  {
    var d := a - m - (1 - c);
    Sum(Wrap8(d), d >= 0, SubOverflow(a, m, Wrap8(d)))
  }

  /** Subtraction is addition of the one's complement, as on the chip. */
  lemma SbcIsAdcOfComplement(a: Byte, m: Byte, c: nat)
    requires c <= 1
    ensures SbcBinary(a, m, c) == AdcBinary(a, 0xFF - m, c)
  {
    var d := a - m - (1 - c);
    var r := a + (0xFF - m) + c;
    assert r == d + 0x100;
  }

  /** Decimal SBC: per-digit subtraction, a digit that borrows is corrected by -6;
      Carry is the binary no-borrow output. */
  function SbcDecimal(a: Byte, m: Byte, c: nat): (s: Sum)
    requires c <= 1
    ensures s.carry == SbcBinary(a, m, c).carry
  {
    var low := a % 16 - m % 16 - (1 - c);
    var borrow := low < 0;
    var lowDigit := if borrow then (low - 6) % 16 else low;
    var high := a / 16 - m / 16 - (if borrow then 1 else 0);
    var highDigit := if high < 0 then (high - 6) % 16 else high;
    var d := a - m - (1 - c);
    Sum(highDigit * 16 + lowDigit, d >= 0, SubOverflow(a, m, Wrap8(d)))
  }

  /** On packed-BCD operands decimal SBC is decimal subtraction modulo 100. */
  lemma SbcDecimalIsDecimalDifference(a: Byte, m: Byte, c: nat)
    requires c <= 1 && IsBcd(a) && IsBcd(m)
    ensures IsBcd(SbcDecimal(a, m, c).result)
    ensures BcdValue(SbcDecimal(a, m, c).result)
         == BcdValue(a) - BcdValue(m) - (1 - c) + (if SbcDecimal(a, m, c).carry then 0 else 100)
  {
    var low := a % 16 - m % 16 - (1 - c);
    var high := a / 16 - m / 16 - (if low < 0 then 1 else 0);
    var lowDigit := if low < 0 then low + 10 else low;
    var highDigit := if high < 0 then high + 10 else high;
    assert (if low < 0 then (low - 6) % 16 else low) == lowDigit;
    assert (if high < 0 then (high - 6) % 16 else high) == highDigit;
    assert a == 16 * (a / 16) + a % 16 && m == 16 * (m / 16) + m % 16;
    assert (a - m - (1 - c) >= 0) <==> high >= 0;
    assert SbcDecimal(a, m, c).result == highDigit * 16 + lowDigit;
    JoinNibbles(highDigit, lowDigit);
  }

  // ---------------------------------------------------------------------
  // Shifts and rotates

  /** Result and carry-out of a shift or rotate. */
  datatype Shifted = Shifted(result: Byte, carry: bool)

  /** ASL as written (cpu.rs:161-166): `o << 0` leaves the operand unchanged
      and the carry untouched. */
  function AslAsWritten(o: Byte): Byte
  {
    o
  }

  /** ASL per the manual: shift left, bit 7 goes to Carry. */
  function Asl(o: Byte): (s: Shifted)
    ensures s.result == (2 * o) % 0x100
    ensures s.carry == Bit7(o)
  {
    Shifted(Wrap8(2 * o), Bit7(o))
  }

  lemma AslAsWrittenDiffers()
    ensures AslAsWritten(0x01) == 0x01 && Asl(0x01).result == 0x02
  {
  }

  /** LSR (cpu.rs:319-326): shift right, bit 0 goes to Carry. */
  function Lsr(o: Byte): (s: Shifted)
    ensures s.result < 0x80
    ensures 2 * s.result + (if s.carry then 1 else 0) == o
  {
    Shifted(o / 2, o % 2 == 1)
  }

  /** ROL's carry-out as written (cpu.rs:361): `(op & 0xf0) == 1`, never true. */
  predicate RolCarryAsWritten(o: Byte)
  {
    And(o, 0xF0) == 1
  }

  lemma RolCarryAsWrittenNeverHolds(o: Byte)
    ensures !RolCarryAsWritten(o)
    ensures Rol(0x80, false).carry && !RolCarryAsWritten(0x80)
  {
    AndEvenMaskIsNotOne(o, 0xF0);
    AndEvenMaskIsNotOne(0x80, 0xF0);
  }

  /** ROL per the manual: shift left, the old carry enters bit 0, bit 7 goes to Carry. */
  function Rol(o: Byte, carryIn: bool): (s: Shifted)
    ensures s.result == (2 * o + (if carryIn then 1 else 0)) % 0x100
    ensures s.carry == Bit7(o)
  {
    Shifted(Wrap8(2 * o) + (if carryIn then 1 else 0), Bit7(o))
  }

  /** ROR (cpu.rs:370-379): shift right, the old carry enters bit 7, bit 0 goes to Carry. */
  function Ror(o: Byte, carryIn: bool): (s: Shifted)
    ensures s.result == o / 2 + (if carryIn then 0x80 else 0)
    ensures s.carry <==> o % 2 == 1
  {
    Shifted(o / 2 + (if carryIn then 0x80 else 0), o % 2 == 1)
  }

  /** Rotating left then right through the carry restores the operand and the carry. */
  lemma RolRorRoundTrip(o: Byte, c: bool)
    ensures var l := Rol(o, c); Ror(l.result, l.carry) == Shifted(o, c)
  {
  }

  // ---------------------------------------------------------------------
  // Compare and increment

  /** Flags of CMP/CPX/CPY (cpu.rs:472-478): Carry iff reg >= m, Zero iff reg == m,
      Negative from bit 7 of reg - m (the source never sets Negative here). */
  datatype CompareFlags = CompareFlags(carry: bool, zero: bool, negative: bool)

  function Compare(reg: Byte, m: Byte): (f: CompareFlags)
    ensures f.carry <==> reg >= m
    ensures f.zero <==> reg == m
    ensures f.negative <==> Bit7((reg - m) % 0x100)
  {
    var diff := Wrap8(reg - m);
    CompareFlags(reg >= m, diff == 0, Negative(diff))
  }

  /** INC/INX/INY: +1 modulo 256 (the source's plain u8 `+ 1`). */
  function Increment(v: Byte): (r: Byte)
    ensures r == (v + 1) % 0x100
    ensures r == 0 <==> v == 0xFF
  {
    Wrap8(v + 1)
  }

  /** DEC/DEX/DEY: -1 modulo 256 (the source's plain u8 `- 1`). */
  function Decrement(v: Byte): (r: Byte)
    ensures r == (v - 1) % 0x100
    ensures r == 0xFF <==> v == 0
  {
    Wrap8(v - 1)
  }

  lemma IncrementDecrementInverse(v: Byte)
    ensures Decrement(Increment(v)) == v && Increment(Decrement(v)) == v
  {
    if v == 0xFF {
      assert Increment(v) == 0;
    } else {
      assert Increment(v) == v + 1;
    }
    if v == 0 {
      assert Decrement(v) == 0xFF;
    } else {
      assert Decrement(v) == v - 1;
    }
  }

  // ---------------------------------------------------------------------
  // BIT

  /** Flags of BIT as written (cpu.rs:180-185): on t = a & m, Negative is
      `(t & 0x8) == 1` and Overflow `(t & 0x4) == 1`. */
  datatype BitFlags = BitFlags(zero: bool, negative: bool, overflow: bool)

  function BitTestAsWritten(a: Byte, m: Byte): BitFlags
  {
    var t := And(a, m);
    BitFlags(t == 0, And(t, 0x08) == 1, And(t, 0x04) == 1)
  }

  /** BIT per the manual: Zero from a & m, Negative and Overflow copied from bits 7 and 6 of m. */
  function BitTest(a: Byte, m: Byte): (f: BitFlags)
    ensures f.zero <==> And(a, m) == 0
    ensures f.negative <==> Bit7(m)
    ensures f.overflow <==> BitOf(m, 6)
  {
    BitFlags(And(a, m) == 0, Bit7(m), BitOf(m, 6))
  }

  /** The source's masks can never yield 1, so BIT never raises N or V. */
  lemma BitTestAsWrittenDiffers(a: Byte, m: Byte)
    ensures !BitTestAsWritten(a, m).negative && !BitTestAsWritten(a, m).overflow
    ensures BitTest(0xFF, 0xC0).negative && BitTest(0xFF, 0xC0).overflow
  {
    var t := And(a, m);
    AndEvenMaskIsNotOne(t, 0x08);
    AndEvenMaskIsNotOne(t, 0x04);
    assert BitOf(0xC0, 6) by {
      assert 0xC0 / 2 / 2 / 2 / 2 / 2 / 2 == 3;
    }
  }
}
