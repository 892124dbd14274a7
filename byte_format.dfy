/**
 * `formatBytes` of the template service: a byte count below 1024 is shown as
 * `"<n> B"`; a larger count is divided by the largest power of 1024 that does
 * not exceed it and labelled with one of the letters K, M, G, T, P, E.
 */
module ByteFormat {
  import Decimal

  const Unit: int := 1024
  const MinInt64: int := -0x8000_0000_0000_0000
  const MaxInt64: int := 0x7FFF_FFFF_FFFF_FFFF

  /** Go's `int64`. */
  type Int64 = x: int | MinInt64 <= x <= MaxInt64

  /** The letters indexed by the loop's exponent. */
  const UnitLetters: string := "KMGTPE"

  /**
   * What `formatBytes` prints. `Plain` is the exact `"%d B"` text. `Scaled`
   * stands for `"%.1f %cB"` applied to `bytes / divisor` and `letter`; the
   * floating-point digits are not modelled, `quotient` is the integer part
   * of that division.
   */
  datatype FormattedSize =
    | Plain(text: string)
    | Scaled(quotient: int, divisor: int, letter: char)

  /** 1024 raised to `k`. */
  function UnitPower(k: nat): (p: int)
    ensures p >= 1
  {
    if k == 0 then 1 else Unit * UnitPower(k - 1)
  }

  /** The exponent of the largest power of 1024 not exceeding `x`. */
  function Log1024(x: nat): nat {
    if x < Unit then 0 else 1 + Log1024(x / Unit)
  }

  /** The unit letter by value band: K from 2^10, M from 2^20, ..., E from 2^60. */
  function BandLetter(bytes: int): char
    requires bytes >= Unit
  {
    if bytes < 0x10_0000 then 'K'
    else if bytes < 0x4000_0000 then 'M'
    else if bytes < 0x100_0000_0000 then 'G'
    else if bytes < 0x4_0000_0000_0000 then 'T'
    else if bytes < 0x1000_0000_0000_0000 then 'P'
    else 'E'
  }

  // ---- arithmetic helpers ----

  lemma MulMonotone(d: int, x: int, y: int)
    requires d > 0 && x <= y
    ensures d * x <= d * y
  {
    assert d * y - d * x == d * (y - x);
  }

  lemma DivAtLeast(a: int, d: int, m: int)
    requires a >= 0 && d > 0
    ensures a / d >= m <==> a >= d * m
  {
    var q, r := a / d, a % d;
    assert a == d * q + r && 0 <= r < d;
    if q >= m {
      MulMonotone(d, m, q);
    } else {
      MulMonotone(d, q + 1, m);
      assert d * (q + 1) == d * q + d;
    }
  }

  lemma DivDiv(a: int, b: int, c: int)
    requires a >= 0 && b > 0 && c > 0
    ensures a / b / c == a / (b * c)
  {
    var q := a / b / c;
    DivAtLeast(a / b, c, q);
    DivAtLeast(a / b, c, q + 1);
    DivAtLeast(a, b, c * q);
    DivAtLeast(a, b, c * (q + 1));
    assert b * (c * q) == (b * c) * q;
    assert b * (c * (q + 1)) == (b * c) * (q + 1);
    DivAtLeast(a, b * c, q);
    DivAtLeast(a, b * c, q + 1);
  }

  // ---- the reference definition ----

  lemma UnitPowerValues()
    ensures UnitPower(1) == 0x400
    ensures UnitPower(2) == 0x10_0000
    ensures UnitPower(3) == 0x4000_0000
    ensures UnitPower(4) == 0x100_0000_0000
    ensures UnitPower(5) == 0x4_0000_0000_0000
    ensures UnitPower(6) == 0x1000_0000_0000_0000
    ensures UnitPower(7) == 0x40_0000_0000_0000_0000
  {
    assert UnitPower(0) == 1;
  }

  /** 1024^Log1024(x) is a power of 1024 not above `x`, and the next one is above `x`. */
  lemma {:induction false} Log1024Bounds(x: nat)
    requires x >= 1
    ensures UnitPower(Log1024(x)) <= x < UnitPower(Log1024(x) + 1)
    decreases x
  {
    if x >= Unit {
      var y := x / Unit;
      DivAtLeast(x, Unit, 1);
      Log1024Bounds(y);
      DivAtLeast(x, Unit, UnitPower(Log1024(y)));
      DivAtLeast(x, Unit, UnitPower(Log1024(y) + 1));
    }
  }

  /** No other power of 1024 brackets `x`: the exponent is unique. */
  lemma {:induction false} Log1024Unique(x: nat, k: nat)
    requires UnitPower(k) <= x < UnitPower(k + 1)
    ensures Log1024(x) == k
    decreases k
  {
    if k > 0 {
      DivAtLeast(x, Unit, UnitPower(k - 1));
      DivAtLeast(x, Unit, UnitPower(k));
      Log1024Unique(x / Unit, k - 1);
    }
  }

  /** Every positive int64 is below 1024^7, so its exponent is at most 6. */
  lemma Int64ExponentBound(x: int)
    requires 1 <= x <= MaxInt64
    ensures Log1024(x) <= 6
  {
    Log1024Bounds(x);
    var k := Log1024(x);
    if k >= 7 {
      UnitPowerValues();
    }
  }

  /** The letter table agrees with the largest power of 1024 for every int64 of at least 1024. */
  lemma BandLetterIsLargestPower(bytes: int)
    requires Unit <= bytes <= MaxInt64
    ensures 1 <= Log1024(bytes) <= 6
    ensures BandLetter(bytes) == UnitLetters[Log1024(bytes) - 1]
  {
    UnitPowerValues();
    if bytes < 0x10_0000 {
      Log1024Unique(bytes, 1);
    } else if bytes < 0x4000_0000 {
      Log1024Unique(bytes, 2);
    } else if bytes < 0x100_0000_0000 {
      Log1024Unique(bytes, 3);
    } else if bytes < 0x4_0000_0000_0000 {
      Log1024Unique(bytes, 4);
    } else if bytes < 0x1000_0000_0000_0000 {
      Log1024Unique(bytes, 5);
    } else {
      Log1024Unique(bytes, 6);
    }
  }

  // ---- the operation ----

  /**
   * The loop keeps `div == 1024^(exp+1)` and `n == bytes / div`; it stops at
   * the largest power of 1024 not above `bytes`. `div` is an `Int64`, so
   * every `div * Unit` is checked not to overflow, and `exp` stays within
   * the six letters.
   */
  method FormatBytes(bytes: Int64) returns (r: FormattedSize)
    ensures r.Plain? <==> bytes < Unit
    ensures r.Plain? ==> r.text == Decimal.FormatInt(bytes) + " B"
    ensures r.Scaled? ==> r.divisor <= bytes < r.divisor * Unit
    ensures r.Scaled? ==> r.divisor == UnitPower(Log1024(bytes))
    ensures r.Scaled? ==> r.quotient == bytes / r.divisor && 1 <= r.quotient < Unit
    ensures r.Scaled? ==> r.letter == BandLetter(bytes)
  {
    if bytes < Unit {
      return Plain(Decimal.FormatInt(bytes) + " B");
    }
    var div: Int64, exp: nat := Unit, 0;
    var n: Int64 := bytes / Unit;
    while n >= Unit
      invariant exp <= 5
      invariant div == UnitPower(exp + 1) && div <= bytes
      invariant n == bytes / div
      decreases n
    {
      DivAtLeast(bytes, div, Unit);
      DivDiv(bytes, div, Unit);
      if exp == 5 {
        UnitPowerValues();
        assert false;
      }
      div := div * Unit;
      exp := exp + 1;
      n := n / Unit;
    }
    DivAtLeast(bytes, div, Unit);
    DivAtLeast(bytes, div, 1);
    Log1024Unique(bytes, exp + 1);
    BandLetterIsLargestPower(bytes);
    r := Scaled(n, div, UnitLetters[exp]);
  }
}
