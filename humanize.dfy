/**
 * humanizeBytes: a byte count as text, in powers of 1000 with the unit
 * symbols k, M, G, T, P and E. The `%.2f` rendering of the scaled value is a
 * parameter (`twoDecimals(b, div)` stands for the text of b / div with two
 * decimals); the choice of divisor and unit is modelled exactly.
 */
module Humanize {
  import opened Wrappers
  import opened Strings

  const MaxInt64: int := 0x7fff_ffff_ffff_ffff

  /** Go's int64. */
  type Int64 = x: int | -0x8000_0000_0000_0000 <= x <= 0x7fff_ffff_ffff_ffff

  const Unit: int := 1000
  const UnitSymbols: string := "kMGTPE"

  type Positive = x: int | x >= 1 witness 1

  /** 1000 to the power k. */
  function Pow(k: nat): Positive {
    if k == 0 then 1 else Unit * Pow(k - 1)
  }

  /** How many times `n` can be divided by 1000 before the quotient drops below 1000. */
  function Magnitude(n: nat): nat {
    if n < Unit then 0 else 1 + Magnitude(n / Unit)
  }

  /** The power of 1000 chosen for `n` brackets it. */
  lemma {:induction false} MagnitudeBrackets(n: nat)
    requires n >= 1
    ensures Pow(Magnitude(n)) <= n < Unit * Pow(Magnitude(n))
  {
    if n >= Unit {
      MagnitudeBrackets(n / Unit);
    }
  }

  /** Only one power of 1000 brackets `n`. */
  lemma {:induction false} MagnitudeUnique(n: nat, k: nat)
    requires Pow(k) <= n < Unit * Pow(k)
    ensures k == Magnitude(n)
  {
    if k == 0 {
    } else {
      assert n >= Unit;
      assert Pow(k - 1) <= n / Unit < Unit * Pow(k - 1);
      MagnitudeUnique(n / Unit, k - 1);
    }
  }

  lemma {:induction false} PowMonotonic(j: nat, k: nat)
    requires j <= k
    ensures Pow(j) <= Pow(k)
    decreases k
  {
    if j < k {
      PowMonotonic(j, k - 1);
    }
  }

  /** Every int64 of at least 1000 lies below 1000^7, so its magnitude is 1 to 6. */
  lemma Int64Magnitude(b: Int64)
    requires b >= Unit
    ensures 1 <= Magnitude(b) <= 6
  {
    MagnitudeBrackets(b);
    if Magnitude(b) > 6 {
      PowMonotonic(7, Magnitude(b));
    }
  }

  /** The index into "kMGTPE" for a count of at least 1000. */
  function Exponent(b: Int64): (e: nat)
    requires b >= Unit
    ensures e < |UnitSymbols|
  {
    Int64Magnitude(b);
    Magnitude(b) - 1
  }

  /** The divisor for a count of at least 1000. */
  function Divisor(b: Int64): (d: nat)
    requires b >= Unit
    ensures d == Pow(Exponent(b) + 1)
  {
    Pow(Magnitude(b))
  }

  /**
   * The scaled value b / Divisor(b) lies in [1, 1000), the divisor fits an
   * int64 and the unit index stays inside "kMGTPE".
   */
  lemma ScaleBounds(b: Int64)
    requires b >= Unit
    ensures Unit <= Divisor(b) <= b < Unit * Divisor(b)
    ensures 0 <= Exponent(b) <= 5
    ensures Divisor(b) <= MaxInt64
  {
    MagnitudeBrackets(b);
    Int64Magnitude(b);
    PowMonotonic(1, Magnitude(b));
  }

  /** The text humanizeBytes returns. */
  function HumanizedText(b: Int64, twoDecimals: (int, int) -> string): string {
    if b < Unit then DecimalString(b) + " B"
    else twoDecimals(b, Divisor(b)) + " " + [UnitSymbols[Exponent(b)]] + "B"
  }

  /** Below 1000 the count is shown exactly: the text is its decimal digits and " B". */
  lemma HumanizedSmallExact(b: Int64, twoDecimals: (int, int) -> string)
    requires b < Unit
    ensures var t := HumanizedText(b, twoDecimals);
      |t| >= 2 && t[|t| - 2..] == " B" && ParseDecimal(t[..|t| - 2]) == Some(b)
  {
    var t := HumanizedText(b, twoDecimals);
    DecimalRoundTrip(b);
    assert t[..|t| - 2] == DecimalString(b);
  }

  /** `n` divided k times by 1000, as the loop of humanizeBytes does. */
  function Quotient(n: nat, k: nat): nat {
    if k == 0 then n else Quotient(n, k - 1) / Unit
  }

  lemma {:induction false} QuotientShift(n: nat, k: nat)
    requires k >= 1
    ensures Quotient(n, k) == Quotient(n / Unit, k - 1)
  {
    if k > 1 {
      QuotientShift(n, k - 1);
    }
  }

  /** A quotient of at least 1 after k divisions means the count is at least 1000^k. */
  lemma {:induction false} QuotientPositive(n: nat, k: nat)
    requires Quotient(n, k) >= 1
    ensures Pow(k) <= n
  {
    if k >= 1 {
      QuotientShift(n, k);
      QuotientPositive(n / Unit, k - 1);
    }
  }

  /**
   * humanizeBytes (with the loop of main.go): counts below 1000, negative ones
   * included, are printed exactly; larger ones are divided by a power of 1000.
   * The loop's int64 arithmetic never overflows.
   */
  method HumanizeBytes(b: Int64, twoDecimals: (int, int) -> string) returns (s: string)
    ensures b < Unit ==> s == DecimalString(b) + " B"
    ensures b >= Unit ==> s == twoDecimals(b, Divisor(b)) + " " + [UnitSymbols[Exponent(b)]] + "B"
  {
    if b < Unit {
      return DecimalString(b) + " B";
    }
    var div: Int64, exp: nat := Unit, 0;
    var n: Int64 := b / Unit;
    while n >= Unit
      invariant div == Pow(exp + 1)
      invariant n == Quotient(b, exp + 1)
      invariant Magnitude(n) + exp + 1 == Magnitude(b)
    {
      QuotientPositive(b, exp + 2);
      div := div * Unit;
      exp := exp + 1;
      n := n / Unit;
    }
    Int64Magnitude(b);
    s := twoDecimals(b, div) + " " + [UnitSymbols[exp]] + "B";
  }

  /** A count bracketed by 1000^k and 1000^(k+1), k >= 1, is shown divided by 1000^k with the k-th unit symbol. */
  lemma HumanizedInRange(b: Int64, k: nat, twoDecimals: (int, int) -> string)
    requires 1 <= k <= |UnitSymbols| && Pow(k) <= b < Unit * Pow(k)
    ensures HumanizedText(b, twoDecimals) == twoDecimals(b, Pow(k)) + " " + [UnitSymbols[k - 1]] + "B"
  {
    MagnitudeUnique(b, k);
    PowMonotonic(1, k);
  }

  /** Counts below 1000 print as a plain integer: 0 and 999. */
  lemma HumanizeSmallExamples(twoDecimals: (int, int) -> string)
    ensures HumanizedText(0, twoDecimals) == "0 B"
    ensures HumanizedText(999, twoDecimals) == "999 B"
  {
    assert DecimalString(0) == "0";
    assert DecimalString(999) == "999";
  }

  /** 1000, 2048, 1500000 and 10^12 are shown in kB, kB, MB and TB. */
  lemma HumanizeScaledExamples(twoDecimals: (int, int) -> string)
    ensures HumanizedText(1000, twoDecimals) == twoDecimals(1000, 1000) + " kB"
    ensures HumanizedText(2048, twoDecimals) == twoDecimals(2048, 1000) + " kB"
    ensures HumanizedText(1_500_000, twoDecimals) == twoDecimals(1_500_000, 1_000_000) + " MB"
    ensures HumanizedText(1_000_000_000_000, twoDecimals) ==
      twoDecimals(1_000_000_000_000, 1_000_000_000_000) + " TB"
  {
    HumanizedInRange(1000, 1, twoDecimals);
    HumanizedInRange(2048, 1, twoDecimals);
    assert Pow(2) == 1_000_000;
    HumanizedInRange(1_500_000, 2, twoDecimals);
    assert Pow(4) == 1_000_000_000_000;
    HumanizedInRange(1_000_000_000_000, 4, twoDecimals);
  }
}
