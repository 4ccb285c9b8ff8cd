/**
 * Java's `long` formatting and parsing (`String.valueOf(long)`, `Long.parseLong`)
 * and `BigDecimal` rounding, over unbounded integers.
 */
module Numeros {
  import opened Wrappers

  const LONG_MIN: int := -0x8000_0000_0000_0000
  const LONG_MAX: int := 0x7FFF_FFFF_FFFF_FFFF

  /** The values a Java `long` can hold. */
  predicate InLongRange(n: int)
  {
    LONG_MIN <= n <= LONG_MAX
  }

  predicate IsDigit(c: char)
  {
    '0' <= c <= '9'
  }

  predicate AllDigits(s: string)
  {
    forall i :: 0 <= i < |s| ==> IsDigit(s[i])
  }

  function DigitValue(c: char): (d: nat)
    requires IsDigit(c)
    ensures d < 10
  {
    c as int - '0' as int
  }

  function DigitChar(d: nat): (c: char)
    requires d < 10
    ensures IsDigit(c) && DigitValue(c) == d
  {
    ('0' as int + d) as char
  }

  /** The value of a decimal numeral, most significant digit first. */
  function Value(s: string): nat
    requires AllDigits(s)
  {
    if s == [] then 0 else Value(s[..|s| - 1]) * 10 + DigitValue(s[|s| - 1])
  }

  /** The shortest decimal numeral of `n`: no leading zero unless `n` is 0. */
  function NatToString(n: nat): (r: string)
    ensures |r| >= 1 && AllDigits(r)
    ensures |r| > 1 ==> r[0] != '0'
  {
    if n < 10 then [DigitChar(n)] else NatToString(n / 10) + [DigitChar(n % 10)]
  }

  lemma {:induction false} ValueOfNatToString(n: nat)
    ensures Value(NatToString(n)) == n
  {
    if n >= 10 {
      ValueOfNatToString(n / 10);
      var s := NatToString(n);
      assert s[..|s| - 1] == NatToString(n / 10);
    }
  }

  /** `String.valueOf(long)`, also what string concatenation with a `Long` produces. */
  function LongToString(n: int): (r: string)
    ensures |r| >= 1
    ensures n >= 0 ==> AllDigits(r)
    ensures n < 0 ==> r[0] == '-' && AllDigits(r[1..])
  {
    if n < 0 then "-" + NatToString(-n) else NatToString(n)
  }

  /** The strings `Long.parseLong` reads: an optional sign followed by at least one digit. */
  predicate IsNumeral(s: string)
  {
    if |s| > 0 && (s[0] == '-' || s[0] == '+') then |s| > 1 && AllDigits(s[1..])
    else |s| > 0 && AllDigits(s)
  }

  /**
   * `Long.parseLong(s)` on numerals of ASCII digits, with an optional sign:
   * `None` stands for the `NumberFormatException` thrown for a numeral
   * outside the `long` range, and for every other text. `Long.parseLong`
   * reads each digit with `Character.digit`, which also accepts the other
   * Unicode decimal digits; such numerals are refused here.
   */
  function ParseLong(s: string): (r: Option<int>)
    ensures r.Some? ==> IsNumeral(s) && InLongRange(r.value)
    ensures !IsNumeral(s) ==> r == None
  {
    if !IsNumeral(s) then None
    else
      var v: int := if s[0] == '-' then -(Value(s[1..]) as int) else if s[0] == '+' then Value(s[1..]) else Value(s);
      if InLongRange(v) then Some(v) else None
  }

  /**
   * The value `Long.parseLong` gives a digit string, with or without a sign:
   * leading zeros are allowed, "+" changes nothing, and a numeral outside
   * the `long` range is refused (the `NumberFormatException`).
   */
  lemma {:induction false} ParseLongDeDigitos(d: string)
    requires |d| >= 1 && AllDigits(d)
    ensures ParseLong(d) == if Value(d) <= LONG_MAX then Some(Value(d) as int) else None
    ensures ParseLong("-" + d) == if Value(d) <= -LONG_MIN then Some(-(Value(d) as int)) else None
    ensures ParseLong("+" + d) == ParseLong(d)
  {
    assert d[0] != '-' && d[0] != '+';
    assert IsNumeral(d);
    var menos, mais := "-" + d, "+" + d;
    assert menos[0] == '-' && menos[1..] == d;
    assert IsNumeral(menos);
    assert mais[0] == '+' && mais[1..] == d;
    assert IsNumeral(mais);
  }

  /** A "+" sign and leading zeros are read as `Long.parseLong` reads them. */
  lemma ParseLongExemplos()
    ensures ParseLong("+5") == Some(5)
    ensures ParseLong("007") == Some(7)
  {
    ParseLongDeDigitos("5");
    assert "+5" == "+" + "5";
    ParseLongDeDigitos("007");
  }

  /** Parsing what `String.valueOf` printed gives the number back, for every `long`. */
  lemma {:induction false} ParseLongOfLongToString(n: int)
    requires InLongRange(n)
    ensures ParseLong(LongToString(n)) == Some(n)
  {
    if n < 0 {
      ParseNegativo(-n);
    } else {
      ParsePositivo(n);
    }
  }

  lemma ParseNegativo(m: nat)
    requires 0 < m <= -LONG_MIN
    ensures ParseLong("-" + NatToString(m)) == Some(-(m as int))
  {
    var s := "-" + NatToString(m);
    assert s[0] == '-' && s[1..] == NatToString(m);
    ValueOfNatToString(m);
  }

  lemma ParsePositivo(n: nat)
    requires n <= LONG_MAX
    ensures ParseLong(NatToString(n)) == Some(n)
  {
    var s := NatToString(n);
    assert s[0] != '-' && s[0] != '+';
    ValueOfNatToString(n);
  }

  /** Parsing "p" + digits after stripping the prefix `p` recovers the number. */
  lemma ParseSuffix(prefix: string, n: int)
    requires InLongRange(n)
    ensures (prefix + LongToString(n))[|prefix|..] == LongToString(n)
    ensures ParseLong((prefix + LongToString(n))[|prefix|..]) == Some(n)
  {
    assert (prefix + LongToString(n))[|prefix|..] == LongToString(n);
    ParseLongOfLongToString(n);
  }

  /**
   * `BigDecimal` rounding with `RoundingMode.HALF_UP` of the exact quotient
   * `num / den` to an integer: the nearest integer, and on a tie the one
   * further from zero.
   */
  function RoundHalfUp(num: int, den: int): (r: int)
    requires den > 0
    ensures num >= 0 ==> r >= 0
    ensures -den <= 2 * (num - r * den) <= den
    ensures 2 * (num - r * den) == den ==> num < 0
    ensures 2 * (num - r * den) == -den ==> num > 0
  {
    if num >= 0 then RoundHalfUpNat(num, den)
    else
      var q: int := RoundHalfUpNat(-num, den);
      ArredondamentoNegado(num, den, q);
      -q
  }

  /** Rounding |num| and negating keeps the distance to num, with the tie on the other side. */
  lemma ArredondamentoNegado(num: int, den: int, q: int)
    requires den > 0 && -den <= 2 * (-num - q * den) < den
    ensures -den < 2 * (num - (-q) * den) <= den
  {
    assert (-q) * den == -(q * den);
  }

  function RoundHalfUpNat(num: nat, den: int): (r: nat)
    requires den > 0
    ensures -den <= 2 * (num - r * den) < den
  {
    var q := (2 * num + den) / (2 * den);
    DivBounds(2 * num + den, 2 * den);
    q
  }

  lemma DivBounds(a: nat, b: int)
    requires b > 0
    ensures (a / b) * b <= a < (a / b) * b + b
  {
  }

  function Pow10(k: nat): (p: nat)
    ensures p >= 1
  {
    if k == 0 then 1 else 10 * Pow10(k - 1)
  }

  /** Java's `int` narrowing: the low 32 bits, read as two's complement. */
  function Int32(v: int): (r: int)
    ensures -0x8000_0000 <= r < 0x8000_0000
    ensures (v - r) % 0x1_0000_0000 == 0
  {
    (v + 0x8000_0000) % 0x1_0000_0000 - 0x8000_0000
  }

  /** Narrowing leaves a value that already fits an `int` as it is. */
  lemma Int32Identidade(v: int)
    requires -0x8000_0000 <= v < 0x8000_0000
    ensures Int32(v) == v
  {
  }
}
