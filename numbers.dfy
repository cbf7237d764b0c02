/**
  Integer widths, decimal rendering and parsing, and clamping: the pieces of
  the .NET runtime (`int`/`long` arithmetic, `ToString()`, `TryParse`,
  `Mathf.Clamp01`) that the game's scripts lean on, written out so that the
  other modules can state exactly what they compute.
 */
module Numbers {
  import opened Wrappers

  const INT32_MIN: int := -0x8000_0000
  const INT32_MAX: int := 0x7FFF_FFFF
  const INT64_MIN: int := -0x8000_0000_0000_0000
  const INT64_MAX: int := 0x7FFF_FFFF_FFFF_FFFF
  const TWO_POW_32: int := 0x1_0000_0000

  predicate IsInt32(x: int) { INT32_MIN <= x <= INT32_MAX }

  /** Two's-complement truncation to 32 bits: C#'s unchecked `int`
      arithmetic (`x++`, `x += a`) and the `(int)` cast of a `long`. */
  function Wrap32(x: int): (r: int)
    ensures IsInt32(r)
    ensures IsInt32(x) ==> r == x
    ensures (r - x) % TWO_POW_32 == 0
  {
    var a := x - INT32_MIN;
    assert a == TWO_POW_32 * (a / TWO_POW_32) + a % TWO_POW_32;
    a % TWO_POW_32 + INT32_MIN
  }

  /** Adding one to an `int` field: one more, except at the top of the range,
      where it wraps to the bottom. */
  lemma Wrap32Increment(x: int)
    requires IsInt32(x)
    ensures x < INT32_MAX ==> Wrap32(x + 1) == x + 1
    ensures x == INT32_MAX ==> Wrap32(x + 1) == INT32_MIN
  {
  }

  // ---------------------------------------------------------------------
  // Decimal digits

  predicate IsDigit(c: char) { '0' <= c <= '9' }

  predicate AllDigits(s: string) { forall i :: 0 <= i < |s| ==> IsDigit(s[i]) }

  function DigitValue(c: char): nat
    requires IsDigit(c)
  {
    c as int - '0' as int
  }

  function DigitChar(d: nat): (c: char)
    requires d < 10
    ensures IsDigit(c) && DigitValue(c) == d
  {
    ('0' as int + d) as char
  }

  /** `n.ToString()` for a non-negative integer: its decimal digits, most
      significant first, with no leading zero. */
  function NatToString(n: nat): (s: string)
    ensures |s| >= 1 && AllDigits(s)
    ensures n == 0 ==> s == "0"
    ensures n > 0 ==> s[0] != '0'
  {
    if n < 10 then [DigitChar(n)] else NatToString(n / 10) + [DigitChar(n % 10)]
  }

  /** The number a string of decimal digits denotes. */
  function DigitsValue(s: string): nat
    requires AllDigits(s)
  {
    if s == [] then 0 else DigitsValue(s[..|s| - 1]) * 10 + DigitValue(s[|s| - 1])
  }

  lemma {:induction false} DigitsValueOfNatToString(n: nat)
    ensures DigitsValue(NatToString(n)) == n
  {
    if n >= 10 {
      var s := NatToString(n);
      assert s[..|s| - 1] == NatToString(n / 10);
      DigitsValueOfNatToString(n / 10);
    }
  }

  /** `x.ToString()` for an `int` or `long` (invariant culture: a leading
      '-' for negative values). */
  function IntToString(x: int): (s: string)
    ensures |s| >= 1
    ensures forall i :: 0 <= i < |s| ==> IsDigit(s[i]) || (i == 0 && s[i] == '-')
  {
    if x < 0 then "-" + NatToString(-x) else NatToString(x)
  }

  /** The sign of a numeral: a leading '-'. */
  predicate Negative(s: string) { |s| > 0 && s[0] == '-' }

  /** The numeral without its leading sign character, if any. */
  function Unsigned(s: string): (body: string)
    ensures |body| <= |s| && (|body| < |s| ==> body == s[1..])
  {
    if |s| > 0 && (s[0] == '-' || s[0] == '+') then s[1..] else s
  }

  /** `int.TryParse` (lo, hi = int range) and `long.TryParse` (long range),
      as an optional sign followed by at least one decimal digit; a value
      outside [lo, hi] fails like an overflow does. */
  function ParseInteger(s: string, lo: int, hi: int): (r: Option<int>)
    ensures r.Some? ==> lo <= r.value <= hi
  {
    var body := Unsigned(s);
    if body == [] || !AllDigits(body) then None
    else
      var d: int := DigitsValue(body);
      var v := if Negative(s) then -d else d;
      if lo <= v <= hi then Some(v) else None
  }

  function ParseInt32(s: string): Option<int> { ParseInteger(s, INT32_MIN, INT32_MAX) }

  function ParseInt64(s: string): Option<int> { ParseInteger(s, INT64_MIN, INT64_MAX) }

  /** Rendering an integer and parsing it back gives the integer when it
      lies in the parser's range, and fails when it does not. */
  lemma ParseIntegerOfIntToString(x: int, lo: int, hi: int)
    ensures ParseInteger(IntToString(x), lo, hi) == if lo <= x <= hi then Some(x) else None
  {
    if x < 0 {
      ParseIntegerOfNegative(x, lo, hi);
    } else {
      ParseIntegerOfNat(x, lo, hi);
    }
  }

  lemma ParseIntegerOfNegative(x: int, lo: int, hi: int)
    requires x < 0
    ensures ParseInteger("-" + NatToString(-x), lo, hi) == if lo <= x <= hi then Some(x) else None
  {
    var digits := NatToString(-x);
    var s := "-" + digits;
    assert s[0] == '-' && s[1..] == digits;
    assert Unsigned(s) == digits && Negative(s);
    DigitsValueOfNatToString(-x);
  }

  lemma ParseIntegerOfNat(m: nat, lo: int, hi: int)
    ensures ParseInteger(NatToString(m), lo, hi) == if lo <= m <= hi then Some(m) else None
  {
    var s := NatToString(m);
    assert IsDigit(s[0]);
    assert Unsigned(s) == s && !Negative(s);
    DigitsValueOfNatToString(m);
  }

  // ---------------------------------------------------------------------
  // Decimal fractions (`double.TryParse` in its plain form)

  function Pow10(k: nat): (r: nat)
    ensures r >= 1
  {
    if k == 0 then 1 else 10 * Pow10(k - 1)
  }

  /** Index of the first `c` in `s`, or |s| when there is none. */
  function FirstIndexOf(s: string, c: char): (k: nat)
    ensures k <= |s|
    ensures k < |s| ==> s[k] == c
    ensures forall j :: 0 <= j < k ==> s[j] != c
  {
    if s == [] then 0
    else if s[0] == c then 0
    else 1 + FirstIndexOf(s[1..], c)
  }

  /** `double.TryParse` restricted to an optional sign, decimal digits and
      at most one decimal point, with at least one digit in all. */
  function ParseDecimal(s: string): Option<real>
  {
    match UnsignedDecimal(Unsigned(s))
    case None => None
    case Some(m) => Some(if Negative(s) then -m else m)
  }

  /** The unsigned part: digits, at most one point, one digit at least.
      Without a point it is the whole number the digits denote. */
  function UnsignedDecimal(body: string): Option<real>
  {
    var k := FirstIndexOf(body, '.');
    if k == |body| then
      if body == [] || !AllDigits(body) then None else Some(DigitsValue(body) as real)
    else
      var whole := body[..k];
      var frac := body[k + 1..];
      if |whole| + |frac| == 0 || !AllDigits(whole) || !AllDigits(frac) then None
      else Some(DigitsValue(whole) as real + DigitsValue(frac) as real / Pow10(|frac|) as real)
  }

  /** An integer's rendering reads back as that number through the
      fraction parser too. */
  lemma ParseDecimalOfIntToString(x: int)
    ensures ParseDecimal(IntToString(x)) == Some(x as real)
  {
    if x < 0 {
      ParseDecimalOfNegative(x);
    } else {
      ParseDecimalOfNat(x);
    }
  }

  lemma ParseDecimalOfNegative(x: int)
    requires x < 0
    ensures ParseDecimal("-" + NatToString(-x)) == Some(x as real)
  {
    DecimalPointAbsent(-x);
    DigitsValueOfNatToString(-x);
    ParseDecimalOfNegativeDigits(NatToString(-x));
  }

  lemma ParseDecimalOfNat(n: nat)
    ensures ParseDecimal(NatToString(n)) == Some(n as real)
  {
    DecimalPointAbsent(n);
    DigitsValueOfNatToString(n);
    ParseDecimalOfDigits(NatToString(n));
  }

  /** Digits without a point read as a whole number ... */
  lemma ParseDecimalOfDigits(digits: string)
    requires digits != [] && AllDigits(digits) && FirstIndexOf(digits, '.') == |digits|
    ensures ParseDecimal(digits) == Some(DigitsValue(digits) as real)
  {
    assert IsDigit(digits[0]);
    assert Unsigned(digits) == digits && !Negative(digits);
    UnsignedOfDigits(digits);
  }

  /** ... and so do they after a '-', negated. */
  lemma ParseDecimalOfNegativeDigits(digits: string)
    requires digits != [] && AllDigits(digits) && FirstIndexOf(digits, '.') == |digits|
    ensures ParseDecimal("-" + digits) == Some(-(DigitsValue(digits) as real))
  {
    var s := "-" + digits;
    assert s[0] == '-' && s[1..] == digits;
    assert Unsigned(s) == digits && Negative(s);
    UnsignedOfDigits(digits);
  }

  lemma UnsignedOfDigits(digits: string)
    requires digits != [] && AllDigits(digits) && FirstIndexOf(digits, '.') == |digits|
    ensures UnsignedDecimal(digits) == Some(DigitsValue(digits) as real)
  {
  }

  /** A rendered number has no decimal point. */
  lemma DecimalPointAbsent(n: nat)
    ensures FirstIndexOf(NatToString(n), '.') == |NatToString(n)|
  {
  }

  // ---------------------------------------------------------------------
  // Clamping

  /** `Mathf.Clamp01`, on exact reals. */
  function Clamp01(x: real): (r: real)
    ensures 0.0 <= r <= 1.0
    ensures 0.0 <= x <= 1.0 ==> r == x
    ensures x < 0.0 ==> r == 0.0
    ensures x > 1.0 ==> r == 1.0
  {
    if x < 0.0 then 0.0 else if x > 1.0 then 1.0 else x
  }
}
