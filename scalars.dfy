/**
 * Textual forms of the scalar field types of the client configuration:
 * `u64::from_str` / `u64::to_string` and `bool::from_str` / `bool::to_string`
 * from Rust's standard library.
 */
module Scalars {
  import opened Wrappers

  const U64Max: int := 0xFFFF_FFFF_FFFF_FFFF

  /** Rust's `u64`. */
  newtype U64 = x: int | 0 <= x <= U64Max

  predicate IsDigit(c: char) { '0' <= c <= '9' }

  predicate AllDigits(s: string) {
    forall i :: 0 <= i < |s| ==> IsDigit(s[i])
  }

  /** A decimal numeral as `u64::to_string` writes it: digits only, no sign, no leading zero. */
  predicate IsNumeral(s: string) {
    |s| > 0 && AllDigits(s) && (|s| > 1 ==> s[0] != '0')
  }

  function DigitValue(c: char): (d: nat)
    requires IsDigit(c)
    ensures d < 10
  {
    c as int - '0' as int
  }

  function DigitChar(d: nat): (c: char)
    requires d < 10
    ensures IsDigit(c) && DigitValue(c) == d
  {
    (d + '0' as int) as char
  }

  /** The number a string of decimal digits denotes (most significant digit first). */
  function DigitsValue(s: string): nat
    requires AllDigits(s)
  {
    if s == [] then 0 else 10 * DigitsValue(s[..|s| - 1]) + DigitValue(s[|s| - 1])
  }

  /** `n.to_string()`: the decimal numeral of `n`. */
  function Decimal(n: nat): string
  {
    if n < 10 then [DigitChar(n)] else Decimal(n / 10) + [DigitChar(n % 10)]
  }

  /**
   * `u64::from_str`: an optional single `+`, then one or more decimal digits whose
   * value fits in 64 bits. Empty input, a lone sign, a `-`, any other character and
   * overflow are all errors.
   */
  function ParseU64(s: string): (r: Option<U64>)
    ensures var d := if |s| > 0 && s[0] == '+' then s[1..] else s;
            r.Some? <==> d != [] && AllDigits(d) && DigitsValue(d) <= U64Max
    ensures var d := if |s| > 0 && s[0] == '+' then s[1..] else s;
            r.Some? ==> DigitsValue(d) == r.value as int
  {
    var digits := if |s| > 0 && s[0] == '+' then s[1..] else s;
    if digits != [] && AllDigits(digits) && DigitsValue(digits) <= U64Max
    then Some(DigitsValue(digits) as U64)
    else None
  }

  /** `b.to_string()`. */
  function BoolText(b: bool): (s: string)
    ensures s == "true" || s == "false"
  {
    if b then "true" else "false"
  }

  /** `bool::from_str`: exactly `"true"` or `"false"`. */
  function ParseBool(s: string): (r: Option<bool>)
    ensures r.Some? <==> s == "true" || s == "false"
    ensures r.Some? ==> BoolText(r.value) == s
  {
    if s == "true" then Some(true) else if s == "false" then Some(false) else None
  }

  lemma BoolTextParses(b: bool)
    ensures ParseBool(BoolText(b)) == Some(b)
  {
  }

  /** The numeral `Decimal` writes is well formed and denotes `n`. */
  lemma {:induction false} DecimalIsNumeral(n: nat)
    ensures IsNumeral(Decimal(n)) && DigitsValue(Decimal(n)) == n
  {
    if n >= 10 {
      DecimalIsNumeral(n / 10);
      var s := Decimal(n);
      assert s[..|s| - 1] == Decimal(n / 10);
    }
  }

  lemma {:induction false} LeadingDigitPositive(s: string)
    requires |s| > 0 && AllDigits(s) && s[0] != '0'
    ensures DigitsValue(s) > 0
  {
    if |s| > 1 {
      LeadingDigitPositive(s[..|s| - 1]);
    }
  }

  /** Every well-formed numeral is the one `Decimal` writes for its value. */
  lemma {:induction false} NumeralIsDecimal(s: string)
    requires IsNumeral(s)
    ensures Decimal(DigitsValue(s)) == s
  {
    var last := s[|s| - 1];
    if |s| == 1 {
      assert DigitChar(DigitValue(last)) == last;
    } else {
      var prefix := s[..|s| - 1];
      assert prefix[0] == s[0];
      LeadingDigitPositive(prefix);
      NumeralIsDecimal(prefix);
      var n := DigitsValue(s);
      assert n / 10 == DigitsValue(prefix) && n % 10 == DigitValue(last);
      assert DigitChar(DigitValue(last)) == last;
      assert s == prefix + [last];
    }
  }

  /** Rendering a `u64` and parsing it back gives the same number. */
  lemma DecimalParses(n: U64)
    ensures ParseU64(Decimal(n as nat)) == Some(n)
  {
    DecimalIsNumeral(n as nat);
  }

  /**
   * Whatever text `u64::from_str` accepts, its rendering parses to the same value,
   * and a text already written as a plain numeral renders back to itself.
   */
  lemma ParsedRendersBack(s: string)
    requires ParseU64(s).Some?
    ensures ParseU64(Decimal(ParseU64(s).value as nat)) == ParseU64(s)
    ensures IsNumeral(s) ==> Decimal(ParseU64(s).value as nat) == s
  {
    DecimalParses(ParseU64(s).value);
    if IsNumeral(s) {
      NumeralIsDecimal(s);
    }
  }
}
