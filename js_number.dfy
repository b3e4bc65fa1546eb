/** JavaScript numbers as the validation layer meets them: conversion of a
    string to a number (what a relational comparison does to a string
    operand), conversion of a number to text (what joining an array does),
    and the ordering of numbers. Values are exact reals instead of IEEE
    doubles; `NaN` and the two infinities are kept because string conversion
    produces them. */
module JsNumber {
  import opened Wrappers
  import opened JsText

  datatype Num = NaN | PosInf | NegInf | Fin(r: real)

  /** Value of a digit character in the bases up to 16, or -1. */
  function DigitOf(c: char): int {
    if '0' <= c <= '9' then c as int - '0' as int
    else if 'a' <= c <= 'f' then c as int - 'a' as int + 10
    else if 'A' <= c <= 'F' then c as int - 'A' as int + 10
    else -1
  }

  predicate IsDigitIn(c: char, radix: nat) {
    0 <= DigitOf(c) < radix
  }

  predicate AllDigitsIn(ds: string, radix: nat) {
    forall i :: 0 <= i < |ds| ==> IsDigitIn(ds[i], radix)
  }

  /** The value of a digit string in the given radix, most significant first. */
  function DigitsValue(ds: string, radix: nat): nat
    requires AllDigitsIn(ds, radix)
    decreases |ds|
  {
    if ds == [] then 0
    else DigitsValue(ds[..|ds| - 1], radix) * radix + DigitOf(ds[|ds| - 1])
  }

  /** Length of the longest prefix of decimal digits. */
  function LeadingDigits(s: string): (n: nat)
    ensures n <= |s| && AllDigitsIn(s[..n], 10)
    ensures n < |s| ==> !IsDigitIn(s[n], 10)
  {
    if s == [] || !IsDigitIn(s[0], 10) then 0
    else
      var k := LeadingDigits(s[1..]);
      assert s[..k + 1] == [s[0]] + s[1..][..k];
      1 + k
  }

  function TrimStart(s: string): string {
    if s != [] && IsWhitespace(s[0]) then TrimStart(s[1..]) else s
  }

  function TrimEnd(s: string): string {
    if s != [] && IsWhitespace(s[|s| - 1]) then TrimEnd(s[..|s| - 1]) else s
  }

  function Trim(s: string): string {
    TrimEnd(TrimStart(s))
  }

  function Pow10(n: nat): (p: nat)
    ensures p >= 1
  {
    if n == 0 then 1 else 10 * Pow10(n - 1)
  }

  /** m * 10^e. */
  function Scale(m: real, e: int): real {
    if e >= 0 then m * Pow10(e) as real else m / Pow10(-e) as real
  }

  /** The exponent part `[eE][+-]?digits` of a decimal literal; 0 when the
      text is empty, None when it is not an exponent part. */
  function ExponentValue(s: string): Option<int> {
    if s == [] then Some(0)
    else if s[0] != 'e' && s[0] != 'E' then None
    else
      var t := s[1..];
      var negative := t != [] && t[0] == '-';
      var ds := if t != [] && (t[0] == '-' || t[0] == '+') then t[1..] else t;
      if ds != [] && AllDigitsIn(ds, 10) then
        Some(if negative then -(DigitsValue(ds, 10) as int) else DigitsValue(ds, 10))
      else None
  }

  /** StrUnsignedDecimalLiteral other than `Infinity`: integer digits, an
      optional point with fraction digits (at least one digit in all), an
      optional exponent part. */
  function UnsignedDecimalValue(s: string): Option<real> {
    var n := LeadingDigits(s);
    var rest := s[n..];
    var hasPoint := rest != [] && rest[0] == '.';
    var afterPoint := if hasPoint then rest[1..] else [];
    var f := LeadingDigits(afterPoint);
    var tail := if hasPoint then afterPoint[f..] else rest;
    if n + f == 0 then None
    else
      match ExponentValue(tail)
      case None => None
      case Some(e) =>
        var mantissa := DigitsValue(s[..n], 10) as real
                        + DigitsValue(afterPoint[..f], 10) as real / Pow10(f) as real;
        Some(Scale(mantissa, e))
  }

  function UnsignedValue(s: string): Num {
    if s == "Infinity" then PosInf
    else
      match UnsignedDecimalValue(s)
      case Some(r) => Fin(r)
      case None => NaN
  }

  function Negate(n: Num): Num {
    match n
    case NaN => NaN
    case PosInf => NegInf
    case NegInf => PosInf
    case Fin(r) => Fin(-r)
  }

  /** A NonDecimalIntegerLiteral after its `0x`, `0o` or `0b` prefix. */
  function RadixLiteral(ds: string, radix: nat): Num {
    if AllDigitsIn(ds, radix) then Fin(DigitsValue(ds, radix) as real) else NaN
  }

  /** `Number(s)`: surrounding white space is ignored, the empty string is 0,
      hexadecimal, octal and binary literals carry no sign, decimal literals
      may carry one, anything else is NaN. */
  function StringToNumber(s: string): Num {
    var t := Trim(s);
    if t == [] then Fin(0.0)
    else if |t| > 2 && t[0] == '0' && (t[1] == 'x' || t[1] == 'X') then RadixLiteral(t[2..], 16)
    else if |t| > 2 && t[0] == '0' && (t[1] == 'o' || t[1] == 'O') then RadixLiteral(t[2..], 8)
    else if |t| > 2 && t[0] == '0' && (t[1] == 'b' || t[1] == 'B') then RadixLiteral(t[2..], 2)
    else if t[0] == '-' then Negate(UnsignedValue(t[1..]))
    else if t[0] == '+' then UnsignedValue(t[1..])
    else UnsignedValue(t)
  }

  function DigitChar(d: nat): (c: char)
    requires d < 10
    ensures DigitOf(c) == d
  {
    ('0' as int + d) as char
  }

  /** Decimal digits of a natural number, without leading zeros. */
  function IntegerDigits(n: nat): (s: string)
    ensures |s| >= 1 && AllDigitsIn(s, 10)
  {
    if n < 10 then [DigitChar(n)]
    else IntegerDigits(n / 10) + [DigitChar(n % 10)]
  }

  /** How many fraction digits `NumberToString` writes at most. */
  const FractionDigitLimit: nat := 20

  /** Decimal digits of a fraction in [0, 1), stopping when the rest is 0. */
  function FractionDigits(f: real, limit: nat): string
    requires 0.0 <= f < 1.0
    decreases limit
  {
    if f == 0.0 || limit == 0 then []
    else
      var x := f * 10.0;
      var d := x.Floor;
      [DigitChar(d)] + FractionDigits(x - d as real, limit - 1)
  }

  function NonNegativeText(r: real): string
    requires r >= 0.0
  {
    var whole := r.Floor;
    var frac := r - whole as real;
    IntegerDigits(whole) + (if frac == 0.0 then "" else "." + FractionDigits(frac, FractionDigitLimit))
  }

  /** `String(n)`, rendering finite values in plain decimal notation. */
  function NumberToString(n: Num): string {
    match n
    case NaN => "NaN"
    case PosInf => "Infinity"
    case NegInf => "-Infinity"
    case Fin(r) => if r < 0.0 then "-" + NonNegativeText(-r) else NonNegativeText(r)
  }

  /** The result of `a < b` on numbers: None stands for the `undefined` that
      a NaN operand produces. */
  function NumLess(a: Num, b: Num): (r: Option<bool>)
    ensures r == None <==> a == NaN || b == NaN
    ensures a.Fin? && b.Fin? ==> r == Some(a.r < b.r)
  {
    if a.NaN? || b.NaN? then None
    else if a.NegInf? then Some(!b.NegInf?)
    else if b.PosInf? then Some(!a.PosInf?)
    else if a.PosInf? || b.NegInf? then Some(false)
    else Some(a.r < b.r)
  }

  lemma {:induction false} IntegerDigitsValue(n: nat)
    ensures DigitsValue(IntegerDigits(n), 10) == n
    ensures n > 0 ==> IntegerDigits(n)[0] != '0'
  {
    if n >= 10 {
      IntegerDigitsValue(n / 10);
      var s := IntegerDigits(n);
      assert s[..|s| - 1] == IntegerDigits(n / 10);
    }
  }

  lemma {:induction false} LeadingDigitsOfDigits(s: string)
    requires AllDigitsIn(s, 10)
    ensures LeadingDigits(s) == |s|
  {
    if s != [] {
      LeadingDigitsOfDigits(s[1..]);
    }
  }

  lemma TrimKeepsText(s: string)
    requires s != [] && !IsWhitespace(s[0]) && !IsWhitespace(s[|s| - 1])
    ensures Trim(s) == s
  {
  }

  lemma {:induction false} DigitTextValue(ds: string)
    requires ds != [] && AllDigitsIn(ds, 10)
    ensures UnsignedValue(ds) == Fin(DigitsValue(ds, 10) as real)
  {
    LeadingDigitsOfDigits(ds);
    assert ds[..|ds|] == ds;
    assert ds != "Infinity" by {
      assert IsDigitIn(ds[0], 10);
    }
  }

  lemma NonNegativeTextOfInteger(m: nat)
    ensures NonNegativeText(m as real) == IntegerDigits(m)
  {
    assert (m as real).Floor == m;
  }

  lemma PlainDigitsNumber(ds: string)
    requires ds != [] && AllDigitsIn(ds, 10)
    ensures StringToNumber(ds) == Fin(DigitsValue(ds, 10) as real)
  {
    assert IsDigitIn(ds[0], 10) && IsDigitIn(ds[|ds| - 1], 10);
    TrimKeepsText(ds);
    DigitTextValue(ds);
  }

  lemma NegativeDigitsNumber(ds: string)
    requires ds != [] && AllDigitsIn(ds, 10)
    ensures StringToNumber("-" + ds) == Fin(-(DigitsValue(ds, 10) as real))
  {
    var text := "-" + ds;
    assert IsDigitIn(ds[|ds| - 1], 10);
    assert text[|text| - 1] == ds[|ds| - 1];
    TrimKeepsText(text);
    assert text[1..] == ds;
    DigitTextValue(ds);
  }

  /** A natural number written out reads back as itself. */
  lemma NaturalTextRoundTrip(m: nat)
    ensures StringToNumber(NumberToString(Fin(m as real))) == Fin(m as real)
  {
    IntegerDigitsValue(m);
    NonNegativeTextOfInteger(m);
    PlainDigitsNumber(IntegerDigits(m));
  }

  /** Writing an integer and reading it back gives the same number: the
      conversion a one-element array such as `[5]` goes through before it is
      compared with a number. */
  lemma IntegerTextRoundTrip(i: int)
    ensures StringToNumber(NumberToString(Fin(i as real))) == Fin(i as real)
  {
    if i < 0 {
      var m: nat := -i;
      IntegerDigitsValue(m);
      NonNegativeTextOfInteger(m);
      assert NumberToString(Fin(i as real)) == "-" + IntegerDigits(m);
      NegativeDigitsNumber(IntegerDigits(m));
    } else {
      NaturalTextRoundTrip(i);
    }
  }

}
