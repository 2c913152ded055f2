/** JavaScript's `Number(x)` conversion, which `z.coerce.number()` applies to
    a form value before checking it, and the decimal rendering of integers
    that it inverts. A JavaScript number is a `real` here; `NaN` is `None`. */
module JsNumber {
  import opened Wrappers
  import opened JsString

  /** A value as it reaches a schema: a number, a string, a boolean, `null`,
      `undefined`, or the number `NaN`. */
  datatype JsValue = Num(n: real) | NaN | Str(s: string) | Bool(b: bool) | Null | Undefined

  /** `c` is a digit in the given base (2, 8, 10 or 16). */
  predicate IsDigitIn(c: char, base: nat) {
    ('0' <= c <= '9' && (c as int - '0' as int) < base) ||
    (base == 16 && ('a' <= c <= 'f' || 'A' <= c <= 'F'))
  }

  function DigitOf(c: char, base: nat): (d: nat)
    requires IsDigitIn(c, base)
    ensures d < base
  {
    if '0' <= c <= '9' then c as int - '0' as int
    else if 'a' <= c <= 'f' then c as int - 'a' as int + 10
    else c as int - 'A' as int + 10
  }

  predicate AllDigitsIn(s: string, base: nat) {
    forall i :: 0 <= i < |s| ==> IsDigitIn(s[i], base)
  }

  /** The length of the longest prefix of `s` made of digits in `base`. */
  function SpanDigits(s: string, base: nat): (n: nat)
    ensures n <= |s| && AllDigitsIn(s[..n], base)
    ensures n < |s| ==> !IsDigitIn(s[n], base)
  {
    if s != [] && IsDigitIn(s[0], base) then
      var rest := SpanDigits(s[1..], base);
      assert s[..1 + rest] == [s[0]] + s[1..][..rest];
      1 + rest
    else 0
  }

  /** The value of a digit string, most significant digit first. */
  function DigitsValue(s: string, base: nat): nat
    requires AllDigitsIn(s, base)
  {
    if s == [] then 0 else DigitsValue(s[..|s| - 1], base) * base + DigitOf(s[|s| - 1], base)
  }

  /** The value of the digits after a decimal point: 0.d1 d2 d3 ... */
  function FractionValue(s: string): real
    requires AllDigitsIn(s, 10)
  {
    if s == [] then 0.0 else (DigitOf(s[0], 10) as real + FractionValue(s[1..])) / 10.0
  }

  function Pow10(e: nat): (r: real)
    ensures r >= 1.0
  {
    if e == 0 then 1.0 else 10.0 * Pow10(e - 1)
  }

  /** `10` raised to a possibly negative exponent. */
  function Scale(e: int): real {
    if e >= 0 then Pow10(e) else 1.0 / Pow10(-e)
  }

  /** An optional sign followed by at least one decimal digit, as the exponent
      after `e` or `E`. */
  function ParseExponent(s: string): Option<int> {
    var sign := if s != [] && (s[0] == '+' || s[0] == '-') then 1 else 0;
    var digits := s[sign..];
    if digits != [] && AllDigitsIn(digits, 10) then
      var v: int := DigitsValue(digits, 10);
      Some(if sign == 1 && s[0] == '-' then -v else v)
    else None
  }

  /** StrUnsignedDecimalLiteral: digits, an optional point with optional
      digits (at least one digit in all), and an optional exponent. */
  function ParseUnsignedDecimal(t: string): Option<real> {
    var i := SpanDigits(t, 10);
    var whole := t[..i];
    var afterWhole := t[i..];
    var hasPoint := afterWhole != [] && afterWhole[0] == '.';
    var fracStart := if hasPoint then 1 else 0;
    var j := SpanDigits(afterWhole[fracStart..], 10);
    var frac := afterWhole[fracStart..][..j];
    var rest := afterWhole[fracStart..][j..];
    if |whole| + |frac| == 0 then None
    else
      var mantissa := DigitsValue(whole, 10) as real + FractionValue(frac);
      if rest == [] then Some(mantissa)
      else if rest[0] == 'e' || rest[0] == 'E' then
        match ParseExponent(rest[1..])
        case None => None
        case Some(e) => Some(mantissa * Scale(e))
      else None
  }

  /** `0x`, `0o` or `0b` followed by at least one digit of that base. */
  function ParseRadixInteger(t: string, base: nat): Option<real>
    requires |t| >= 2
  {
    var digits := t[2..];
    if digits != [] && AllDigitsIn(digits, base) then Some(DigitsValue(digits, base) as real) else None
  }

  /** The base a `0x`, `0o` or `0b` prefix announces, or 0 without one. */
  function RadixBase(t: string): (base: nat)
    ensures base != 0 ==> |t| >= 2
  {
    if |t| < 2 || t[0] != '0' then 0
    else if t[1] == 'x' || t[1] == 'X' then 16
    else if t[1] == 'o' || t[1] == 'O' then 8
    else if t[1] == 'b' || t[1] == 'B' then 2
    else 0
  }

  /** A sign may precede a decimal literal (but not a radix one). */
  function ParseSignedDecimal(t: string): Option<real> {
    if t != [] && t[0] == '-' then
      match ParseUnsignedDecimal(t[1..])
      case None => None
      case Some(v) => Some(-v)
    else if t != [] && t[0] == '+' then ParseUnsignedDecimal(t[1..])
    else ParseUnsignedDecimal(t)
  }

  /** ECMAScript's StringToNumber, for the finite notations: surrounding white
      space is ignored, the empty string is 0, a sign may precede a decimal
      literal but not a `0x`/`0o`/`0b` one, and anything else is `NaN`. */
  function StringToNumber(s: string): (r: Option<real>)
    ensures IsBlank(s) ==> r == Some(0.0)
  {
    TrimEmptyIffBlank(s);
    NumberFromTrimmed(Trim(s))
  }

  /** StringToNumber once the surrounding white space is gone. */
  function NumberFromTrimmed(t: string): Option<real> {
    if t == [] then Some(0.0)
    else if RadixBase(t) != 0 then ParseRadixInteger(t, RadixBase(t))
    else ParseSignedDecimal(t)
  }

  /** `Number(v)`: `None` stands for `NaN`. */
  function ToNumber(v: JsValue): (r: Option<real>)
    ensures v.Num? ==> r == Some(v.n)
    ensures v.NaN? || v.Undefined? ==> r.None?
    ensures v.Null? ==> r == Some(0.0)
    ensures v.Bool? ==> r == Some(if v.b then 1.0 else 0.0)
  {
    match v
    case Num(n) => Some(n)
    case NaN => None
    case Str(s) => StringToNumber(s)
    case Bool(b) => Some(if b then 1.0 else 0.0)
    case Null => Some(0.0)
    case Undefined => None
  }

  /** An empty or all-white-space string is the number 0 (so an empty form
      field passes the "is a number" check and meets the range checks). */
  lemma BlankStringIsZero(s: string)
    requires IsBlank(s)
    ensures ToNumber(Str(s)) == Some(0.0)
  {
  }

  function DigitChar(d: nat): (c: char)
    requires d < 10
    ensures IsDigitIn(c, 10) && DigitOf(c, 10) == d
  {
    ('0' as int + d) as char
  }

  /** The decimal numeral of a natural number, without leading zeros. */
  function NatText(n: nat): (s: string)
    ensures s != [] && AllDigitsIn(s, 10)
  {
    if n < 10 then [DigitChar(n)] else NatText(n / 10) + [DigitChar(n % 10)]
  }

  /** The decimal numeral of an integer, with a leading `-` when negative
      (what `String(n)` gives for a safe integer). */
  function IntText(n: int): (s: string) {
    if n < 0 then "-" + NatText(-n) else NatText(n)
  }

  lemma {:induction false} NatTextValue(n: nat)
    ensures DigitsValue(NatText(n), 10) == n
  {
    if n >= 10 {
      var s := NatText(n);
      NatTextValue(n / 10);
      assert s[..|s| - 1] == NatText(n / 10);
    }
  }

  lemma NatTextParses(n: nat)
    ensures ParseUnsignedDecimal(NatText(n)) == Some(n as real)
  {
    var s := NatText(n);
    assert s[..|s|] == s;
    NatTextValue(n);
  }

  /** Trimming leaves alone a string that neither starts nor ends with white
      space, so `Number` reads it as it is. */
  lemma NoWhitespaceTrim(s: string)
    requires s != [] && !IsJsWhitespace(s[0]) && !IsJsWhitespace(s[|s| - 1])
    ensures Trim(s) == s
    ensures StringToNumber(s) == NumberFromTrimmed(s)
  {
    assert TrimStart(s) == s;
  }

  /** A numeral that starts with a digit or a sign and holds no radix prefix
      is read by the decimal grammar. */
  lemma NumeralReadsAsDecimal(t: string)
    requires t != [] && (IsDigitIn(t[0], 10) || t[0] == '-')
    requires |t| >= 2 ==> IsDigitIn(t[1], 10)
    ensures NumberFromTrimmed(t) == ParseSignedDecimal(t)
  {
    assert RadixBase(t) == 0;
  }

  lemma NonNegativeIntTextCoerces(n: int)
    requires n >= 0
    ensures StringToNumber(IntText(n)) == Some(n as real)
  {
    NonNegativeNumeralValue(n);
    NoWhitespaceTrim(NatText(n));
  }

  lemma NonNegativeNumeralValue(n: nat)
    ensures NumberFromTrimmed(NatText(n)) == Some(n as real)
  {
    NatTextParses(n);
    NumeralReadsAsDecimal(NatText(n));
  }

  lemma MinusDecimal(digits: string, v: real)
    requires ParseUnsignedDecimal(digits) == Some(v)
    ensures ParseSignedDecimal("-" + digits) == Some(-v)
  {
    assert ("-" + digits)[1..] == digits;
  }

  lemma NegativeNumeralValue(n: int)
    requires n < 0
    ensures NumberFromTrimmed(IntText(n)) == Some(n as real)
  {
    var digits := NatText(-n);
    NatTextParses(-n);
    MinusDecimal(digits, (-n) as real);
    NumeralReadsAsDecimal("-" + digits);
  }

  lemma NegativeIntTextCoerces(n: int)
    requires n < 0
    ensures StringToNumber(IntText(n)) == Some(n as real)
  {
    var digits := NatText(-n);
    var s := "-" + digits;
    NegativeNumeralValue(n);
    assert s[|s| - 1] == digits[|digits| - 1];
    NoWhitespaceTrim(s);
  }

  /** Coercion inverts the decimal rendering of every integer: the numeral a
      number input shows for a whole number is read back as that number. */
  lemma IntTextRoundTrip(n: int)
    ensures ToNumber(Str(IntText(n))) == Some(n as real)
  {
    if n < 0 {
      NegativeIntTextCoerces(n);
    } else {
      NonNegativeIntTextCoerces(n);
    }
  }

  lemma DecimalNumeralValue()
    ensures NumberFromTrimmed("30.5") == Some(30.5)
  {
    var t := "30.5";
    assert SpanDigits(t, 10) == 2;
    assert t[..2] == "30" && t[2..] == ".5" && ".5"[1..] == "5";
    assert SpanDigits("5", 10) == 1 && "5"[..1] == "5" && "5"[1..] == [];
    assert DigitsValue("30", 10) == 30 by { assert "30"[..1] == "3"; }
    assert FractionValue("5") == 0.5;
  }

  /** A decimal string with a fraction is read exactly. */
  lemma DecimalStringExample()
    ensures ToNumber(Str("30.5")) == Some(30.5)
  {
    DecimalNumeralValue();
    NoWhitespaceTrim("30.5");
  }

  lemma ExponentNumeralValue()
    ensures NumberFromTrimmed("1e1") == Some(10.0)
  {
    var t := "1e1";
    assert SpanDigits(t, 10) == 1;
    assert t[..1] == "1" && t[1..] == "e1" && "e1"[1..] == "1";
    assert SpanDigits("e1", 10) == 0;
    assert ParseExponent("1") == Some(1) by { assert "1"[0..] == "1"; }
  }

  /** Exponent notation is a number too. */
  lemma ExponentStringExample()
    ensures ToNumber(Str("1e1")) == Some(10.0)
  {
    ExponentNumeralValue();
    NoWhitespaceTrim("1e1");
  }

  lemma WordIsNotANumeral()
    ensures NumberFromTrimmed("abc") == None
  {
    assert SpanDigits("abc", 10) == 0;
  }

  /** Text that is not a numeral is `NaN`. */
  lemma WordStringExample()
    ensures ToNumber(Str("abc")) == None
  {
    WordIsNotANumeral();
    NoWhitespaceTrim("abc");
  }
}
