/** The JSON values a request body can carry, as Python sees them after
    `request.get_json()`, with Python's truthiness and `float()`. */
module Json {
  import opened Outcomes
  import opened Text

  /** A Python `float`: a finite number (modelled exactly) or one of the
      IEEE special values. */
  datatype PyFloat = Finite(value: real) | PosInf | NegInf | NaN

  /** A decoded JSON value. Lists and objects are kept only by their size:
      nothing modelled here looks inside them. */
  datatype Json =
    | JNull
    | JBool(b: bool)
    | JInt(i: int)
    | JFloat(f: PyFloat)
    | JString(s: string)
    | JList(size: nat)
    | JDict(size: nat)

  /** A decoded JSON object (a Python `dict`). */
  type Object = map<string, Json>

  /** `bool(j)`: `None`, `False`, zero, the empty string and empty
      containers are false; NaN and the infinities are true. */
  predicate Truthy(j: Json) {
    match j
    case JNull => false
    case JBool(b) => b
    case JInt(i) => i != 0
    case JFloat(f) => f != Finite(0.0)
    case JString(s) => s != ""
    case JList(n) => n > 0
    case JDict(n) => n > 0
  }

  function Negate(f: PyFloat): PyFloat {
    match f
    case Finite(r) => Finite(-r)
    case PosInf => NegInf
    case NegInf => PosInf
    case NaN => NaN
  }

  /** `x * 10 ** e` as an exact real, for any integer exponent. */
  function Scaled(x: real, e: int): (r: real)
    ensures x >= 0.0 ==> r >= 0.0
    ensures r == 0.0 <==> x == 0.0
  {
    if e >= 0 then x * Pow10(e) as real else x / Pow10(-e) as real
  }

  /** The value of `digits` read with a decimal point before the last `fracLen` digits. */
  function DecimalValue(digits: string, fracLen: nat): (r: real)
    requires AllDigits(digits)
    ensures r >= 0.0
    ensures r == 0.0 <==> DigitsValue(digits) == 0
  {
    DigitsValue(digits) as real / Pow10(fracLen) as real
  }

  /** An exponent suffix after `e`/`E`: an optional sign and at least one digit. */
  function ParseExponent(s: string): Option<int> {
    if |s| > 0 && (s[0] == '+' || s[0] == '-') then
      match ExponentDigits(s[1..])
      case Some(n) => Some(if s[0] == '-' then -n else n)
      case None => None
    else ExponentDigits(s)
  }

  function ExponentDigits(digits: string): Option<int> {
    if |digits| > 0 && AllDigits(digits) then Some(DigitsValue(digits)) else None
  }

  /** An unsigned decimal numeral: digits with at most one point and at
      least one digit, optionally followed by an exponent. */
  function ParseDecimal(t: string): Option<PyFloat> {
    var e := FirstIndexIn(t, {'e', 'E'});
    ParseMantissa(t[..e], if e < |t| then ParseExponent(t[e + 1..]) else Some(0))
  }

  /** The part before the exponent, scaled by the parsed exponent. */
  function ParseMantissa(mantissa: string, exponent: Option<int>): Option<PyFloat> {
    var dot := FirstIndexIn(mantissa, {'.'});
    ParseParts(mantissa[..dot], if dot < |mantissa| then mantissa[dot + 1..] else "", exponent)
  }

  /** The digits before and after the point, and the exponent: at least
      one digit in all, and nothing but digits. */
  function ParseParts(intPart: string, fracPart: string, exponent: Option<int>): Option<PyFloat> {
    if exponent.Some? && AllDigits(intPart) && AllDigits(fracPart) && |intPart| + |fracPart| > 0 then
      assert AllDigits(intPart + fracPart);
      Some(Finite(Scaled(DecimalValue(intPart + fracPart, |fracPart|), exponent.value)))
    else None
  }

  /** A numeral without its sign: `inf`, `infinity` and `nan` in any case,
      or a decimal numeral. */
  function ParseUnsigned(t: string): Option<PyFloat> {
    var l := Lower(t);
    if l == "inf" || l == "infinity" then Some(PosInf)
    else if l == "nan" then Some(NaN)
    else ParseDecimal(t)
  }

  /** The digit zero of the Unicode block of decimal digits (general
      category Nd, Unicode 15.0) that holds code point `n`, if any. Every
      such block runs from its zero to its nine; the table is split in
      four by code point. */
  function DigitZero(n: int): (z: Option<int>)
    ensures z.Some? ==> z.value <= n < z.value + 10
  {
    if n < 0x1040 then ZeroLow(n)
    else if n < 0xAA50 then ZeroMiddle(n)
    else if n < 0x11C50 then ZeroHigh(n)
    else ZeroSupplementary(n)
  }

  /** The four parts of the table, in code point order. */
  function ZeroLow(n: int): (z: Option<int>)
    ensures z.Some? ==> z.value <= n < z.value + 10
  {
    if 0x0030 <= n < 0x003A then Some(0x0030)
    else if 0x0660 <= n < 0x066A then Some(0x0660)
    else if 0x06F0 <= n < 0x06FA then Some(0x06F0)
    else if 0x07C0 <= n < 0x07CA then Some(0x07C0)
    else if 0x0966 <= n < 0x0970 then Some(0x0966)
    else if 0x09E6 <= n < 0x09F0 then Some(0x09E6)
    else if 0x0A66 <= n < 0x0A70 then Some(0x0A66)
    else if 0x0AE6 <= n < 0x0AF0 then Some(0x0AE6)
    else if 0x0B66 <= n < 0x0B70 then Some(0x0B66)
    else if 0x0BE6 <= n < 0x0BF0 then Some(0x0BE6)
    else if 0x0C66 <= n < 0x0C70 then Some(0x0C66)
    else if 0x0CE6 <= n < 0x0CF0 then Some(0x0CE6)
    else if 0x0D66 <= n < 0x0D70 then Some(0x0D66)
    else if 0x0DE6 <= n < 0x0DF0 then Some(0x0DE6)
    else if 0x0E50 <= n < 0x0E5A then Some(0x0E50)
    else if 0x0ED0 <= n < 0x0EDA then Some(0x0ED0)
    else if 0x0F20 <= n < 0x0F2A then Some(0x0F20)
    else None
  }

  function ZeroMiddle(n: int): (z: Option<int>)
    ensures z.Some? ==> z.value <= n < z.value + 10
  {
    if 0x1040 <= n < 0x104A then Some(0x1040)
    else if 0x1090 <= n < 0x109A then Some(0x1090)
    else if 0x17E0 <= n < 0x17EA then Some(0x17E0)
    else if 0x1810 <= n < 0x181A then Some(0x1810)
    else if 0x1946 <= n < 0x1950 then Some(0x1946)
    else if 0x19D0 <= n < 0x19DA then Some(0x19D0)
    else if 0x1A80 <= n < 0x1A8A then Some(0x1A80)
    else if 0x1A90 <= n < 0x1A9A then Some(0x1A90)
    else if 0x1B50 <= n < 0x1B5A then Some(0x1B50)
    else if 0x1BB0 <= n < 0x1BBA then Some(0x1BB0)
    else if 0x1C40 <= n < 0x1C4A then Some(0x1C40)
    else if 0x1C50 <= n < 0x1C5A then Some(0x1C50)
    else if 0xA620 <= n < 0xA62A then Some(0xA620)
    else if 0xA8D0 <= n < 0xA8DA then Some(0xA8D0)
    else if 0xA900 <= n < 0xA90A then Some(0xA900)
    else if 0xA9D0 <= n < 0xA9DA then Some(0xA9D0)
    else if 0xA9F0 <= n < 0xA9FA then Some(0xA9F0)
    else None
  }

  function ZeroHigh(n: int): (z: Option<int>)
    ensures z.Some? ==> z.value <= n < z.value + 10
  {
    if 0xAA50 <= n < 0xAA5A then Some(0xAA50)
    else if 0xABF0 <= n < 0xABFA then Some(0xABF0)
    else if 0xFF10 <= n < 0xFF1A then Some(0xFF10)
    else if 0x104A0 <= n < 0x104AA then Some(0x104A0)
    else if 0x10D30 <= n < 0x10D3A then Some(0x10D30)
    else if 0x11066 <= n < 0x11070 then Some(0x11066)
    else if 0x110F0 <= n < 0x110FA then Some(0x110F0)
    else if 0x11136 <= n < 0x11140 then Some(0x11136)
    else if 0x111D0 <= n < 0x111DA then Some(0x111D0)
    else if 0x112F0 <= n < 0x112FA then Some(0x112F0)
    else if 0x11450 <= n < 0x1145A then Some(0x11450)
    else if 0x114D0 <= n < 0x114DA then Some(0x114D0)
    else if 0x11650 <= n < 0x1165A then Some(0x11650)
    else if 0x116C0 <= n < 0x116CA then Some(0x116C0)
    else if 0x11730 <= n < 0x1173A then Some(0x11730)
    else if 0x118E0 <= n < 0x118EA then Some(0x118E0)
    else if 0x11950 <= n < 0x1195A then Some(0x11950)
    else None
  }

  function ZeroSupplementary(n: int): (z: Option<int>)
    ensures z.Some? ==> z.value <= n < z.value + 10
  {
    if 0x11C50 <= n < 0x11C5A then Some(0x11C50)
    else if 0x11D50 <= n < 0x11D5A then Some(0x11D50)
    else if 0x11DA0 <= n < 0x11DAA then Some(0x11DA0)
    else if 0x11F50 <= n < 0x11F5A then Some(0x11F50)
    else if 0x16A60 <= n < 0x16A6A then Some(0x16A60)
    else if 0x16AC0 <= n < 0x16ACA then Some(0x16AC0)
    else if 0x16B50 <= n < 0x16B5A then Some(0x16B50)
    else if 0x1D7CE <= n < 0x1D7D8 then Some(0x1D7CE)
    else if 0x1D7D8 <= n < 0x1D7E2 then Some(0x1D7D8)
    else if 0x1D7E2 <= n < 0x1D7EC then Some(0x1D7E2)
    else if 0x1D7EC <= n < 0x1D7F6 then Some(0x1D7EC)
    else if 0x1D7F6 <= n < 0x1D800 then Some(0x1D7F6)
    else if 0x1E140 <= n < 0x1E14A then Some(0x1E140)
    else if 0x1E2F0 <= n < 0x1E2FA then Some(0x1E2F0)
    else if 0x1E4F0 <= n < 0x1E4FA then Some(0x1E4F0)
    else if 0x1E950 <= n < 0x1E95A then Some(0x1E950)
    else if 0x1FBF0 <= n < 0x1FBFA then Some(0x1FBF0)
    else None
  }

  /** A Unicode decimal digit as the ASCII digit of the same value; any
      other character is kept. */
  function DigitToAscii(c: char): (a: char)
    ensures IsDigit(a) <==> DigitZero(c as int).Some?
  {
    match DigitZero(c as int)
    case Some(z) => ('0' as int + (c as int - z)) as char
    case None => c
  }

  /** The whitespace `float()` trims once the text is ASCII: space and
      tab to carriage return, but not the information separators that
      `str.strip()` also removes. */
  predicate IsAsciiSpace(c: char) {
    c == ' ' || ('\t' <= c <= '\r')
  }

  /** Before reading a numeral, Python turns every non-ASCII whitespace
      character into a space and every Unicode decimal digit into the
      ASCII digit of the same value; every other character is kept. */
  function CharToAscii(c: char): (a: char)
    ensures IsDigit(a) <==> DigitZero(c as int).Some?
    ensures IsAsciiSpace(a) <==> IsAsciiSpace(c) || (c as int >= 0x80 && IsSpace(c))
  {
    if c as int >= 0x80 && IsSpace(c) then
      assert DigitZero(c as int).None?;
      ' '
    else DigitToAscii(c)
  }

  function ToAscii(s: string): (t: string)
    ensures |t| == |s| && forall i :: 0 <= i < |s| ==> t[i] == CharToAscii(s[i])
  {
    seq(|s|, i requires 0 <= i < |s| => CharToAscii(s[i]))
  }

  /** ASCII text is left as it is. */
  lemma AsciiKept(s: string)
    requires forall i :: 0 <= i < |s| ==> s[i] as int < 0x80
    ensures ToAscii(s) == s
  {
    forall i | 0 <= i < |s|
      ensures CharToAscii(s[i]) == s[i]
    {
      var n := s[i] as int;
      if 0x30 <= n < 0x3A {
        assert DigitZero(n) == Some(0x30);
      } else {
        assert DigitZero(n) == None;
      }
    }
  }

  /** `float(s)` on a string: `None` where Python raises `ValueError`. The
      text is made ASCII before the numeral is read. */
  function ParseFloat(s: string): Option<PyFloat> {
    ParseNumeral(ToAscii(s))
  }

  /** The middle of `s` between leading and trailing ASCII whitespace. */
  function StripAscii(s: string): (r: string)
    ensures |r| <= |s|
    ensures r == [] || (!IsAsciiSpace(r[0]) && !IsAsciiSpace(r[|r| - 1]))
    decreases |s|
  {
    if |s| > 0 && IsAsciiSpace(s[0]) then StripAscii(s[1..])
    else if |s| > 0 && IsAsciiSpace(s[|s| - 1]) then StripAscii(s[..|s| - 1])
    else s
  }

  /** The numeral once the text is ASCII: surrounding ASCII whitespace is
      dropped and one sign may lead. */
  function ParseNumeral(s: string): Option<PyFloat> {
    ParseSigned(StripAscii(s))
  }

  /** A numeral with no surrounding whitespace: one sign may lead. */
  function ParseSigned(t: string): Option<PyFloat> {
    if |t| > 0 && (t[0] == '+' || t[0] == '-') then
      match ParseUnsigned(t[1..])
      case Some(f) => Some(if t[0] == '-' then Negate(f) else f)
      case None => None
    else ParseUnsigned(t)
  }

  /** A digit string has no exponent marker and no decimal point. */
  lemma DigitsHaveNoMarkers(s: string)
    requires AllDigits(s)
    ensures FirstIndexIn(s, {'e', 'E'}) == |s|
    ensures FirstIndexIn(s, {'.'}) == |s|
  {
  }

  lemma DecimalOfDigitString(s: string)
    requires |s| > 0 && AllDigits(s)
    ensures ParseDecimal(s) == Some(Finite(DigitsValue(s) as real))
  {
    DigitsHaveNoMarkers(s);
    assert s[..|s|] == s;
    assert ParseDecimal(s) == ParseMantissa(s, Some(0));
    assert ParseMantissa(s, Some(0)) == ParseParts(s, "", Some(0));
    WholeParts(s);
  }

  /** Digits with no point and no exponent: the parts parse to the digits' value. */
  lemma WholeParts(s: string)
    requires |s| > 0 && AllDigits(s)
    ensures ParseParts(s, "", Some(0)) == Some(Finite(DigitsValue(s) as real))
  {
    var none: string := [];
    assert s + none == s;
    WholeDecimal(s);
    assert ParseParts(s, none, Some(0)) == Some(Finite(Scaled(DecimalValue(s, 0), 0)));
  }

  /** Without fractional digits and exponent, a numeral is its integer value. */
  lemma WholeDecimal(s: string)
    requires AllDigits(s)
    ensures Scaled(DecimalValue(s, 0), 0) == DigitsValue(s) as real
  {
    assert Pow10(0) == 1;
  }

  /** A string of ASCII decimal digits converts to the number it spells. */
  lemma ParseDigitString(s: string)
    requires |s| > 0 && AllDigits(s)
    ensures ParseFloat(s) == Some(Finite(DigitsValue(s) as real))
  {
    AsciiKept(s);
    NumeralOfDigitString(s);
  }

  /** Decimal digits of any script convert to the number that the ASCII
      digits of the same values spell. */
  lemma ParseDecimalDigits(s: string)
    requires |s| > 0 && forall i :: 0 <= i < |s| ==> DigitZero(s[i] as int).Some?
    ensures AllDigits(ToAscii(s))
    ensures ParseFloat(s) == Some(Finite(DigitsValue(ToAscii(s)) as real))
  {
    NumeralOfDigitString(ToAscii(s));
  }

  /** Full-width digits, as an input method may type them, read as `100`. */
  lemma FullWidthDigitsParse()
    ensures ParseFloat(FullWidthHundred) == Some(Finite(100.0))
  {
    FullWidthIsDecimal();
    ParseDecimalDigits(FullWidthHundred);
    FullWidthToAscii();
    HundredValue();
  }

  const FullWidthHundred: string := "\U{FF11}\U{FF10}\U{FF10}"

  /** The full-width digits form the block whose zero is U+FF10. */
  lemma FullWidthBlock()
    ensures DigitZero(0xFF10) == Some(0xFF10) && DigitZero(0xFF11) == Some(0xFF10)
  {
  }

  lemma FullWidthIsDecimal()
    ensures |FullWidthHundred| > 0
    ensures forall i :: 0 <= i < |FullWidthHundred| ==> DigitZero(FullWidthHundred[i] as int).Some?
  {
    FullWidthBlock();
  }

  lemma FullWidthToAscii()
    ensures ToAscii(FullWidthHundred) == "100"
  {
    FullWidthBlock();
    var t := ToAscii(FullWidthHundred);
    assert t[0] == '1' && t[1] == '0' && t[2] == '0';
  }

  lemma HundredValue()
    ensures AllDigits("100") && DigitsValue("100") == 100
  {
    assert "100"[..2] == "10" && "10"[..1] == "1";
  }

  lemma NumeralOfDigitString(s: string)
    requires |s| > 0 && AllDigits(s)
    ensures ParseNumeral(s) == Some(Finite(DigitsValue(s) as real))
  {
    assert IsDigit(s[0]) && IsDigit(s[|s| - 1]);
    assert StripAscii(s) == s;
    assert !(s[0] == '+' || s[0] == '-');
    assert ParseNumeral(s) == ParseUnsigned(s);
    var l := Lower(s);
    assert l[0] == s[0];
    assert l != "inf" && l != "infinity" && l != "nan";
    assert ParseUnsigned(s) == ParseDecimal(s);
    DecimalOfDigitString(s);
  }

  predicate AllAsciiSpace(s: string) {
    forall i :: 0 <= i < |s| ==> IsAsciiSpace(s[i])
  }

  /** A numeral's mantissa: digits `a` and `b` around a decimal point, or
      the digits `a` alone. */
  function Mantissa(a: string, b: string, point: bool): (m: string)
    requires AllDigits(a) && AllDigits(b) && (point || b == [])
    ensures |m| > 0 ==> (IsDigit(m[0]) || m[0] == '.') && (IsDigit(m[|m| - 1]) || m[|m| - 1] == '.')
    ensures forall i :: 0 <= i < |m| ==> IsDigit(m[i]) || m[i] == '.'
  {
    if point then a + "." + b else a
  }

  /** A mantissa reads as its digits with the point before the last `|b|`
      of them, scaled by the exponent. */
  lemma MantissaValue(a: string, b: string, point: bool, exponent: Option<int>)
    requires AllDigits(a) && AllDigits(b) && (point || b == []) && |a| + |b| > 0
    ensures ParseMantissa(Mantissa(a, b, point), exponent)
         == if exponent.Some? then Some(Finite(Scaled(DecimalValue(a + b, |b|), exponent.value))) else None
  {
    var m := Mantissa(a, b, point);
    if point {
      FirstIndexAt(m, {'.'}, |a|);
      assert m[..|a|] == a && m[|a| + 1..] == b;
    } else {
      FirstIndexAt(m, {'.'}, |m|);
      assert m[..|m|] == m && a + b == a;
    }
  }

  /** `FirstIndexIn` is determined by its contract. */
  lemma FirstIndexAt(s: string, cs: set<char>, k: nat)
    requires k <= |s| && (forall i :: 0 <= i < k ==> s[i] !in cs) && (k < |s| ==> s[k] in cs)
    ensures FirstIndexIn(s, cs) == k
  {
  }

  /** An exponent: an optional sign and at least one digit. */
  lemma ExponentShape(x: string)
    requires ParseExponent(x).Some?
    ensures |x| > 0 && IsDigit(x[|x| - 1])
    ensures forall i :: 0 <= i < |x| ==> IsDigit(x[i]) || x[i] == '+' || x[i] == '-'
  {
    if x[0] == '+' || x[0] == '-' {
      assert forall i :: 1 <= i < |x| ==> x[1..][i - 1] == x[i];
    }
  }

  /** The signed exponents `float()` reads after `e`. */
  lemma ExponentValue(x: string)
    requires |x| > 0 && AllDigits(x)
    ensures ParseExponent(x) == Some(DigitsValue(x))
    ensures ParseExponent("+" + x) == Some(DigitsValue(x))
    ensures ParseExponent("-" + x) == Some(-(DigitsValue(x) as int))
  {
    assert x[0..] == x;
    PlusExponent(x);
    MinusExponent(x);
  }

  lemma PlusExponent(x: string)
    requires |x| > 0 && AllDigits(x)
    ensures ParseExponent("+" + x) == Some(DigitsValue(x))
  {
    var s := "+" + x;
    assert s[0] == '+' && s[1..] == x;
    assert ExponentDigits(s[1..]) == Some(DigitsValue(x));
  }

  lemma MinusExponent(x: string)
    requires |x| > 0 && AllDigits(x)
    ensures ParseExponent("-" + x) == Some(-(DigitsValue(x) as int))
  {
    var s := "-" + x;
    var n: int := DigitsValue(x);
    assert s[0] == '-' && s[1..] == x;
    assert ExponentDigits(s[1..]) == Some(n);
    assert ParseExponent(s) == Some(-n);
  }

  /** A string holding a digit or a point is not `inf`, `infinity` or `nan`. */
  lemma NotSpecialWord(t: string, i: nat)
    requires i < |t| && (IsDigit(t[i]) || t[i] == '.')
    ensures ParseUnsigned(t) == ParseDecimal(t)
  {
    var l := Lower(t);
    assert l[i] == t[i];
    if |l| == 3 {
      assert l != "inf" by { assert "inf"[i] != t[i]; }
      assert l != "nan" by { assert "nan"[i] != t[i]; }
    } else if |l| == 8 {
      assert l != "infinity" by { assert "infinity"[i] != t[i]; }
    }
  }

  /** ASCII text that starts with a digit or a point and ends without
      whitespace is read as a decimal numeral. */
  lemma DecimalText(t: string)
    requires |t| > 0 && (IsDigit(t[0]) || t[0] == '.') && !IsAsciiSpace(t[|t| - 1])
    requires forall i :: 0 <= i < |t| ==> t[i] as int < 0x80
    ensures ParseFloat(t) == ParseDecimal(t)
  {
    AsciiKept(t);
    assert StripAscii(t) == t;
    assert ParseSigned(t) == ParseUnsigned(t);
    NotSpecialWord(t, 0);
  }

  /** Without `e` or `E` the exponent is zero. */
  lemma NoExponent(m: string)
    requires forall i :: 0 <= i < |m| ==> m[i] != 'e' && m[i] != 'E'
    ensures ParseDecimal(m) == ParseMantissa(m, Some(0))
  {
    FirstIndexAt(m, {'e', 'E'}, |m|);
    assert m[..|m|] == m;
  }

  /** The first `e` splits the mantissa from the exponent. */
  lemma WithExponent(m: string, x: string)
    requires forall i :: 0 <= i < |m| ==> m[i] != 'e' && m[i] != 'E'
    ensures ParseDecimal(m + "e" + x) == ParseMantissa(m, ParseExponent(x))
  {
    var t := m + "e" + x;
    FirstIndexAt(t, {'e', 'E'}, |m|);
    assert t[..|m|] == m && t[|m| + 1..] == x;
  }

  /** `float("12.50")`, `float("5")`: a numeral without exponent is its
      digits read with the point in place. */
  lemma PlainNumeralValue(a: string, b: string, point: bool)
    requires AllDigits(a) && AllDigits(b) && (point || b == []) && |a| + |b| > 0
    ensures ParseFloat(Mantissa(a, b, point)) == Some(Finite(DecimalValue(a + b, |b|)))
  {
    PlainText(Mantissa(a, b, point));
    MantissaValue(a, b, point, Some(0));
    ScaledByZero(DecimalValue(a + b, |b|));
  }

  lemma PlainText(m: string)
    requires |m| > 0 && forall i :: 0 <= i < |m| ==> IsDigit(m[i]) || m[i] == '.'
    ensures ParseFloat(m) == ParseMantissa(m, Some(0))
  {
    DecimalText(m);
    NoExponent(m);
  }

  lemma ScaledByZero(x: real)
    ensures Scaled(x, 0) == x
  {
    assert Pow10(0) == 1;
  }

  /** `float("1.5e3")`, `float("2e-2")`: the mantissa scaled by ten to the
      power of the exponent. */
  lemma ExponentNumeralValue(a: string, b: string, point: bool, x: string)
    requires AllDigits(a) && AllDigits(b) && (point || b == []) && |a| + |b| > 0
    requires ParseExponent(x).Some?
    ensures ParseFloat(Mantissa(a, b, point) + "e" + x)
         == Some(Finite(Scaled(DecimalValue(a + b, |b|), ParseExponent(x).value)))
  {
    var m := Mantissa(a, b, point);
    ExponentText(m, x);
    WithExponent(m, x);
    MantissaValue(a, b, point, ParseExponent(x));
  }

  /** A mantissa followed by `e` and an exponent is decimal text. */
  lemma ExponentText(m: string, x: string)
    requires |m| > 0 && forall i :: 0 <= i < |m| ==> IsDigit(m[i]) || m[i] == '.'
    requires ParseExponent(x).Some?
    ensures ParseFloat(m + "e" + x) == ParseDecimal(m + "e" + x)
  {
    var t := m + "e" + x;
    ExponentShape(x);
    forall i | 0 <= i < |t|
      ensures t[i] as int < 0x80
    {
      if i > |m| {
        assert t[i] == x[i - |m| - 1];
      }
    }
    assert t[|t| - 1] == x[|x| - 1];
    DecimalText(t);
  }

  /** `float("-" + t)` is the negation of `float(t)`, and `float("+" + t)`
      is `float(t)`, for an unsigned numeral `t`. */
  lemma SignedNumeralValue(t: string)
    requires |t| == 0 || (t[0] != '+' && t[0] != '-')
    ensures ParseSigned("-" + t) == (match ParseUnsigned(t) case Some(f) => Some(Negate(f)) case None => None)
    ensures ParseSigned("+" + t) == ParseUnsigned(t)
    ensures ParseSigned(t) == ParseUnsigned(t)
  {
    assert ("-" + t)[1..] == t && ("+" + t)[1..] == t;
  }

  /** `float("-5")`: a minus sign negates what the rest of the numeral
      reads as, and a plus sign changes nothing. */
  lemma SignedFloatValue(t: string)
    requires |t| > 0 && (IsDigit(t[0]) || t[0] == '.') && !IsAsciiSpace(t[|t| - 1])
    requires forall i :: 0 <= i < |t| ==> t[i] as int < 0x80
    ensures ParseFloat("-" + t) == (match ParseFloat(t) case Some(f) => Some(Negate(f)) case None => None)
    ensures ParseFloat("+" + t) == ParseFloat(t)
  {
    DecimalText(t);
    NotSpecialWord(t, 0);
    SignedText("-", t);
    SignedText("+", t);
    SignedNumeralValue(t);
  }

  /** A sign in front of decimal text is kept by the conversion and the trimming. */
  lemma SignedText(sign: string, t: string)
    requires sign == "-" || sign == "+"
    requires |t| > 0 && !IsAsciiSpace(t[|t| - 1])
    requires forall i :: 0 <= i < |t| ==> t[i] as int < 0x80
    ensures ParseFloat(sign + t) == ParseSigned(sign + t)
  {
    var s := sign + t;
    forall i | 0 <= i < |s|
      ensures s[i] as int < 0x80
    {
      if i > 0 {
        assert s[i] == t[i - 1];
      }
    }
    AsciiKept(s);
    assert s[|s| - 1] == t[|t| - 1];
    assert StripAscii(s) == s;
  }

  /** `float("12.50")` is 12.5. */
  lemma TwelveFifty()
    ensures ParseFloat("12.50") == Some(Finite(12.5))
  {
    assert Mantissa("12", "50", true) == "12.50";
    PlainNumeralValue("12", "50", true);
    DigitsOfTwelveFifty();
  }

  lemma DigitsOfTwelveFifty()
    ensures AllDigits("1250") && DecimalValue("12" + "50", 2) == 12.5
  {
    assert "12" + "50" == "1250";
    assert "1250"[..3] == "125" && "125"[..2] == "12" && "12"[..1] == "1";
    assert DigitsValue("1250") == 1250;
    assert Pow10(2) == 100;
  }

  /** ASCII whitespace around a numeral does not change what it reads as. */
  lemma AsciiPaddingIgnored(p: string, t: string, q: string)
    requires AllAsciiSpace(p) && AllAsciiSpace(q)
    ensures ParseNumeral(p + t + q) == ParseNumeral(t)
  {
    StripAsciiPadding(p, t, q);
  }

  lemma StripAsciiPadding(p: string, t: string, q: string)
    requires AllAsciiSpace(p) && AllAsciiSpace(q)
    ensures StripAscii(p + t + q) == StripAscii(t)
  {
    var u := t + q;
    assert p + t + q == p + u;
    StripAsciiLeft(p, u);
    StripAsciiRight(t, q);
  }

  lemma {:induction false} StripAsciiLeft(p: string, u: string)
    requires AllAsciiSpace(p)
    ensures StripAscii(p + u) == StripAscii(u)
    decreases |p|
  {
    if |p| > 0 {
      assert (p + u)[0] == p[0];
      assert (p + u)[1..] == p[1..] + u;
      StripAsciiLeft(p[1..], u);
    } else {
      assert p + u == u;
    }
  }

  lemma {:induction false} StripAsciiRight(t: string, q: string)
    requires AllAsciiSpace(q)
    ensures StripAscii(t + q) == StripAscii(t)
    decreases |t| + |q|
  {
    var s := t + q;
    if |q| == 0 {
      assert s == t;
    } else if |t| > 0 && IsAsciiSpace(t[0]) {
      assert s[0] == t[0];
      assert s[1..] == t[1..] + q;
      StripAsciiRight(t[1..], q);
    } else if |t| == 0 {
      StripAsciiLeft(q, []);
      assert q + [] == q && s == q;
    } else {
      assert s[0] == t[0] && s[|s| - 1] == q[|q| - 1];
      assert s[..|s| - 1] == t + q[..|q| - 1];
      StripAsciiRight(t, q[..|q| - 1]);
    }
  }

  /** The information separator U+001C is trimmed by `str.strip()` but
      not by `float()`: `float("\x1c5")` raises `ValueError`. */
  lemma SeparatorNotTrimmed()
    ensures ParseFloat(SeparatorFive) == None
  {
    SeparatorKept();
    SeparatorNumeral();
  }

  lemma SeparatorNumeral()
    ensures ParseNumeral(SeparatorFive) == None
  {
    var t := SeparatorFive;
    assert StripAscii(t) == t;
    assert Lower(t)[0] == '\U{1C}';
    assert FirstIndexIn(t, {'e', 'E'}) == |t|;
    assert FirstIndexIn(t, {'.'}) == |t|;
    assert !AllDigits(t);
  }

  const SeparatorFive: string := "\U{1C}5"

  lemma SeparatorKept()
    ensures ToAscii(SeparatorFive) == SeparatorFive
  {
    AsciiKept(SeparatorFive);
  }

  /** A non-ASCII space such as the ideographic space U+3000 becomes a
      space and is trimmed: `float("\u30005")` is 5.0. */
  lemma IdeographicSpaceTrimmed()
    ensures ParseFloat(IdeographicFive) == Some(Finite(5.0))
  {
    IdeographicToAscii();
    LeadingSpaceIgnored("5");
    FiveValue();
  }

  lemma LeadingSpaceIgnored(s: string)
    requires |s| > 0 && AllDigits(s)
    ensures ParseNumeral(" " + s + []) == Some(Finite(DigitsValue(s) as real))
  {
    AsciiPaddingIgnored(" ", s, []);
    NumeralOfDigitString(s);
  }

  lemma FiveValue()
    ensures AllDigits("5") && DigitsValue("5") == 5
  {
  }

  const IdeographicFive: string := "\U{3000}5"

  lemma IdeographicToAscii()
    ensures ToAscii(IdeographicFive) == " " + "5" + []
  {
    assert DigitZero(0x35) == Some(0x30);
    var t := ToAscii(IdeographicFive);
    assert t[0] == ' ' && t[1] == '5';
  }

  /** `float(j)`: numbers convert, strings are parsed, anything else is a
      `TypeError`. */
  function ToFloat(j: Json): (r: Result<PyFloat>)
    ensures r.Err? && r.error.ValueError? <==> j.JString? && ParseFloat(j.s).None?
    ensures r.Err? ==> r.error.ValueError? || r.error.TypeError?
    ensures j.JString? && ParseFloat(j.s).Some? ==> r == Ok(ParseFloat(j.s).value)
    ensures j.JInt? ==> r == Ok(Finite(j.i as real))
    ensures j.JFloat? ==> r == Ok(j.f)
    ensures j.JBool? ==> r == Ok(Finite(if j.b then 1.0 else 0.0))
    ensures j.JNull? || j.JList? || j.JDict? ==> r.Err? && r.error.TypeError?
  {
    match j
    case JNull => Err(TypeError(NoneToFloat))
    case JBool(b) => Ok(Finite(if b then 1.0 else 0.0))
    case JInt(i) => Ok(Finite(i as real))
    case JFloat(f) => Ok(f)
    case JString(s) =>
      (match ParseFloat(s)
       case Some(f) => Ok(f)
       case None => Err(ValueError("could not convert string to float")))
    case JList(_) => Err(TypeError("float() argument must be a string or a real number, not 'list'"))
    case JDict(_) => Err(TypeError("float() argument must be a string or a real number, not 'dict'"))
  }
}
