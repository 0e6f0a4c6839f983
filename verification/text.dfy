/** Python `str` operations the modelled code relies on: `strip`, `lower`,
    `startswith`, `replace` and character counting. Strings are `seq<char>`. */
module Text {

  /** Python's `str.isspace` (the set `str.strip()` removes): ASCII tab to
      carriage return, the four information separators, space, and the
      Unicode space characters. */
  predicate IsSpace(c: char) {
    || c == ' '
    || ('\t' <= c <= '\r')
    || ('\U{1C}' <= c <= '\U{1F}')
    || c == '\U{85}' || c == '\U{A0}' || c == '\U{1680}'
    || ('\U{2000}' <= c <= '\U{200A}')
    || c == '\U{2028}' || c == '\U{2029}' || c == '\U{202F}' || c == '\U{205F}'
    || c == '\U{3000}'
  }

  predicate AllSpace(s: string) {
    forall i :: 0 <= i < |s| ==> IsSpace(s[i])
  }

  /** `s` is `t` with nothing but whitespace around it. */
  ghost predicate PaddedBy(s: string, t: string) {
    exists p, q :: AllSpace(p) && AllSpace(q) && s == p + t + q
  }

  /** A string with no removable whitespace at either end. */
  predicate Trimmed(s: string) {
    s == [] || (!IsSpace(s[0]) && !IsSpace(s[|s| - 1]))
  }

  /** Lower-casing of one character (ASCII letters only). */
  function LowerChar(c: char): (r: char)
    ensures 'A' <= c <= 'Z' ==> r as int == c as int + 32
    ensures !('A' <= c <= 'Z') ==> r == c
    ensures IsSpace(r) <==> IsSpace(c)
  {
    if 'A' <= c <= 'Z' then (c as int + 32) as char else c
  }

  /** `s.lower()`, character by character. */
  function Lower(s: string): (r: string)
    ensures |r| == |s|
    ensures forall i :: 0 <= i < |s| ==> r[i] == LowerChar(s[i])
  {
    seq(|s|, i requires 0 <= i < |s| => LowerChar(s[i]))
  }

  /** `s.lstrip()`: drops the leading whitespace and keeps the rest. */
  function TrimLeft(s: string): (r: string)
    ensures |r| <= |s|
    ensures r == [] || !IsSpace(r[0])
  {
    if |s| > 0 && IsSpace(s[0]) then TrimLeft(s[1..]) else s
  }

  /** `s.rstrip()`: drops the trailing whitespace and keeps the rest. */
  function TrimRight(s: string): (r: string)
    ensures |r| <= |s| && r == s[..|r|]
    ensures forall i :: |r| <= i < |s| ==> IsSpace(s[i])
    ensures r == [] || !IsSpace(r[|r| - 1])
  {
    if |s| > 0 && IsSpace(s[|s| - 1]) then TrimRight(s[..|s| - 1]) else s
  }

  /** `s.strip()`: the middle of `s` between leading and trailing whitespace. */
  function Strip(s: string): (r: string)
    ensures Trimmed(r)
  {
    TrimRight(TrimLeft(s))
  }

  /** `lstrip` splits off a whitespace prefix. */
  lemma {:induction false} TrimLeftSplits(s: string) returns (p: string)
    ensures s == p + TrimLeft(s) && AllSpace(p)
    decreases |s|
  {
    if |s| > 0 && IsSpace(s[0]) {
      var p' := TrimLeftSplits(s[1..]);
      var t := TrimLeft(s[1..]);
      assert TrimLeft(s) == t;
      p := [s[0]] + p';
      assert s == [s[0]] + (p' + t);
      SeqAssociates([s[0]], p', t);
      AllSpaceConcat([s[0]], p');
    } else {
      p := [];
      assert s == [] + s;
    }
  }

  /** `rstrip` splits off a whitespace suffix. */
  lemma {:induction false} TrimRightSplits(s: string) returns (q: string)
    ensures s == TrimRight(s) + q && AllSpace(q)
    decreases |s|
  {
    if |s| > 0 && IsSpace(s[|s| - 1]) {
      var q' := TrimRightSplits(s[..|s| - 1]);
      var t := TrimRight(s[..|s| - 1]);
      assert TrimRight(s) == t;
      q := q' + [s[|s| - 1]];
      assert s == (t + q') + [s[|s| - 1]];
      SeqAssociates(t, q', [s[|s| - 1]]);
      AllSpaceConcat(q', [s[|s| - 1]]);
    } else {
      q := [];
      assert s == s + [];
    }
  }

  lemma SeqAssociates(a: string, b: string, c: string)
    ensures a + (b + c) == a + b + c
  {
  }

  /** `Strip` splits its input into whitespace, the result, whitespace. */
  lemma StripSplits(s: string) returns (p: string, q: string)
    ensures s == p + Strip(s) + q
    ensures AllSpace(p) && AllSpace(q)
  {
    var l := TrimLeft(s);
    var t := TrimRight(l);
    p := TrimLeftSplits(s);
    q := TrimRightSplits(l);
    SeqAssociates(p, t, q);
    assert t == Strip(s);
  }

  /** `lstrip` removes exactly a whitespace prefix in front of a string
      that does not start with whitespace. */
  lemma {:induction false} TrimLeftPadded(p: string, u: string)
    requires AllSpace(p) && (u == [] || !IsSpace(u[0]))
    ensures TrimLeft(p + u) == u
  {
    if |p| == 0 {
      assert p + u == u;
    } else {
      assert (p + u)[0] == p[0];
      assert (p + u)[1..] == p[1..] + u;
      TrimLeftPadded(p[1..], u);
    }
  }

  /** `rstrip` removes exactly a whitespace suffix behind a string that
      does not end with whitespace. */
  lemma {:induction false} TrimRightPadded(u: string, q: string)
    requires AllSpace(q) && (u == [] || !IsSpace(u[|u| - 1]))
    ensures TrimRight(u + q) == u
  {
    if |q| == 0 {
      assert u + q == u;
    } else {
      assert (u + q)[|u + q| - 1] == q[|q| - 1];
      assert (u + q)[..|u + q| - 1] == u + q[..|q| - 1];
      TrimRightPadded(u, q[..|q| - 1]);
    }
  }

  /** Whatever whitespace surrounds a trimmed string, `strip` returns exactly it. */
  lemma StripUnique(p: string, t: string, q: string)
    requires AllSpace(p) && AllSpace(q) && Trimmed(t)
    ensures Strip(p + t + q) == t
  {
    if t == [] {
      assert p + t + q == p + q;
      AllSpaceConcat(p, q);
      TrimLeftPadded(p + q, []);
      assert p + q + [] == p + q;
    } else {
      assert p + t + q == p + (t + q);
      assert (t + q)[0] == t[0];
      TrimLeftPadded(p, t + q);
      TrimRightPadded(t, q);
    }
  }

  lemma AllSpaceConcat(a: string, b: string)
    requires AllSpace(a) && AllSpace(b)
    ensures AllSpace(a + b)
  {
    forall i | 0 <= i < |a + b|
      ensures IsSpace((a + b)[i])
    {
      if i < |a| {
        assert (a + b)[i] == a[i];
      } else {
        assert (a + b)[i] == b[i - |a|];
      }
    }
  }

  lemma SeqRegroup(p: string, a: string, t: string, b: string, q: string)
    ensures p + (a + t + b) + q == (p + a) + t + (b + q)
  {
  }

  /** Extra whitespace around a string does not change what `strip` returns. */
  lemma StripIgnoresPadding(p: string, s: string, q: string)
    requires AllSpace(p) && AllSpace(q)
    ensures Strip(p + s + q) == Strip(s)
  {
    var a, b := StripSplits(s);
    var t := Strip(s);
    var p', q' := p + a, b + q;
    AllSpaceConcat(p, a);
    AllSpaceConcat(b, q);
    StripUnique(p', t, q');
    calc {
      p + s + q;
      p + (a + t + b) + q;
      { SeqRegroup(p, a, t, b, q); }
      p' + t + q';
    }
  }

  lemma StripOfTrimmed(t: string)
    requires Trimmed(t)
    ensures Strip(t) == t
  {
    StripUnique([], t, []);
    assert [] + t + [] == t;
  }

  lemma LowerConcat(a: string, b: string)
    ensures Lower(a + b) == Lower(a) + Lower(b)
  {
  }

  lemma LowerKeepsShape(s: string)
    ensures AllSpace(s) ==> AllSpace(Lower(s))
    ensures Trimmed(s) ==> Trimmed(Lower(s))
  {
  }

  /** Lower-casing and stripping commute. */
  lemma LowerStripCommute(s: string)
    ensures Lower(Strip(s)) == Strip(Lower(s))
  {
    var p, q := StripSplits(s);
    var t := Strip(s);
    LowerConcat(p, t);
    LowerConcat(p + t, q);
    LowerKeepsShape(p);
    LowerKeepsShape(q);
    LowerKeepsShape(t);
    StripUnique(Lower(p), Lower(t), Lower(q));
  }

  predicate StartsWith(s: string, prefix: string) {
    |prefix| <= |s| && s[..|prefix|] == prefix
  }

  /** `p in s` for strings: `p` occurs in `s` at some position. */
  predicate Contains(s: string, p: string)
    decreases |s|
  {
    StartsWith(s, p) || (|s| > 0 && Contains(s[1..], p))
  }

  /** `s.replace(old, new, 1)`: replaces the first occurrence only. */
  function ReplaceFirst(s: string, pattern: string, replacement: string): (r: string)
    ensures StartsWith(s, pattern) ==> r == replacement + s[|pattern|..]
    ensures !Contains(s, pattern) ==> r == s
    decreases |s|
  {
    if StartsWith(s, pattern) then replacement + s[|pattern|..]
    else if |s| == 0 then s
    else [s[0]] + ReplaceFirst(s[1..], pattern, replacement)
  }

  /** `s.replace(old, new)` for a non-empty `old`: left to right, every
      non-overlapping occurrence. */
  function ReplaceAll(s: string, pattern: string, replacement: string): (r: string)
    requires |pattern| > 0
    ensures !Contains(s, pattern) ==> r == s
    decreases |s|
  {
    if StartsWith(s, pattern) then replacement + ReplaceAll(s[|pattern|..], pattern, replacement)
    else if |s| == 0 then s
    else [s[0]] + ReplaceAll(s[1..], pattern, replacement)
  }

  /** `s.count(c)` for a single character. */
  function CountChar(s: string, c: char): (n: nat)
    ensures n <= |s|
    ensures n == 0 <==> c !in s
  {
    if |s| == 0 then 0
    else (if s[0] == c then 1 else 0) + CountChar(s[1..], c)
  }

  lemma {:induction false} CountCharConcat(a: string, b: string, c: char)
    ensures CountChar(a + b, c) == CountChar(a, c) + CountChar(b, c)
  {
    if |a| > 0 {
      assert (a + b)[1..] == a[1..] + b;
      CountCharConcat(a[1..], b, c);
    } else {
      assert a + b == b;
    }
  }

  predicate IsDigit(c: char) {
    '0' <= c <= '9'
  }

  predicate AllDigits(s: string) {
    forall i :: 0 <= i < |s| ==> IsDigit(s[i])
  }

  function DigitChar(n: int): (c: char)
    requires 0 <= n <= 9
    ensures IsDigit(c)
  {
    ('0' as int + n) as char
  }

  function DigitValue(c: char): (n: nat)
    requires IsDigit(c)
    ensures n <= 9 && DigitChar(n) == c
  {
    c as int - '0' as int
  }

  function Pow10(n: nat): (p: nat)
    ensures p >= 1
  {
    if n == 0 then 1 else 10 * Pow10(n - 1)
  }

  /** The decimal value of a digit string, most significant digit first
      (Python's `int(s)` on such a string; `0` for the empty string). */
  function DigitsValue(s: string): (n: nat)
    requires AllDigits(s)
    ensures n < Pow10(|s|)
  {
    if |s| == 0 then 0
    else DigitsValue(s[..|s| - 1]) * 10 + DigitValue(s[|s| - 1])
  }

  /** The last `width` decimal digits of `n`, zero-padded on the left
      (`strftime`'s `%Y` with width 4 and `%m` with width 2). */
  function PadDigits(n: nat, width: nat): (s: string)
    ensures |s| == width && AllDigits(s)
  {
    if width == 0 then [] else PadDigits(n / 10, width - 1) + [DigitChar(n % 10)]
  }

  /** Reading back a zero-padded rendering recovers the number when it fits. */
  lemma {:induction false} PadDigitsRoundTrip(n: nat, width: nat)
    requires n < Pow10(width)
    ensures DigitsValue(PadDigits(n, width)) == n
  {
    if width > 0 {
      var s := PadDigits(n, width);
      assert s[..|s| - 1] == PadDigits(n / 10, width - 1);
      assert n / 10 < Pow10(width - 1);
      PadDigitsRoundTrip(n / 10, width - 1);
    }
  }

  /** The index of the first character of `s` in `cs`, or `|s|` if none
      (`str.find` generalised to a set of characters). */
  function FirstIndexIn(s: string, cs: set<char>): (k: nat)
    ensures k <= |s|
    ensures forall i :: 0 <= i < k ==> s[i] !in cs
    ensures k < |s| ==> s[k] in cs
  {
    if |s| == 0 || s[0] in cs then 0 else 1 + FirstIndexIn(s[1..], cs)
  }
}
