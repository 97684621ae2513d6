/**
 * The string rules of Python that the application relies on: `str.isdigit`,
 * `str.strip`, `str.lower`, `str.endswith`, `str(int)` and `int(str)`.
 */
module Text {
  import opened Wrappers

  predicate IsDigit(c: char) {
    '0' <= c <= '9'
  }

  function DigitValue(c: char): (d: nat)
    requires IsDigit(c)
    ensures d < 10
  {
    (c as int) - ('0' as int)
  }

  function DigitChar(d: nat): (c: char)
    requires d < 10
    ensures IsDigit(c) && DigitValue(c) == d
  {
    (('0' as int) + d) as char
  }

  /** The characters Python's `str.strip()` removes (Unicode white space). */
  predicate IsSpace(c: char) {
    || c == ' ' || ('\t' <= c <= '\r') || ('\U{1c}' <= c <= '\U{1f}')
    || c == '\U{85}' || c == '\U{a0}' || c == '\U{1680}' || ('\U{2000}' <= c <= '\U{200a}')
    || c == '\U{2028}' || c == '\U{2029}' || c == '\U{202f}' || c == '\U{205f}' || c == '\U{3000}'
  }

  function StripLeft(s: string): (r: string)
    ensures |r| <= |s| && r == s[|s| - |r|..]
    ensures r == [] || !IsSpace(r[0])
    ensures forall i :: 0 <= i < |s| - |r| ==> IsSpace(s[i])
  {
    if s != [] && IsSpace(s[0]) then StripLeft(s[1..]) else s
  }

  function StripRight(s: string): (r: string)
    ensures |r| <= |s| && r == s[..|r|]
    ensures r == [] || !IsSpace(r[|r| - 1])
    ensures forall i :: |r| <= i < |s| ==> IsSpace(s[i])
  {
    if s != [] && IsSpace(s[|s| - 1]) then StripRight(s[..|s| - 1]) else s
  }

  /** Python's `s.strip()`: no leading or trailing white space is left. */
  function Strip(s: string): (r: string)
    ensures r == [] || (!IsSpace(r[0]) && !IsSpace(r[|r| - 1]))
    ensures |r| <= |s|
  {
    StripRight(StripLeft(s))
  }

  lemma StripNoSpace(s: string)
    requires s == [] || (!IsSpace(s[0]) && !IsSpace(s[|s| - 1]))
    ensures Strip(s) == s
  {
  }

  /** Python's `str.lower()` on the ASCII letters (the only ones the application compares). */
  function LowerChar(c: char): (r: char)
    ensures 'A' <= c <= 'Z' ==> r as int == c as int + 32
    ensures !('A' <= c <= 'Z') ==> r == c
  {
    if 'A' <= c <= 'Z' then ((c as int) + 32) as char else c
  }

  function Lower(s: string): (r: string)
    ensures |r| == |s|
    ensures forall i :: 0 <= i < |s| ==> r[i] == LowerChar(s[i])
  {
    if s == [] then [] else [LowerChar(s[0])] + Lower(s[1..])
  }

  predicate EndsWith(s: string, suffix: string) {
    |suffix| <= |s| && s[|s| - |suffix|..] == suffix
  }

  predicate AllDigits(s: string) {
    forall i :: 0 <= i < |s| ==> IsDigit(s[i])
  }

  /** Decimal value of a string of digits, most significant first. */
  function DigitsValue(s: string): (n: nat)
    requires AllDigits(s)
  {
    if s == [] then 0 else DigitsValue(s[..|s| - 1]) * 10 + DigitValue(s[|s| - 1])
  }

  /** Python's `str(n)` for a natural number. */
  function NatToDecimal(n: nat): (s: string)
    ensures s != [] && AllDigits(s)
    ensures DigitsValue(s) == n
    ensures |s| > 1 ==> s[0] != '0'
  {
    if n < 10 then [DigitChar(n)]
    else
      var s := NatToDecimal(n / 10) + [DigitChar(n % 10)];
      assert s[..|s| - 1] == NatToDecimal(n / 10);
      s
  }

  /** Python's `str(i)` for an integer. */
  function IntToDecimal(i: int): (s: string)
    ensures s != []
    ensures i < 0 <==> s[0] == '-'
  {
    if i < 0 then "-" + NatToDecimal(-i) else NatToDecimal(i)
  }

  /** Python's `int(s)` for a string: surrounding white space, an optional sign, decimal
      digits. `None` stands for the ValueError Python raises. */
  function ParseInt(s: string): (r: Option<int>)
    ensures r.Some? ==> Strip(s) != []
  {
    var t := Strip(s);
    if t == [] then None
    else if t[0] == '-' || t[0] == '+' then
      var body := t[1..];
      if body != [] && AllDigits(body) then
        Some(if t[0] == '-' then 0 - DigitsValue(body) else DigitsValue(body))
      else None
    else if AllDigits(t) then Some(DigitsValue(t))
    else None
  }

  /** `int(str(i)) == i`: printing an integer and parsing it back gives the integer. */
  lemma ParseIntRoundTrip(i: int)
    ensures ParseInt(IntToDecimal(i)) == Some(i)
  {
    var s := IntToDecimal(i);
    assert !IsSpace(s[0]) && !IsSpace(s[|s| - 1]);
    StripNoSpace(s);
    if i < 0 {
      assert s[1..] == NatToDecimal(-i);
    }
  }

  /** The text before the first space (`s.split(" ")[0]`); the whole text when it has none. */
  function BeforeFirstSpace(s: string): (r: string)
    ensures |r| <= |s| && r == s[..|r|]
    ensures forall i :: 0 <= i < |r| ==> r[i] != ' '
    ensures |r| < |s| ==> s[|r|] == ' '
  {
    if s == [] || s[0] == ' ' then [] else [s[0]] + BeforeFirstSpace(s[1..])
  }

  /** `sub in s`: `sub` occurs in `s` as a contiguous piece. */
  predicate Contains(s: string, sub: string) {
    StartsWith(s, sub) || (s != [] && Contains(s[1..], sub))
  }

  predicate StartsWith(s: string, prefix: string) {
    |prefix| <= |s| && s[..|prefix|] == prefix
  }

  lemma ContainsAt(s: string, sub: string, i: nat)
    requires i + |sub| <= |s| && s[i..i + |sub|] == sub
    ensures Contains(s, sub)
  {
    if i > 0 {
      ContainsAt(s[1..], sub, i - 1);
      assert s[1..][i - 1..i - 1 + |sub|] == s[i..i + |sub|];
    }
  }

  /** 10 to the power n, as a real. */
  function Pow10(n: nat): (r: real)
    ensures r >= 1.0
  {
    if n == 0 then 1.0 else 10.0 * Pow10(n - 1)
  }

  /** Index of the first occurrence of `c`, or |s| when there is none. */
  function IndexOf(s: string, c: char): (k: nat)
    ensures k <= |s|
    ensures forall i :: 0 <= i < k ==> s[i] != c
    ensures k < |s| ==> s[k] == c
  {
    if s == [] || s[0] == c then 0 else 1 + IndexOf(s[1..], c)
  }

  /** Digits with at most one decimal point and at least one digit: "12", "1.5", "5.", ".5". */
  function DecimalValue(m: string): (r: Option<real>)
    ensures r.Some? ==> r.value >= 0.0
  {
    var k := IndexOf(m, '.');
    var ip := m[..k];
    var fp := if k < |m| then m[k + 1..] else [];
    if AllDigits(ip) && AllDigits(fp) && |ip| + |fp| > 0 then
      Some(DigitsValue(ip) as real + DigitsValue(fp) as real / Pow10(|fp|))
    else None
  }

  /** An optionally signed run of at least one digit. */
  function SignedDigits(e: string): (r: Option<int>)
  {
    if e != [] && (e[0] == '+' || e[0] == '-') then
      var body := e[1..];
      if body != [] && AllDigits(body) then Some(if e[0] == '-' then 0 - DigitsValue(body) else DigitsValue(body))
      else None
    else if e != [] && AllDigits(e) then Some(DigitsValue(e))
    else None
  }

  function Scale(x: real, e: int): real
    decreases if e < 0 then -e else e
  {
    if e == 0 then x else if e > 0 then Scale(x * 10.0, e - 1) else Scale(x / 10.0, e + 1)
  }

  /** Python's `float(s)` for a finite decimal literal: surrounding white space, an optional
      sign, a decimal mantissa and an optional exponent. `None` stands for the ValueError. */
  function ParseReal(s: string): (r: Option<real>)
    ensures r.Some? ==> Strip(s) != []
  {
    var t := Strip(s);
    if t == [] then None else SignedReal(t)
  }

  /** A number with an optional sign, white space already removed. */
  function SignedReal(t: string): Option<real>
    requires t != []
  {
    if t[0] == '-' then
      match UnsignedReal(t[1..])
      case None => None
      case Some(x) => Some(-x)
    else if t[0] == '+' then UnsignedReal(t[1..])
    else UnsignedReal(t)
  }

  /** A mantissa with an optional `e`/`E` exponent. */
  function UnsignedReal(body: string): (r: Option<real>)
  {
    var ke := IndexOf(Lower(body), 'e');
    var mant := DecimalValue(body[..ke]);
    var ex := if ke < |body| then SignedDigits(body[ke + 1..]) else Some(0);
    if mant.None? || ex.None? then None else Some(Scale(mant.value, ex.value))
  }

  /** `float(str(i)) == i`: an integer's decimal text parses back as the same number. */
  lemma ParseRealOfInt(i: int)
    ensures ParseReal(IntToDecimal(i)) == Some(i as real)
  {
    var s := IntToDecimal(i);
    assert IsDigit(s[|s| - 1]) by {
      if i < 0 {
        assert s[|s| - 1] == NatToDecimal(-i)[|s| - 2];
      }
    }
    StripNoSpace(s);
    SignedRealOfInt(i);
  }

  lemma SignedRealOfInt(i: int)
    ensures SignedReal(IntToDecimal(i)) == Some(i as real)
  {
    var s := IntToDecimal(i);
    if i < 0 {
      var body := NatToDecimal(-i);
      assert s[1..] == body;
      DigitsParse(body);
    } else {
      DigitsParse(s);
    }
  }

  /** A run of digits parses as its decimal value, with no exponent. */
  lemma DigitsParse(body: string)
    requires AllDigits(body) && body != []
    ensures UnsignedReal(body) == Some(DigitsValue(body) as real)
  {
    NoLetters(body);
    var ke := IndexOf(Lower(body), 'e');
    assert body[..ke] == body;
    DecimalOfDigits(body);
  }

  /** A run of digits is a mantissa with no fractional part. */
  lemma DecimalOfDigits(m: string)
    requires AllDigits(m) && m != [] && IndexOf(m, '.') == |m|
    ensures DecimalValue(m) == Some(DigitsValue(m) as real)
  {
    var k := IndexOf(m, '.');
    assert m[..k] == m;
    var fp: string := [];
    assert DigitsValue(fp) as real / Pow10(|fp|) == 0.0 by {
      assert DigitsValue(fp) == 0 && Pow10(|fp|) == 1.0;
    }
    assert AllDigits(m[..k]) && DigitsValue(m[..k]) == DigitsValue(m);
  }

  /** A decimal numeral has no letter and no decimal point. */
  lemma NoLetters(s: string)
    requires AllDigits(s)
    ensures IndexOf(Lower(s), 'e') == |s|
    ensures IndexOf(s, '.') == |s|
  {
    if s != [] {
      NoLetters(s[1..]);
      assert Lower(s)[1..] == Lower(s[1..]);
    }
  }

  /** Python's `s * n` on a string: `s` repeated `n` times. */
  function Repeat(s: string, n: nat): (r: string)
    ensures |r| == n * |s|
    ensures forall c :: c in r ==> c in s
    ensures n > 0 ==> r[|r| - |s|..] == s
  {
    if n == 0 then [] else Repeat(s, n - 1) + s
  }

  /** Appending digits: the value is at least the sum of the two values, and 0 when both
      are 0. */
  lemma {:induction false} DigitsAppend(a: string, b: string)
    requires AllDigits(a) && AllDigits(b)
    ensures AllDigits(a + b)
    ensures DigitsValue(a + b) >= DigitsValue(a) + DigitsValue(b)
    ensures DigitsValue(a) == 0 && DigitsValue(b) == 0 ==> DigitsValue(a + b) == 0
  {
    if b != [] {
      var front := b[..|b| - 1];
      DigitsAppend(a, front);
      var ab := a + b;
      assert ab[..|ab| - 1] == a + front && ab[|ab| - 1] == b[|b| - 1];
      assert b[..|b| - 1] == front;
      assert DigitsValue(ab) == DigitsValue(a + front) * 10 + DigitValue(b[|b| - 1]);
      assert DigitsValue(b) == DigitsValue(front) * 10 + DigitValue(b[|b| - 1]);
    } else {
      assert a + b == a;
    }
  }

  /** A run of digits repeated `n` times: its value is at least `n` when the run is not
      all zeros, and 0 when it is. */
  lemma {:induction false} RepeatDigits(s: string, n: nat)
    requires AllDigits(s)
    ensures AllDigits(Repeat(s, n))
    ensures DigitsValue(s) >= 1 ==> DigitsValue(Repeat(s, n)) >= n
    ensures DigitsValue(s) == 0 ==> DigitsValue(Repeat(s, n)) == 0
  {
    if n > 0 {
      RepeatDigits(s, n - 1);
      DigitsAppend(Repeat(s, n - 1), s);
    }
  }

  /** `int()` of a run of digits is its decimal value. */
  lemma ParseIntDigits(t: string)
    requires t != [] && AllDigits(t)
    ensures ParseInt(t) == Some(DigitsValue(t))
  {
    assert IsDigit(t[0]) && IsDigit(t[|t| - 1]);
    StripNoSpace(t);
  }
}
