/**
 * Decimal numerals: printing an integer as C# string interpolation does, and
 * `int.TryParse` with its default number style (surrounding white space, an
 * optional sign, ASCII digits, 32-bit range).
 */
module Numerals {
  import opened Wrappers

  const Int32Min: int := -0x8000_0000
  const Int32Max: int := 0x7fff_ffff

  predicate IsInt32(n: int) {
    Int32Min <= n <= Int32Max
  }

  predicate IsDigit(c: char) {
    '0' <= c <= '9'
  }

  predicate AllDigits(s: string) {
    forall i :: 0 <= i < |s| ==> IsDigit(s[i])
  }

  function DigitValue(c: char): (d: nat)
    requires IsDigit(c)
    ensures d < 10
  {
    (c as int) - ('0' as int)
  }

  function DigitChar(d: nat): (c: char)
    requires d < 10
    ensures IsDigit(c) && DigitValue(c) == d
  {
    (('0' as int) + d) as char
  }

  /** The value of a string of decimal digits, most significant first. */
  function DigitsValue(s: string): nat
    requires AllDigits(s)
  {
    if s == [] then 0 else DigitsValue(s[..|s| - 1]) * 10 + DigitValue(s[|s| - 1])
  }

  /** The shortest decimal numeral of `n`. */
  function NatToString(n: nat): (s: string)
    ensures |s| > 0 && AllDigits(s)
  {
    if n < 10 then [DigitChar(n)] else NatToString(n / 10) + [DigitChar(n % 10)]
  }

  /** An integer as `$"{n}"` prints it: a minus sign for negatives, then the digits. */
  function IntToString(n: int): (s: string)
    ensures |s| > 0 && IsDigit(s[|s| - 1])
    ensures s[0] == '-' <==> n < 0
  {
    if n < 0 then "-" + NatToString(-n) else NatToString(n)
  }

  /** The white-space characters `int.TryParse` skips: tab to carriage return, and space. */
  predicate IsWhite(c: char) {
    c == ' ' || '\t' <= c <= '\r'
  }

  predicate AllWhite(s: string) {
    forall i :: 0 <= i < |s| ==> IsWhite(s[i])
  }

  /** `s` without its leading white space: what is cut off is all white, and what is left does not start white. */
  function TrimStart(s: string): (r: string)
    ensures |r| <= |s| && r == s[|s| - |r|..]
    ensures forall i :: 0 <= i < |s| - |r| ==> IsWhite(s[i])
    ensures r != [] ==> !IsWhite(r[0])
  {
    if s != [] && IsWhite(s[0]) then TrimStart(s[1..]) else s
  }

  /** `s` without its trailing white space. */
  function TrimEnd(s: string): (r: string)
    ensures |r| <= |s| && r == s[..|r|]
    ensures forall i :: |r| <= i < |s| ==> IsWhite(s[i])
    ensures r != [] ==> !IsWhite(r[|r| - 1])
  {
    if s != [] && IsWhite(s[|s| - 1]) then TrimEnd(s[..|s| - 1]) else s
  }

  /**
   * `int.TryParse(s, out n)`: None when `s` is null, holds no digit, holds
   * anything besides surrounding white space, one leading sign and digits,
   * or denotes a number outside the 32-bit range.
   */
  function TryParseInt32(s: Option<string>): (r: Option<int>)
    ensures r.Some? ==> IsInt32(r.value)
    ensures s.None? ==> r.None?
  {
    match s
    case None => None
    case Some(text) => ParseTrimmed(TrimEnd(TrimStart(text)))
  }

  /** The parse of the text between the white space: an optional sign, then digits. */
  function ParseTrimmed(t: string): (r: Option<int>)
    ensures r.Some? ==> IsInt32(r.value)
  {
    var negative := t != [] && t[0] == '-';
    var digits := if t != [] && (t[0] == '-' || t[0] == '+') then t[1..] else t;
    if digits == [] || !AllDigits(digits) then None
    else
      var magnitude: int := DigitsValue(digits);
      var v := if negative then -magnitude else magnitude;
      if IsInt32(v) then Some(v) else None
  }

  /** A sign as `int.TryParse` accepts it: nothing, or one '+' or '-'. */
  predicate IsSign(sign: string) {
    |sign| <= 1 && (sign != [] ==> sign[0] == '-' || sign[0] == '+')
  }

  /** The number a sign and a string of digits denote. */
  function SignedValue(sign: string, digits: string): int
    requires AllDigits(digits)
  {
    var magnitude: int := DigitsValue(digits);
    if sign != [] && sign[0] == '-' then -magnitude else magnitude
  }

  /** The numerals `int.TryParse` accepts: white space, an optional sign, at least one digit, white space. */
  predicate IsNumeral(w1: string, sign: string, digits: string, w2: string) {
    && AllWhite(w1) && AllWhite(w2)
    && IsSign(sign)
    && digits != [] && AllDigits(digits)
  }

  lemma {:induction false} DigitsRoundTrip(n: nat)
    ensures DigitsValue(NatToString(n)) == n
  {
    if n >= 10 {
      var s := NatToString(n);
      assert s[..|s| - 1] == NatToString(n / 10);
      DigitsRoundTrip(n / 10);
    }
  }

  /** Parsing what `IntToString` prints gives the number back, for every 32-bit integer. */
  lemma ParsePrintRoundTrip(n: int)
    requires IsInt32(n)
    ensures TryParseInt32(Some(IntToString(n))) == Some(n)
  {
    var s := IntToString(n);
    var magnitude: nat := if n < 0 then -n else n;
    var sign := if n < 0 then "-" else "";
    var digits := NatToString(magnitude);
    assert s == [] + sign + digits + [];
    DigitsRoundTrip(magnitude);
    ParseNumeral([], sign, digits, []);
  }

  lemma {:induction false} TrimStartSkipsWhite(w: string, rest: string)
    requires AllWhite(w)
    requires rest != [] && !IsWhite(rest[0])
    ensures TrimStart(w + rest) == rest
  {
    if w != [] {
      assert (w + rest)[1..] == w[1..] + rest;
      TrimStartSkipsWhite(w[1..], rest);
    }
  }

  lemma {:induction false} TrimEndSkipsWhite(rest: string, w: string)
    requires AllWhite(w)
    requires rest != [] && !IsWhite(rest[|rest| - 1])
    ensures TrimEnd(rest + w) == rest
  {
    if w != [] {
      assert (rest + w)[..|rest + w| - 1] == rest + w[..|w| - 1];
      TrimEndSkipsWhite(rest, w[..|w| - 1]);
    }
  }

  /** A sign followed by digits parses to the value they denote, when it is a 32-bit integer. */
  lemma ParseSignDigits(sign: string, digits: string)
    requires IsSign(sign) && digits != [] && AllDigits(digits)
    ensures var v := SignedValue(sign, digits);
      ParseTrimmed(sign + digits) == if IsInt32(v) then Some(v) else None
  {
    var t := sign + digits;
    if sign == [] {
      assert t == digits && IsDigit(t[0]);
    } else {
      assert t[0] == sign[0] && t[1..] == digits;
    }
  }

  /** What parses between the white space is a sign followed by the digits of the value. */
  lemma ParsedTrimmed(t: string, v: int) returns (sign: string, digits: string)
    requires ParseTrimmed(t) == Some(v)
    ensures IsSign(sign) && digits != [] && AllDigits(digits)
    ensures t == sign + digits && v == SignedValue(sign, digits)
  {
    sign := if t[0] == '-' || t[0] == '+' then t[..1] else [];
    digits := t[|sign|..];
    assert t == sign + digits;
  }

  /**
   * Every numeral parses: to its value when that is a 32-bit integer, and
   * to nothing when it is out of range.
   */
  lemma ParseNumeral(w1: string, sign: string, digits: string, w2: string)
    requires IsNumeral(w1, sign, digits, w2)
    ensures var v := SignedValue(sign, digits);
      TryParseInt32(Some(w1 + sign + digits + w2)) == if IsInt32(v) then Some(v) else None
  {
    var core := sign + digits;
    var text := w1 + sign + digits + w2;
    assert text == w1 + (core + w2);
    TrimStartSkipsWhite(w1, core + w2);
    TrimEndSkipsWhite(core, w2);
    assert TrimEnd(TrimStart(text)) == core;
    ParseSignDigits(sign, digits);
  }

  /** Trimming splits text into leading white space, the trimmed text, and trailing white space. */
  lemma TrimSplit(text: string) returns (w1: string, t: string, w2: string)
    ensures t == TrimEnd(TrimStart(text))
    ensures text == w1 + t + w2 && AllWhite(w1) && AllWhite(w2)
  {
    var s1 := TrimStart(text);
    t := TrimEnd(s1);
    w1 := text[..|text| - |s1|];
    w2 := s1[|t|..];
    TrimStartCutsWhite(text);
    TrimEndCutsWhite(s1);
    SplitAt(text, |text| - |s1|);
    SplitAt(s1, |t|);
    Regroup3(w1, t, w2, s1, text);
  }

  lemma SplitAt(s: string, k: nat)
    requires k <= |s|
    ensures s == s[..k] + s[k..]
  {
  }

  lemma TrimStartCutsWhite(s: string)
    ensures AllWhite(s[..|s| - |TrimStart(s)|])
  {
    var w := s[..|s| - |TrimStart(s)|];
    forall i | 0 <= i < |w| ensures IsWhite(w[i]) { assert w[i] == s[i]; }
  }

  lemma TrimEndCutsWhite(s: string)
    ensures AllWhite(s[|TrimEnd(s)|..])
  {
    var n := |TrimEnd(s)|;
    var w := s[n..];
    forall i | 0 <= i < |w| ensures IsWhite(w[i]) { assert w[i] == s[n + i]; }
  }

  /** Regrouping a concatenation of three parts, kept apart from the context of the caller. */
  lemma Regroup3(a: string, b: string, c: string, bc: string, abc: string)
    requires bc == b + c && abc == a + bc
    ensures abc == a + b + c
  {
  }

  /**
   * Conversely, only numerals parse: text that parses to `v` splits into
   * white space, a sign, digits denoting `v`, and white space.
   */
  lemma ParsedIsNumeral(text: string, v: int) returns (w1: string, sign: string, digits: string, w2: string)
    requires TryParseInt32(Some(text)) == Some(v)
    ensures IsNumeral(w1, sign, digits, w2)
    ensures text == w1 + sign + digits + w2 && v == SignedValue(sign, digits)
  {
    var t;
    w1, t, w2 := TrimSplit(text);
    sign, digits := ParsedTrimmed(t, v);
    Regroup(w1, sign, digits, w2, t, text);
  }

  /** Regrouping a concatenation of four parts, likewise. */
  lemma Regroup(a: string, b: string, c: string, d: string, bc: string, abcd: string)
    requires bc == b + c && abcd == a + bc + d
    ensures abcd == a + b + c + d
  {
  }

  /** Text that holds no digit never parses. */
  lemma NoDigitsNoNumber(text: string)
    requires forall i :: 0 <= i < |text| ==> !IsDigit(text[i])
    ensures TryParseInt32(Some(text)) == None
  {
    var w1, t, w2 := TrimSplit(text);
    var digits := if t != [] && (t[0] == '-' || t[0] == '+') then t[1..] else t;
    if digits != [] {
      assert digits[0] == text[|w1| + |t| - |digits|];
    }
  }
}
