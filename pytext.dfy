/**
 * The few Python 2.7 text built-ins the mapping engine relies on:
 * `unicode.isspace`, `unicode.strip`, `unicode.lower` and `int(text)`.
 * Text is a sequence of Unicode code points (`string`).
 */
module PyText {
  import opened Wrappers

  /** `c.isspace()` for a `unicode` character (Unicode 5.2 database of Python 2.7). */
  predicate IsSpace(c: char) {
    || ('\t' <= c <= '\r')
    || ('\U{1C}' <= c <= '\U{1F}')
    || c == ' ' || c == '\U{85}' || c == '\U{A0}'
    || c == '\U{1680}' || c == '\U{180E}'
    || ('\U{2000}' <= c <= '\U{200A}')
    || c == '\U{2028}' || c == '\U{2029}' || c == '\U{202F}' || c == '\U{205F}' || c == '\U{3000}'
  }

  /** Every character of `s` is whitespace (vacuously true of the empty text). */
  predicate AllSpace(s: string) {
    forall i | 0 <= i < |s| :: IsSpace(s[i])
  }

  /** `s.lstrip()`: drops the longest all-whitespace prefix. */
  function TrimStart(s: string): (r: string)
    ensures |r| <= |s| && r == s[|s| - |r|..]
    ensures r == [] || !IsSpace(r[0])
    ensures AllSpace(s[..|s| - |r|])
  {
    if s != [] && IsSpace(s[0]) then
      var r := TrimStart(s[1..]);
      assert forall i | 1 <= i < |s| - |r| :: s[i] == s[1..][..|s| - 1 - |r|][i - 1];
      r
    else s
  }

  /** `s.rstrip()`: drops the longest all-whitespace suffix. */
  function TrimEnd(s: string): (r: string)
    ensures |r| <= |s| && r == s[..|r|]
    ensures r == [] || !IsSpace(r[|r| - 1])
    ensures AllSpace(s[|r|..])
  {
    if s != [] && IsSpace(s[|s| - 1]) then
      var r := TrimEnd(s[..|s| - 1]);
      assert forall i | |r| <= i < |s| - 1 :: s[i] == s[..|s| - 1][|r|..][i - |r|];
      r
    else s
  }

  /** `s.strip()`: whitespace removed from both ends. */
  function Strip(s: string): (r: string)
    ensures r == [] || (!IsSpace(r[0]) && !IsSpace(r[|r| - 1]))
    ensures r == [] <==> AllSpace(s)
    ensures s == [] || (!IsSpace(s[0]) && !IsSpace(s[|s| - 1])) ==> r == s
  {
    var t := TrimStart(s);
    assert t == [] ==> AllSpace(s) by {
      if t == [] {
        assert s[..|s|] == s;
      }
    }
    TrimEnd(t)
  }

  /** `strip()` only removes characters: what is left is a slice of the input. */
  lemma StripSlice(s: string)
    ensures var u := TrimStart(s);
      |Strip(s)| <= |u| == |s[|s| - |u|..]| && Strip(s) == s[|s| - |u|..][..|Strip(s)|]
  {
    var u := TrimStart(s);
    assert Strip(s) == TrimEnd(u);
  }

  /** `c.lower()` for the ASCII letters; every other character is left as it is. */
  function LowerChar(c: char): (r: char)
    ensures IsSpace(r) <==> IsSpace(c)
    ensures !('A' <= r <= 'Z')
  {
    if 'A' <= c <= 'Z' then (c as int + 32) as char else c
  }

  /** `s.lower()`, character by character. */
  function Lower(s: string): (r: string)
    ensures |r| == |s|
    ensures forall i | 0 <= i < |s| :: r[i] == LowerChar(s[i])
  {
    if s == [] then [] else [LowerChar(s[0])] + Lower(s[1..])
  }

  /** Text without upper-case ASCII letters is its own lower case. */
  lemma LowerOfLowercase(s: string)
    requires forall i | 0 <= i < |s| :: !('A' <= s[i] <= 'Z')
    ensures Lower(s) == s
  {
  }

  /** Lower-casing twice is lower-casing once. */
  lemma LowerIdempotent(s: string)
    ensures Lower(Lower(s)) == Lower(s)
  {
    LowerOfLowercase(Lower(s));
  }

  /** Lower-casing works character by character, so it distributes over concatenation. */
  lemma {:induction false} LowerConcat(a: string, b: string)
    ensures Lower(a + b) == Lower(a) + Lower(b)
  {
    if a == [] {
      assert a + b == b;
    } else {
      assert (a + b)[1..] == a[1..] + b;
      LowerConcat(a[1..], b);
    }
  }

  /** No upper-case ASCII letter in `s`. */
  predicate NoUpper(s: string) {
    forall i | 0 <= i < |s| :: !('A' <= s[i] <= 'Z')
  }

  /** `s.lower().strip()` has no surrounding whitespace and no upper-case letter. */
  lemma LowerStripped(s: string)
    ensures var r := Strip(Lower(s));
      (r == [] || (!IsSpace(r[0]) && !IsSpace(r[|r| - 1]))) && NoUpper(r)
  {
    var l := Lower(s);
    LowerNoUpper(s);
    StripNoUpper(l);
  }

  /** Unpadded text without upper-case letters is unchanged by `lower().strip()`. */
  lemma PlainNormal(s: string)
    requires s != [] && !IsSpace(s[0]) && !IsSpace(s[|s| - 1]) && NoUpper(s)
    ensures Strip(Lower(s)) == s
  {
    LowerOfLowercase(s);
  }

  lemma LowerNoUpper(s: string)
    ensures NoUpper(Lower(s))
  {
    var l := Lower(s);
    forall i | 0 <= i < |l|
      ensures !('A' <= l[i] <= 'Z')
    {
      assert l[i] == LowerChar(s[i]);
    }
  }

  lemma StripNoUpper(s: string)
    requires NoUpper(s)
    ensures NoUpper(Strip(s))
  {
    var u := TrimStart(s);
    StripSlice(s);
    DropNoUpper(s, |s| - |u|);
    TakeNoUpper(u, |Strip(s)|);
  }

  lemma DropNoUpper(s: string, k: nat)
    requires NoUpper(s) && k <= |s|
    ensures NoUpper(s[k..])
  {
    var t := s[k..];
    assert forall i | 0 <= i < |t| :: t[i] == s[k + i];
  }

  lemma TakeNoUpper(s: string, n: nat)
    requires NoUpper(s) && n <= |s|
    ensures NoUpper(s[..n])
  {
    var t := s[..n];
    assert forall i | 0 <= i < |t| :: t[i] == s[i];
  }

  predicate IsDigit(c: char) {
    '0' <= c <= '9'
  }

  predicate AllDigits(s: string) {
    forall i | 0 <= i < |s| :: IsDigit(s[i])
  }

  function DigitChar(d: nat): (c: char)
    requires d < 10
    ensures IsDigit(c) && c as int - '0' as int == d
  {
    ('0' as int + d) as char
  }

  /** The number written by a run of decimal digits, most significant first. */
  function DigitsValue(s: string): nat
    requires AllDigits(s)
  {
    if s == [] then 0 else DigitsValue(s[..|s| - 1]) * 10 + (s[|s| - 1] as int - '0' as int)
  }

  /** At least one decimal digit and nothing else. */
  function ParseDigits(s: string): Option<nat> {
    if s != [] && AllDigits(s) then Some(DigitsValue(s)) else None
  }

  /**
   * `int(s)` on text, for the forms this model reads: surrounding whitespace,
   * an optional sign, whitespace again after the sign, then one or more
   * decimal digits. `None` stands for the `ValueError` case.
   */
  function ParseInt(s: string): (r: Option<int>)
    ensures AllSpace(s) ==> r.None?
    ensures ParseDigits(Strip(s)).Some? ==> r == Some(ParseDigits(Strip(s)).value as int)
  {
    var t := Strip(s);
    if t != [] && AllDigits(t) then UnsignedNumeral(t); ParseSigned(t) else ParseSigned(t)
  }

  /** An optional sign, optional whitespace after it, then one or more decimal digits, and nothing else. */
  function ParseSigned(t: string): Option<int>
  {
    if t != [] && (t[0] == '-' || t[0] == '+') then
      match ParseDigits(TrimStart(t[1..]))
      case Some(n) =>
        var v: int := if t[0] == '-' then -(n as int) else n;
        Some(v)
      case None => None
    else
      match ParseDigits(t)
      case Some(n) =>
        var v: int := n;
        Some(v)
      case None => None
  }

  /** The shortest decimal numeral of `n`, as `str(n)` writes it. */
  function ShowNat(n: nat): (r: string)
    ensures r != [] && AllDigits(r) && DigitsValue(r) == n
    ensures r[0] != '0' || n == 0
  {
    if n < 10 then [DigitChar(n)]
    else
      var r := ShowNat(n / 10) + [DigitChar(n % 10)];
      assert r[..|r| - 1] == ShowNat(n / 10);
      r
  }

  /** `str(n)` for an integer: a minus sign for negatives, then the digits. */
  function ShowInt(n: int): (r: string)
    ensures r != [] && !IsSpace(r[0]) && !IsSpace(r[|r| - 1])
  {
    if n < 0 then "-" + ShowNat(-n) else ShowNat(n)
  }

  /** Parsing what `str` writes gives the number back: `int(str(n)) == n`. */
  lemma ParseShowInt(n: int)
    ensures ParseInt(ShowInt(n)) == Some(n)
  {
    ParseIntUnpadded(ShowInt(n));
    if n < 0 {
      NegativeShown(n);
    } else {
      UnsignedNumeral(ShowInt(n));
    }
  }

  lemma NegativeShown(n: int)
    requires n < 0
    ensures ParseSigned(ShowInt(n)) == Some(n)
  {
    var t := ShowInt(n);
    var d := ShowNat(-n);
    assert t[0] == '-' && t[1..] == d;
    MinusDigits(t, d);
  }

  lemma MinusDigits(t: string, d: string)
    requires t != [] && t[0] == '-' && t[1..] == d && d != [] && AllDigits(d)
    ensures ParseSigned(t) == Some(-(DigitsValue(d) as int))
  {
    DigitsUnpadded(d);
    SignedNumeral(t, DigitsValue(d));
  }

  /** A sign may be followed by whitespace: `int("- 5") == -5`, `int("+ 5") == 5`. */
  lemma ParseIntSpaceAfterSign(sign: char, pad: string, digits: string)
    requires sign == '-' || sign == '+'
    requires AllSpace(pad)
    requires digits != [] && AllDigits(digits)
    ensures ParseInt([sign] + pad + digits)
         == Some(if sign == '-' then -(DigitsValue(digits) as int) else DigitsValue(digits) as int)
  {
    var t := [sign] + pad + digits;
    SignedText(sign, pad, digits);
    SignedUnpadded(t, digits);
    SignAfterPad(t, pad, digits);
    SignedDigits(t, digits);
  }

  lemma DigitsParsed(d: string)
    requires d != [] && AllDigits(d)
    ensures ParseDigits(d) == Some(DigitsValue(d))
  {
  }

  lemma SignedText(sign: char, pad: string, digits: string)
    requires digits != []
    ensures var t := [sign] + pad + digits;
      t[0] == sign && t[1..] == pad + digits && t[|t| - 1] == digits[|digits| - 1]
  {
  }

  lemma SignedUnpadded(t: string, digits: string)
    requires t != [] && (t[0] == '-' || t[0] == '+')
    requires digits != [] && AllDigits(digits) && t[|t| - 1] == digits[|digits| - 1]
    ensures ParseInt(t) == ParseSigned(t)
  {
    NotSpace(t[0]);
    NotSpace(digits[|digits| - 1]);
    ParseIntUnpadded(t);
  }

  lemma SignAfterPad(t: string, pad: string, digits: string)
    requires t != [] && t[1..] == pad + digits
    requires AllSpace(pad)
    requires digits != [] && AllDigits(digits)
    ensures TrimStart(t[1..]) == digits
  {
    NotSpace(digits[0]);
    TrimStartPadded(pad, digits);
  }

  lemma SignedDigits(t: string, digits: string)
    requires t != [] && (t[0] == '-' || t[0] == '+')
    requires TrimStart(t[1..]) == digits && digits != [] && AllDigits(digits)
    ensures ParseSigned(t) == Some(if t[0] == '-' then -(DigitsValue(digits) as int) else DigitsValue(digits) as int)
  {
    DigitsParsed(digits);
    SignedValue(t, digits, DigitsValue(digits));
  }

  lemma SignedValue(t: string, digits: string, n: nat)
    requires t != [] && (t[0] == '-' || t[0] == '+')
    requires TrimStart(t[1..]) == digits && ParseDigits(digits) == Some(n)
    ensures ParseSigned(t) == Some(if t[0] == '-' then -(n as int) else n)
  {
    SignedNumeral(t, n);
  }

  lemma NotSpace(c: char)
    requires IsDigit(c) || c == '-' || c == '+'
    ensures !IsSpace(c)
  {
  }

  lemma ParseIntUnpadded(t: string)
    requires t != [] && !IsSpace(t[0]) && !IsSpace(t[|t| - 1])
    ensures ParseInt(t) == ParseSigned(t)
  {
  }

  lemma DigitsUnpadded(d: string)
    requires d != [] && AllDigits(d)
    ensures TrimStart(d) == d && !IsSpace(d[0]) && !IsSpace(d[|d| - 1])
  {
    NotSpace(d[0]);
    NotSpace(d[|d| - 1]);
  }

  lemma SignedNumeral(t: string, n: nat)
    requires t != [] && (t[0] == '-' || t[0] == '+')
    requires ParseDigits(TrimStart(t[1..])) == Some(n)
    ensures ParseSigned(t) == Some(if t[0] == '-' then -(n as int) else n)
  {
    if t[0] == '-' {
      assert ParseSigned(t) == Some(-(n as int));
    } else {
      assert ParseSigned(t) == Some(n as int);
    }
  }

  lemma UnsignedNumeral(t: string)
    requires t != [] && AllDigits(t)
    ensures ParseSigned(t) == Some(DigitsValue(t) as int)
  {
    assert IsDigit(t[0]);
  }

  /** Whitespace around the numeral does not matter: `int(" 42 ") == 42`. */
  lemma ParseIntIgnoresPadding(pre: string, s: string, post: string)
    requires AllSpace(pre) && AllSpace(post)
    requires s != [] && !IsSpace(s[0]) && !IsSpace(s[|s| - 1])
    ensures ParseInt(pre + s + post) == ParseInt(s)
  {
    StripPadded(pre, s, post);
  }

  lemma StripPadded(pre: string, s: string, post: string)
    requires AllSpace(pre) && AllSpace(post)
    requires s != [] && !IsSpace(s[0]) && !IsSpace(s[|s| - 1])
    ensures Strip(pre + s + post) == s
  {
    AppendAssoc(pre, s, post);
    TrimStartPadded(pre, s + post);
    TrimEndPadded(s, post);
    StripOf(pre + (s + post), s + post, s);
  }

  lemma AppendAssoc(a: string, b: string, c: string)
    ensures a + b + c == a + (b + c)
  {
  }

  lemma StripOf(w: string, u: string, s: string)
    requires TrimStart(w) == u && TrimEnd(u) == s
    ensures Strip(w) == s
  {
  }

  lemma {:induction false} TrimStartPadded(pre: string, rest: string)
    requires AllSpace(pre)
    requires rest != [] && !IsSpace(rest[0])
    ensures TrimStart(pre + rest) == rest
  {
    if pre != [] {
      assert (pre + rest)[1..] == pre[1..] + rest;
      TrimStartPadded(pre[1..], rest);
    }
  }

  lemma {:induction false} TrimEndPadded(s: string, post: string)
    requires AllSpace(post)
    requires s != [] && !IsSpace(s[|s| - 1])
    ensures TrimEnd(s + post) == s
  {
    if post != [] {
      assert (s + post)[..|s + post| - 1] == s + post[..|post| - 1];
      TrimEndPadded(s, post[..|post| - 1]);
    }
  }
}
