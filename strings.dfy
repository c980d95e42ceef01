/** Text primitives the Python code relies on: `str(int)` and `int(str)`,
    `str.split` / `str.join` on one separator, the UTF-8 length that aiogram
    checks, `str.strip`, `str.isdigit`, `str.startswith` and substring search. */
module Strings {
  import opened Wrappers

  // ---------------------------------------------------------------- decimal

  predicate IsDigit(c: char) { '0' <= c <= '9' }

  /** `str.isdigit()` restricted to ASCII digits: non-empty and all digits. */
  predicate IsDigits(s: string) {
    |s| > 0 && forall i :: 0 <= i < |s| ==> IsDigit(s[i])
  }

  function DigitChar(d: nat): (c: char)
    requires d < 10
    ensures IsDigit(c)
  {
    (48 + d) as char
  }

  function DigitValue(c: char): (d: nat)
    requires IsDigit(c)
    ensures d < 10
  {
    (c as int) - 48
  }

  /** Python's `str(n)` for a natural number. */
  function NatToString(n: nat): (s: string)
    ensures IsDigits(s)
    ensures s[0] == '0' <==> n == 0
    decreases n
  {
    if n < 10 then [DigitChar(n)] else NatToString(n / 10) + [DigitChar(n % 10)]
  }

  /** The value of a string of decimal digits. */
  function ParseDigits(s: string): nat
    requires forall i :: 0 <= i < |s| ==> IsDigit(s[i])
    decreases |s|
  {
    if s == [] then 0 else ParseDigits(s[..|s| - 1]) * 10 + DigitValue(s[|s| - 1])
  }

  lemma {:induction false} ParseNatToString(n: nat)
    ensures ParseDigits(NatToString(n)) == n
    decreases n
  {
    var s := NatToString(n);
    if n >= 10 {
      ParseNatToString(n / 10);
      assert s[..|s| - 1] == NatToString(n / 10);
    }
  }

  /** Python truthiness of an optional string: present and not empty. */
  predicate Present(o: Option<string>) {
    o.Some? && o.value != ""
  }

  /** `value or ''`. */
  function OrEmpty(o: Option<string>): (r: string)
    ensures Present(o) ==> r == o.value
    ensures !Present(o) ==> r == ""
  {
    if o.Some? then o.value else ""
  }

  /** Python's `str(i)` for any integer: a minus sign before the digits of `-i`. */
  function IntToString(i: int): string {
    if i < 0 then "-" + NatToString(-i) else NatToString(i)
  }

  /** An optional sign followed by decimal digits, as Python and Rust
      read an integer literal. */
  function ParseSigned(t: string): Option<int> {
    if |t| > 0 && t[0] == '-' && IsDigits(t[1..]) then
      var v: int := ParseDigits(t[1..]);
      Some(-v)
    else if |t| > 0 && t[0] == '+' && IsDigits(t[1..]) then Some(ParseDigits(t[1..]))
    else if IsDigits(t) then Some(ParseDigits(t))
    else None
  }

  /** The text before a decimal point that only zeros follow; any other
      text is kept whole. */
  function WholePart(t: string): string {
    var parts := Split(t, '.');
    if |parts| == 2 && forall k :: 0 <= k < |parts[1]| ==> parts[1][k] == '0' then parts[0] else t
  }

  /** pydantic's lax reading of text for an `int` field: the surrounding
      white space is stripped, and what is left must be a signed integer,
      possibly followed by a decimal point and zeros only. */
  function ParseInt(s: string): Option<int> {
    ParseSigned(WholePart(Strip(s)))
  }

  lemma ParseSignedIntToString(i: int)
    ensures ParseSigned(IntToString(i)) == Some(i)
  {
    var s := IntToString(i);
    if i < 0 {
      assert s[0] == '-' && s[1..] == NatToString(-i);
      ParseNatToString(-i);
    } else {
      assert IsDigit(s[0]);
      ParseNatToString(i);
    }
  }

  /** Text that neither starts nor ends with white space is its own strip. */
  lemma StripKeeps(s: string)
    requires s != [] && !IsSpace(s[0]) && !IsSpace(s[|s| - 1])
    ensures Strip(s) == s
  {
  }

  lemma {:induction false} ParseIntToString(i: int)
    ensures ParseInt(IntToString(i)) == Some(i)
  {
    var s := IntToString(i);
    assert s[0] == '-' || IsDigit(s[0]);
    assert IsDigit(s[|s| - 1]) by {
      if i < 0 {
        assert s[|s| - 1] == NatToString(-i)[|NatToString(-i)| - 1];
      }
    }
    StripKeeps(s);
    IntToStringHasNo(i, '.');
    SplitNoSep(s, '.');
    ParseSignedIntToString(i);
  }

  lemma {:induction false} StripLeftSpaces(pre: string, t: string)
    requires forall k :: 0 <= k < |pre| ==> IsSpace(pre[k])
    requires t != [] && !IsSpace(t[0])
    ensures StripLeft(pre + t) == t
    decreases |pre|
  {
    var u := pre + t;
    if pre != [] {
      assert u[0] == pre[0] && IsSpace(u[0]);
      assert u[1..] == pre[1..] + t;
      StripLeftSpaces(pre[1..], t);
    } else {
      assert u == t;
    }
  }

  lemma {:induction false} StripRightSpaces(t: string, post: string)
    requires forall k :: 0 <= k < |post| ==> IsSpace(post[k])
    requires t != [] && !IsSpace(t[|t| - 1])
    ensures StripRight(t + post) == t
    decreases |post|
  {
    if post != [] {
      var u := t + post;
      assert u[|u| - 1] == post[|post| - 1] && IsSpace(u[|u| - 1]);
      assert u[..|u| - 1] == t + post[..|post| - 1];
      StripRightSpaces(t, post[..|post| - 1]);
    } else {
      assert t + post == t;
    }
  }

  /** Text with only white space around a core that neither starts nor ends
      with white space strips to that core. */
  lemma StripAround(pre: string, t: string, post: string)
    requires forall k :: 0 <= k < |pre| ==> IsSpace(pre[k])
    requires forall k :: 0 <= k < |post| ==> IsSpace(post[k])
    requires t != [] && !IsSpace(t[0]) && !IsSpace(t[|t| - 1])
    ensures Strip(pre + t + post) == t
  {
    assert pre + t + post == pre + (t + post);
    StripLeftSpaces(pre, t + post);
    StripRightSpaces(t, post);
  }

  /** A decimal point followed by zeros only. */
  predicate ZeroFraction(f: string) {
    |f| > 0 && f[0] == '.' && forall k :: 1 <= k < |f| ==> f[k] == '0'
  }

  /** A whole number followed by a zero fraction reads as the number. */
  lemma WholePartOfZeroFraction(w: string, f: string)
    requires '.' !in w && ZeroFraction(f)
    ensures WholePart(w + f) == w
  {
    var z := f[1..];
    assert f == ['.'] + z;
    assert '.' !in z by {
      forall k | 0 <= k < |z| ensures z[k] != '.' { assert z[k] == f[k + 1]; }
    }
    assert w + f == w + ['.'] + z;
    SplitPiece(w, '.', z);
    SplitNoSep(z, '.');
  }

  /** No character of integer text is white space. */
  lemma NumeralNotSpace(c: char)
    requires c == '+' || c == '-' || c == '.' || IsDigit(c)
    ensures !IsSpace(c)
  {
  }

  /** An integer written with a `+` before it when `plus` holds and it is
      not negative, and `fraction` after it. */
  function LaxText(i: int, plus: bool, fraction: string): string {
    (if plus && i >= 0 then "+" else "") + IntToString(i) + fraction
  }

  /** Such text neither starts nor ends with white space. */
  lemma LaxTextEnds(i: int, plus: bool, fraction: string)
    requires fraction == "" || ZeroFraction(fraction)
    ensures var t := LaxText(i, plus, fraction); t != [] && !IsSpace(t[0]) && !IsSpace(t[|t| - 1])
  {
    var digits := IntToString(i);
    var w := (if plus && i >= 0 then "+" else "") + digits;
    var t := LaxText(i, plus, fraction);
    assert t == w + fraction;
    assert digits[0] == '-' || IsDigit(digits[0]);
    assert IsDigit(digits[|digits| - 1]) by {
      if i < 0 {
        assert digits[|digits| - 1] == NatToString(-i)[|NatToString(-i)| - 1];
      }
    }
    assert w[0] == '+' || w[0] == digits[0];
    assert w[|w| - 1] == digits[|digits| - 1];
    assert t[0] == w[0];
    NumeralNotSpace(t[0]);
    if fraction == "" {
      assert t[|t| - 1] == w[|w| - 1];
    } else {
      assert t[|t| - 1] == fraction[|fraction| - 1];
    }
    NumeralNotSpace(t[|t| - 1]);
  }

  /** With a zero fraction or none, such text reads as the integer. */
  lemma LaxTextReads(i: int, plus: bool, fraction: string)
    requires fraction == "" || ZeroFraction(fraction)
    ensures ParseSigned(WholePart(LaxText(i, plus, fraction))) == Some(i)
  {
    var digits := IntToString(i);
    var sign := if plus && i >= 0 then "+" else "";
    var w := sign + digits;
    assert LaxText(i, plus, fraction) == w + fraction;
    IntToStringHasNo(i, '.');
    assert '.' !in w;
    if fraction == "" {
      assert w + fraction == w;
      SplitNoSep(w, '.');
    } else {
      WholePartOfZeroFraction(w, fraction);
    }
    if sign == "+" {
      assert w[0] == '+' && w[1..] == NatToString(i);
      ParseNatToString(i);
    } else {
      assert w == digits;
      ParseSignedIntToString(i);
    }
  }

  /** pydantic also reads an integer with white space around it, a `+`
      before a non-negative one, or a zero fraction (`.`, `.0`, `.00`, ...)
      after it. */
  lemma ParseIntLax(i: int, plus: bool, pre: string, fraction: string, post: string)
    requires forall k :: 0 <= k < |pre| ==> IsSpace(pre[k])
    requires forall k :: 0 <= k < |post| ==> IsSpace(post[k])
    requires fraction == "" || ZeroFraction(fraction)
    ensures ParseInt(pre + LaxText(i, plus, fraction) + post) == Some(i)
  {
    LaxTextEnds(i, plus, fraction);
    LaxTextReads(i, plus, fraction);
    StripAround(pre, LaxText(i, plus, fraction), post);
  }

  /** Decimal text never contains a character outside '-' and the digits. */
  lemma IntToStringHasNo(i: int, c: char)
    requires c != '-' && !IsDigit(c)
    ensures c !in IntToString(i)
  {
    var s := IntToString(i);
    if i < 0 {
      assert forall k :: 1 <= k < |s| ==> s[k] == NatToString(-i)[k - 1];
    }
  }

  // ---------------------------------------------------------- split / join

  /** `sep.join(parts)` for a one-character separator. */
  function Join(parts: seq<string>, sep: char): string
    decreases |parts|
  {
    if |parts| == 0 then ""
    else if |parts| == 1 then parts[0]
    else parts[0] + [sep] + Join(parts[1..], sep)
  }

  /** `s.split(sep)`: the maximal separator-free pieces, at least one. */
  function Split(s: string, sep: char): (r: seq<string>)
    ensures |r| >= 1
    decreases |s|
  {
    if s == [] then [""]
    else if s[0] == sep then [""] + Split(s[1..], sep)
    else
      var rest := Split(s[1..], sep);
      [[s[0]] + rest[0]] + rest[1..]
  }

  lemma {:induction false} SplitNoSep(a: string, sep: char)
    requires sep !in a
    ensures Split(a, sep) == [a]
    decreases |a|
  {
    if a != [] {
      SplitNoSep(a[1..], sep);
      assert [a[0]] + a[1..] == a;
    }
  }

  lemma {:induction false} SplitPiece(a: string, sep: char, b: string)
    requires sep !in a
    ensures Split(a + [sep] + b, sep) == [a] + Split(b, sep)
    decreases |a|
  {
    if a == [] {
      assert a + [sep] + b == [sep] + b;
      assert ([sep] + b)[1..] == b;
    } else {
      var s := a + [sep] + b;
      assert s[0] == a[0];
      assert s[1..] == a[1..] + [sep] + b;
      SplitPiece(a[1..], sep, b);
      assert [a[0]] + a[1..] == a;
    }
  }

  /** Splitting a join gives the pieces back when no piece holds the separator. */
  lemma {:induction false} SplitJoin(parts: seq<string>, sep: char)
    requires |parts| >= 1
    requires forall k :: 0 <= k < |parts| ==> sep !in parts[k]
    ensures Split(Join(parts, sep), sep) == parts
    decreases |parts|
  {
    if |parts| == 1 {
      SplitNoSep(parts[0], sep);
    } else {
      SplitJoin(parts[1..], sep);
      SplitPiece(parts[0], sep, Join(parts[1..], sep));
      assert [parts[0]] + parts[1..] == parts;
    }
  }

  // ---------------------------------------------------------------- UTF-8

  /** Bytes UTF-8 spends on one code point. */
  function Utf8Width(c: char): (w: nat)
    ensures 1 <= w <= 4
  {
    if c as int < 0x80 then 1
    else if c as int < 0x800 then 2
    else if c as int < 0x10000 then 3
    else 4
  }

  /** `len(s.encode())`. */
  function Utf8Length(s: string): (n: nat)
    ensures |s| <= n <= 4 * |s|
    decreases |s|
  {
    if s == [] then 0 else Utf8Length(s[..|s| - 1]) + Utf8Width(s[|s| - 1])
  }

  // ------------------------------------------------------- strip and search

  /** Python's `str.isspace()` for one character. */
  predicate IsSpace(c: char) {
    var k := c as int;
    (9 <= k <= 13) || (0x1c <= k <= 0x20) || k == 0x85 || k == 0xa0 || k == 0x1680
    || (0x2000 <= k <= 0x200a) || k == 0x2028 || k == 0x2029 || k == 0x202f
    || k == 0x205f || k == 0x3000
  }

  function StripLeft(s: string): (r: string)
    ensures |r| <= |s| && r == s[|s| - |r|..]
    ensures r == [] || !IsSpace(r[0])
    ensures forall j :: 0 <= j < |s| - |r| ==> IsSpace(s[j])
    decreases |s|
  {
    if s != [] && IsSpace(s[0]) then StripLeft(s[1..]) else s
  }

  function StripRight(s: string): (r: string)
    ensures |r| <= |s| && r == s[..|r|]
    ensures r == [] || !IsSpace(r[|r| - 1])
    ensures forall j :: |r| <= j < |s| ==> IsSpace(s[j])
    decreases |s|
  {
    if s != [] && IsSpace(s[|s| - 1]) then StripRight(s[..|s| - 1]) else s
  }

  /** `s.strip()`: no surrounding white space is left. */
  function Strip(s: string): (r: string)
    ensures r == [] || (!IsSpace(r[0]) && !IsSpace(r[|r| - 1]))
  {
    StripRight(StripLeft(s))
  }

  /** `r` is the part of `s` starting at `i`, with only white space before
      and after it. */
  predicate TrimmedAt(s: string, r: string, i: int) {
    0 <= i <= |s| - |r| && r == s[i..i + |r|]
    && (forall k :: 0 <= k < i ==> IsSpace(s[k]))
    && (forall k :: i + |r| <= k < |s| ==> IsSpace(s[k]))
  }

  /** Removing white space from the front and then from the back leaves a
      piece of the original with only white space around it. */
  lemma TrimmedInTwoSteps(s: string, left: string, r: string)
    requires |left| <= |s| && left == s[|s| - |left|..]
    requires forall k :: 0 <= k < |s| - |left| ==> IsSpace(s[k])
    requires |r| <= |left| && r == left[..|r|]
    requires forall k :: |r| <= k < |left| ==> IsSpace(left[k])
    ensures TrimmedAt(s, r, |s| - |left|)
  {
    var i := |s| - |left|;
    assert r == s[i..i + |r|];
    forall k | i + |r| <= k < |s|
      ensures IsSpace(s[k])
    {
      assert s[k] == left[k - i];
    }
  }

  /** `strip()` removes exactly the white space at both ends: the result is
      a piece of `s` with only white space around it, and it neither starts
      nor ends with white space. */
  lemma StripMeaning(s: string)
    ensures TrimmedAt(s, Strip(s), |s| - |StripLeft(s)|)
  {
    TrimmedInTwoSteps(s, StripLeft(s), StripRight(StripLeft(s)));
  }

  predicate StartsWith(s: string, p: string) {
    |p| <= |s| && s[..|p|] == p
  }

  predicate OccursAt(s: string, sub: string, i: int) {
    0 <= i <= |s| - |sub| && s[i..i + |sub|] == sub
  }

  /** `sub in s`. */
  predicate Contains(s: string, sub: string) {
    exists i | 0 <= i <= |s| :: OccursAt(s, sub, i)
  }

  /** A string mapped character by character, as a case folding does. */
  function MapChars(s: string, f: char -> char): (r: string)
    ensures |r| == |s| && forall i :: 0 <= i < |s| ==> r[i] == f(s[i])
  {
    seq(|s|, i requires 0 <= i < |s| => f(s[i]))
  }
}
