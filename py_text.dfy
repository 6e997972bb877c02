/** The parts of Python's `str` type that the scripts rely on: `isspace` and
    `strip`, `isdigit` and `int(...)` on digit strings, `str(...)` of an
    integer, `lower`, the `ljust`/`rjust`/`center` padding of format
    specifications, repetition and `join`. */
module PyText {

  /** Python's `str.isspace()` for one character: the ASCII separators and
      controls U+0009..U+000D, U+001C..U+001F, the space, and the Unicode space
      characters. */
  predicate IsSpace(c: char) {
    || ('\t' <= c <= '\r')
    || ('\U{1C}' <= c <= '\U{1F}')
    || c == ' ' || c == '\U{85}' || c == '\U{A0}' || c == '\U{1680}'
    || ('\U{2000}' <= c <= '\U{200A}')
    || c == '\U{2028}' || c == '\U{2029}' || c == '\U{202F}' || c == '\U{205F}' || c == '\U{3000}'
  }

  /** Every character of `s` is whitespace (true of the empty string). */
  predicate AllSpace(s: string) {
    forall i :: 0 <= i < |s| ==> IsSpace(s[i])
  }

  /** `s.lstrip()`: drops the leading whitespace. */
  function StripLeft(s: string): string {
    if s != [] && IsSpace(s[0]) then StripLeft(s[1..]) else s
  }

  /** `s.rstrip()`: drops the trailing whitespace. */
  function StripRight(s: string): string {
    if s != [] && IsSpace(s[|s| - 1]) then StripRight(s[..|s| - 1]) else s
  }

  /** `s.strip()`. */
  function Strip(s: string): string {
    StripRight(StripLeft(s))
  }

  /** `lstrip` removes a prefix made of whitespace only, and what remains
      does not start with whitespace. */
  lemma {:induction false} StripLeftShape(s: string)
    ensures |StripLeft(s)| <= |s| && StripLeft(s) == s[|s| - |StripLeft(s)|..]
    ensures AllSpace(s[..|s| - |StripLeft(s)|])
    ensures StripLeft(s) != [] ==> !IsSpace(StripLeft(s)[0])
  {
    if s != [] && IsSpace(s[0]) {
      StripLeftShape(s[1..]);
      var r := StripLeft(s);
      assert s[..|s| - |r|] == [s[0]] + s[1..][..|s| - 1 - |r|];
    }
  }

  /** `rstrip` removes a suffix made of whitespace only, and what remains
      does not end with whitespace. */
  lemma {:induction false} StripRightShape(s: string)
    ensures |StripRight(s)| <= |s| && StripRight(s) == s[..|StripRight(s)|]
    ensures AllSpace(s[|StripRight(s)|..])
    ensures StripRight(s) != [] ==> !IsSpace(StripRight(s)[|StripRight(s)| - 1])
  {
    if s != [] && IsSpace(s[|s| - 1]) {
      var t := s[..|s| - 1];
      StripRightShape(t);
      var r := StripRight(s);
      assert s[|r|..] == t[|r|..] + [s[|s| - 1]];
    }
  }

  /** `s.strip()` is empty exactly when `s` consists of whitespace only. */
  lemma StripEmptyIffAllSpace(s: string)
    ensures Strip(s) == [] <==> AllSpace(s)
  {
    var t := StripLeft(s);
    StripLeftShape(s);
    StripRightShape(t);
    var k := |s| - |t|;
    if Strip(s) == [] {
      assert t[0..] == t;
      assert t == [];
      assert s[..k] == s;
    } else {
      var r := Strip(s);
      assert !IsSpace(r[0]);
      assert r[0] == t[0] == s[k];
    }
  }

  predicate IsDigit(c: char) {
    '0' <= c <= '9'
  }

  /** `s.isdigit()` over ASCII digits: non-empty and made of digits only. */
  predicate IsDigits(s: string) {
    |s| > 0 && forall i :: 0 <= i < |s| ==> IsDigit(s[i])
  }

  function DigitValue(c: char): nat
    requires IsDigit(c)
  {
    (c as int) - ('0' as int)
  }

  function DigitChar(d: nat): char
    requires d < 10
  {
    "0123456789"[d]
  }

  /** `int(s)` for a string of decimal digits. */
  function DigitsValue(s: string): nat
    requires forall i :: 0 <= i < |s| ==> IsDigit(s[i])
  {
    if s == [] then 0
    else DigitsValue(s[..|s| - 1]) * 10 + DigitValue(s[|s| - 1])
  }

  /** `str(n)` for a non-negative integer: its decimal digits, no leading zeros. */
  function NatDigits(n: nat): string
  {
    if n < 10 then [DigitChar(n)] else NatDigits(n / 10) + [DigitChar(n % 10)]
  }

  /** `str(i)` for any integer. */
  function Decimal(i: int): string
  {
    if i < 0 then "-" + NatDigits(-i) else NatDigits(i)
  }

  /** `int(str(n)) == n`: the decimal rendering of a natural number is a digit
      string that reads back as the same number. */
  lemma {:induction false} NatDigitsRoundTrip(n: nat)
    ensures IsDigits(NatDigits(n))
    ensures DigitsValue(NatDigits(n)) == n
  {
    if n >= 10 {
      NatDigitsRoundTrip(n / 10);
      var s := NatDigits(n);
      assert s[..|s| - 1] == NatDigits(n / 10);
      assert s[|s| - 1] == DigitChar(n % 10);
    }
  }

  /** `str(i).isdigit()` holds exactly for the non-negative integers, and then
      `int(str(i)) == i`. */
  lemma DecimalDigits(i: int)
    ensures IsDigits(Decimal(i)) <==> i >= 0
    ensures i >= 0 ==> DigitsValue(Decimal(i)) == i
  {
    if i >= 0 {
      NatDigitsRoundTrip(i);
    } else {
      assert Decimal(i)[0] == '-';
    }
  }

  /** `str(i)` starts with '-' exactly for the negative integers. */
  lemma DecimalSign(i: int)
    ensures |Decimal(i)| > 0
    ensures Decimal(i)[0] == '-' <==> i < 0
  {
    if i >= 0 {
      NatDigitsRoundTrip(i);
      assert IsDigit(Decimal(i)[0]);
    }
  }

  /** Different integers have different decimal renderings. */
  lemma DecimalInjective(i: int, j: int)
    requires Decimal(i) == Decimal(j)
    ensures i == j
  {
    DecimalSign(i);
    DecimalSign(j);
    if i < 0 {
      assert NatDigits(-i) == Decimal(i)[1..];
      assert NatDigits(-j) == Decimal(j)[1..];
      NatDigitsInjective(-i, -j);
    } else {
      NatDigitsInjective(i, j);
    }
  }

  lemma NatDigitsInjective(m: nat, n: nat)
    requires NatDigits(m) == NatDigits(n)
    ensures m == n
  {
    NatDigitsRoundTrip(m);
    NatDigitsRoundTrip(n);
  }

  /** `c.lower()` for an ASCII letter; other characters are left as they are. */
  function LowerChar(c: char): char {
    if 'A' <= c <= 'Z' then (c as int + 32) as char else c
  }

  /** `s.lower()`, character by character. */
  function Lower(s: string): (r: string)
    ensures |r| == |s|
    ensures forall i :: 0 <= i < |s| ==> r[i] == LowerChar(s[i])
  {
    seq(|s|, i requires 0 <= i < |s| => LowerChar(s[i]))
  }

  /** `c * n` for a one-character string `c`. */
  function Repeat(c: char, n: nat): (r: string)
    ensures |r| == n
  {
    if n == 0 then [] else [c] + Repeat(c, n - 1)
  }

  /** Every character of `c * n` is `c`. */
  lemma {:induction false} RepeatChars(c: char, n: nat)
    ensures forall i :: 0 <= i < n ==> Repeat(c, n)[i] == c
  {
    if n > 0 {
      RepeatChars(c, n - 1);
    }
  }

  /** `f"{s:<w}"` and `s.ljust(w)`: pads with spaces on the right up to width `w`. */
  function PadRight(s: string, w: int): string
    decreases w - |s|
  {
    if |s| < w then PadRight(s + " ", w) else s
  }

  /** `f"{s:>w}"` and `s.rjust(w)`: pads with spaces on the left up to width `w`. */
  function PadLeft(s: string, w: int): string
    decreases w - |s|
  {
    if |s| < w then PadLeft(" " + s, w) else s
  }

  /** Left alignment keeps `s` in front and fills the rest of the width with
      spaces; right alignment keeps `s` at the end, spaces before it. */
  lemma {:induction false} PadShape(s: string, w: int)
    decreases w - |s|
    ensures |PadRight(s, w)| == |PadLeft(s, w)| == if |s| < w then w else |s|
    ensures PadRight(s, w)[..|s|] == s && AllSpace(PadRight(s, w)[|s|..])
    ensures PadLeft(s, w)[|PadLeft(s, w)| - |s|..] == s && AllSpace(PadLeft(s, w)[..|PadLeft(s, w)| - |s|])
  {
    if |s| < w {
      PadShape(s + " ", w);
      PadShape(" " + s, w);
      var r := PadRight(s, w);
      assert r[..|s| + 1] == s + " ";
      assert r[..|s|] == (s + " ")[..|s|] == s;
      assert r[|s|..] == [' '] + r[|s| + 1..];
      var l := PadLeft(s, w);
      assert l[|l| - |s| - 1..] == " " + s;
      assert l[|l| - |s|..] == (" " + s)[1..] == s;
      assert l[..|l| - |s|] == l[..|l| - |s| - 1] + [' '];
    }
  }

  /** `s.center(w)` as CPython computes it: the left margin is half the
      padding, plus one when both the padding and the width are odd. */
  function Center(s: string, w: int): string {
    if |s| >= w then s
    else
      var margin := w - |s|;
      var left := margin / 2 + (if margin % 2 == 1 && w % 2 == 1 then 1 else 0);
      Repeat(' ', left) + s + Repeat(' ', margin - left)
  }

  /** `sep.join(parts)`. */
  function Join(sep: string, parts: seq<string>): string
  {
    if |parts| == 0 then ""
    else if |parts| == 1 then parts[0]
    else Join(sep, parts[..|parts| - 1]) + sep + parts[|parts| - 1]
  }

  /** `sep.join(parts)` opens with the first part and closes with the last. */
  lemma {:induction false} JoinEnds(sep: string, parts: seq<string>)
    requires |parts| >= 1
    ensures |Join(sep, parts)| >= |parts[0]| && Join(sep, parts)[..|parts[0]|] == parts[0]
    ensures |Join(sep, parts)| >= |parts[|parts| - 1]|
    ensures Join(sep, parts)[|Join(sep, parts)| - |parts[|parts| - 1]|..] == parts[|parts| - 1]
  {
    if |parts| > 1 {
      var init := parts[..|parts| - 1];
      JoinEnds(sep, init);
      assert init[0] == parts[0];
      var j := Join(sep, init);
      assert Join(sep, parts) == j + sep + parts[|parts| - 1];
      assert (j + sep + parts[|parts| - 1])[..|parts[0]|] == j[..|parts[0]|];
    }
  }
}
