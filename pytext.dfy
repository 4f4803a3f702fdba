/**
 * The Python `str` operations the core relies on, over `seq<char>`.
 * Character classes are those of Python for the characters the model covers:
 * digits and letters are the ASCII ones, whitespace and line breaks are
 * Python's full sets.
 */
module PyText {
  import opened Wrappers
  import opened Sequences

  predicate IsDigit(c: char) {
    '0' <= c <= '9'
  }

  predicate IsAsciiLetter(c: char) {
    'a' <= c <= 'z' || 'A' <= c <= 'Z'
  }

  /** The characters `str.isspace` accepts (and `str.strip` removes), by code point. */
  predicate IsSpace(c: char) {
    var n := c as int;
    (0x09 <= n <= 0x0D) || (0x1C <= n <= 0x20) || n == 0x85 || n == 0xA0 || n == 0x1680
    || (0x2000 <= n <= 0x200A) || n == 0x2028 || n == 0x2029 || n == 0x202F || n == 0x205F
    || n == 0x3000
  }

  /** The characters `str.splitlines` breaks at, by code point. */
  predicate IsLineBreak(c: char) {
    var n := c as int;
    (0x0A <= n <= 0x0D) || (0x1C <= n <= 0x1E) || n == 0x85 || n == 0x2028 || n == 0x2029
  }

  function AllDigits(s: string): bool {
    forall i :: 0 <= i < |s| ==> IsDigit(s[i])
  }

  function LStrip(s: string): (r: string)
    ensures IsSuffix(r, s)
    ensures r == [] || !IsSpace(r[0])
  {
    if s != [] && IsSpace(s[0]) then LStrip(s[1..]) else s
  }

  function RStrip(s: string): (r: string)
    ensures r <= s
    ensures r == [] || !IsSpace(r[|r| - 1])
  {
    if s != [] && IsSpace(s[|s| - 1]) then RStrip(s[..|s| - 1]) else s
  }

  /** `s.strip()`: a slice of `s` with no whitespace at either end. */
  function Strip(s: string): (r: string)
    ensures |r| <= |s|
    ensures r == [] || (!IsSpace(r[0]) && !IsSpace(r[|r| - 1]))
  {
    var l := LStrip(s);
    var r := RStrip(l);
    assert r != [] ==> r[0] == l[0];
    r
  }

  function UpperChar(c: char): char {
    if 'a' <= c <= 'z' then (c as int - 32) as char else c
  }

  function LowerChar(c: char): char {
    if 'A' <= c <= 'Z' then (c as int + 32) as char else c
  }

  function Upper(s: string): (r: string)
    ensures |r| == |s| && forall i :: 0 <= i < |s| ==> r[i] == UpperChar(s[i])
  {
    if s == [] then [] else [UpperChar(s[0])] + Upper(s[1..])
  }

  function Lower(s: string): (r: string)
    ensures |r| == |s| && forall i :: 0 <= i < |s| ==> r[i] == LowerChar(s[i])
  {
    if s == [] then [] else [LowerChar(s[0])] + Lower(s[1..])
  }

  predicate StartsWith(s: string, prefix: string) {
    |prefix| <= |s| && s[..|prefix|] == prefix
  }

  /** Python's `sub in s`. */
  predicate Contains(s: string, sub: string)
    decreases |s|
  {
    StartsWith(s, sub) || (s != [] && Contains(s[1..], sub))
  }

  /** The first index holding `c`, or `|s|` when there is none. */
  function IndexOf(s: string, c: char): (i: nat)
    ensures i <= |s| && (i < |s| ==> s[i] == c)
    ensures forall k :: 0 <= k < i ==> s[k] != c
  {
    if s == [] then 0 else if s[0] == c then 0 else 1 + IndexOf(s[1..], c)
  }

  /** `s.split(c, 1)[0]`: everything before the first `c`. */
  function BeforeFirst(s: string, c: char): (r: string)
    ensures c !in r && StartsWith(s, r)
    ensures |r| < |s| ==> s[|r|] == c
  {
    s[..IndexOf(s, c)]
  }

  /** The index of the first line break of `s`, or `|s|`. */
  function LineEnd(s: string): (i: nat)
    ensures i <= |s| && (i < |s| ==> IsLineBreak(s[i]))
    ensures forall k :: 0 <= k < i ==> !IsLineBreak(s[k])
  {
    if s == [] || IsLineBreak(s[0]) then 0 else 1 + LineEnd(s[1..])
  }

  /** `s.splitlines()`: `\r\n` is one break, and a final break opens no empty line. */
  function SplitLines(s: string): (lines: seq<string>)
    ensures forall j, k :: 0 <= j < |lines| && 0 <= k < |lines[j]| ==> !IsLineBreak(lines[j][k])
    decreases |s|
  {
    if s == [] then []
    else
      var i := LineEnd(s);
      if i == |s| then [s]
      else
        var next := if s[i] == '\r' && i + 1 < |s| && s[i + 1] == '\n' then i + 2 else i + 1;
        [s[..i]] + SplitLines(s[next..])
  }

  /** `"\n".join(lines)`. */
  function JoinLines(lines: seq<string>): string {
    if lines == [] then ""
    else if |lines| == 1 then lines[0]
    else lines[0] + "\n" + JoinLines(lines[1..])
  }

  /** Every place where a line of `s` begins: the start and each position after a `\n`. */
  predicate LineStart(s: string, i: int) {
    0 <= i <= |s| && (i == 0 || s[i - 1] == '\n')
  }

  /**
   * Joining lines that hold no line break and do not start with `prefix`
   * (which holds no `\n`) gives a text in which no line starts with `prefix`.
   */
  lemma {:induction false} JoinedLinesAvoidPrefix(lines: seq<string>, prefix: string, i: int)
    requires '\n' !in prefix && prefix != []
    requires forall j :: 0 <= j < |lines| ==> '\n' !in lines[j] && !StartsWith(lines[j], prefix)
    requires LineStart(JoinLines(lines), i)
    ensures !StartsWith(JoinLines(lines)[i..], prefix)
    decreases |lines|
  {
    var t := JoinLines(lines);
    if |lines| >= 2 {
      var head, rest := lines[0], JoinLines(lines[1..]);
      assert t == head + "\n" + rest;
      if i == 0 {
        if |prefix| <= |head| {
          assert t[..|prefix|] == head[..|prefix|];
        } else {
          assert t[|head|] == '\n';
        }
      } else if i > |head| {
        assert t[i..] == rest[i - |head| - 1..];
        assert i - |head| - 1 == 0 || rest[i - |head| - 2] == t[i - 1];
        JoinedLinesAvoidPrefix(lines[1..], prefix, i - |head| - 1);
      }
    }
  }

  function DigitValue(c: char): nat
    requires IsDigit(c)
  {
    c as int - '0' as int
  }

  /** The number a string of decimal digits denotes (`int(s)`). */
  function DigitsValue(s: string): nat
    requires AllDigits(s)
  {
    if s == [] then 0 else DigitsValue(s[..|s| - 1]) * 10 + DigitValue(s[|s| - 1])
  }

  /** `str(n)` for a natural number. */
  function NatToString(n: nat): (s: string)
    ensures s != [] && AllDigits(s)
  {
    if n < 10 then [('0' as int + n) as char]
    else NatToString(n / 10) + [('0' as int + n % 10) as char]
  }

  lemma {:induction false} NatToStringRoundTrip(n: nat)
    ensures DigitsValue(NatToString(n)) == n
  {
    if n >= 10 {
      NatToStringRoundTrip(n / 10);
      var s := NatToString(n);
      assert s[..|s| - 1] == NatToString(n / 10);
    }
  }

  /** `str(i)` for an integer. */
  function IntToString(i: int): string {
    if i < 0 then "-" + NatToString(-i) else NatToString(i)
  }

  function Pow10(n: nat): (r: nat)
    ensures r >= 1
  {
    if n == 0 then 1 else 10 * Pow10(n - 1)
  }

  /**
   * `float(s)` for a string made of decimal digits around at most one `.`:
   * `"12"`, `"12.5"`, `"12."`, `".5"`.  Anything else (no digit, a second `.`,
   * a character that is neither) makes `float` raise, which is `None` here.
   */
  function ParseDecimal(s: string): (r: Option<real>)
    ensures r.Some? ==> r.value >= 0.0
  {
    var dot := IndexOf(s, '.');
    var whole := s[..dot];
    var frac := if dot < |s| then s[dot + 1..] else "";
    if AllDigits(whole) && AllDigits(frac) && (whole != [] || frac != []) then
      Some(DigitsValue(whole) as real + DigitsValue(frac) as real / Pow10(|frac|) as real)
    else None
  }

  lemma ParseDecimalOfNat(n: nat)
    ensures ParseDecimal(NatToString(n)) == Some(n as real)
  {
    var s := NatToString(n);
    assert IndexOf(s, '.') == |s|;
    assert s[..|s|] == s;
    NatToStringRoundTrip(n);
  }

  /**
   * `float(s)` for decimal text: surrounding whitespace and one optional sign
   * around ParseDecimal's form.  Exponents, `inf`/`nan` and `_` separators are
   * not covered and read as text `float` rejects.
   */
  function ParseFloat(s: string): Option<real> {
    var t := Strip(s);
    var signed := t != [] && (t[0] == '-' || t[0] == '+');
    var negative := signed && t[0] == '-';
    match ParseDecimal(if signed then t[1..] else t)
    case Some(v) => Some(if negative then -v else v)
    case None => None
  }

  /** Plain digit text reads as the number it spells. */
  lemma ParseFloatOfDigits(s: string)
    requires AllDigits(s) && s != []
    ensures ParseFloat(s) == Some(DigitsValue(s) as real)
  {
    StripOfDigits(s);
    ParseDecimalOfDigits(s);
    var t := Strip(s);
    assert t[0] != '-' && t[0] != '+' by {
      assert IsDigit(t[0]);
    }
  }

  /** Digit text has no whitespace to strip. */
  lemma StripOfDigits(s: string)
    requires AllDigits(s) && s != []
    ensures Strip(s) == s
  {
    assert !IsSpace(s[0]) && !IsSpace(s[|s| - 1]);
    assert LStrip(s) == s;
  }

  /** Digit text with no `.` has an empty fraction. */
  lemma ParseDecimalOfDigits(s: string)
    requires AllDigits(s) && s != []
    ensures ParseDecimal(s) == Some(DigitsValue(s) as real)
  {
    assert IndexOf(s, '.') == |s|;
    assert s[..|s|] == s;
    assert DigitsValue("") == 0 && Pow10(0) == 1;
  }
}
