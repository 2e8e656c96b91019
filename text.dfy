/** The JavaScript string and number built-ins the helpers rely on, for the
    inputs they are given here: the decimal text of a non-negative integer
    (`Number.prototype.toString`), `padStart`, `trim`, `includes` and a
    first-index search. Strings are sequences of characters. */
module Text {
  import opened Options

  predicate IsDigit(c: char) {
    '0' <= c <= '9'
  }

  predicate IsDigits(s: string) {
    forall i :: 0 <= i < |s| ==> IsDigit(s[i])
  }

  function DigitValue(c: char): (d: nat)
    requires IsDigit(c)
    ensures d < 10
  {
    c as int - '0' as int
  }

  function DigitChar(d: nat): (c: char)
    requires d < 10
    ensures IsDigit(c) && DigitValue(c) == d
  {
    ('0' as int + d) as char
  }

  /** A decimal numeral as `Number.prototype.toString` writes it: at least
      one digit, and no leading zero unless it is the only digit. */
  predicate IsCanonical(s: string) {
    1 <= |s| && IsDigits(s) && (|s| > 1 ==> s[0] != '0')
  }

  /** The value of a string of decimal digits (leading zeros allowed). */
  function ParseDecimal(s: string): nat
    requires IsDigits(s)
  {
    if s == [] then 0 else ParseDecimal(s[..|s| - 1]) * 10 + DigitValue(s[|s| - 1])
  }

  /** The decimal text of a non-negative integer: at least one digit, no
      leading zero except for "0" itself, and it reads back as `n`. */
  function DecimalString(n: nat): (r: string)
    ensures IsCanonical(r) && ParseDecimal(r) == n
  {
    if n < 10 then
      [DigitChar(n)]
    else
      var front := DecimalString(n / 10);
      assert front[0] != '0';
      assert (front + [DigitChar(n % 10)])[..|front|] == front;
      front + [DigitChar(n % 10)]
  }

  /** A digit character is the character of its own value. */
  lemma DigitCharValue(c: char)
    requires IsDigit(c)
    ensures DigitChar(DigitValue(c)) == c
  {
  }

  /** The value of a two-digit string. */
  lemma TwoDigitValue(a: char, b: char)
    requires IsDigit(a) && IsDigit(b)
    ensures IsDigits([a, b]) && ParseDecimal([a, b]) == DigitValue(a) * 10 + DigitValue(b)
  {
    assert [a, b][..1] == [a];
    assert [a][..0] == [];
    assert ParseDecimal([a]) == DigitValue(a);
  }

  /** A canonical decimal text is the only one with its value. */
  lemma {:induction false} DecimalUnique(s: string, n: nat)
    requires IsCanonical(s)
    requires ParseDecimal(s) == n
    ensures DecimalString(n) == s
    decreases |s|
  {
    if |s| == 1 {
      assert s[..0] == [];
      assert n == DigitValue(s[0]);
    } else {
      var front := s[..|s| - 1];
      assert front[0] == s[0];
      DecimalUnique(front, ParseDecimal(front));
      assert n / 10 == ParseDecimal(front);
      assert DigitChar(n % 10) == s[|s| - 1];
      assert s == front + [s[|s| - 1]];
    }
  }

  function Repeat(c: char, count: nat): (r: string)
    ensures |r| == count && forall i :: 0 <= i < count ==> r[i] == c
  {
    seq(count, _ => c)
  }

  /** `s.padStart(width, fill)` for a one-character fill string: the text
      is kept, and filled on the left up to `width` characters. */
  function PadStart(s: string, width: nat, fill: char): (r: string)
    ensures |r| == if |s| >= width then |s| else width
    ensures r[|r| - |s|..] == s
    ensures forall i :: 0 <= i < |r| - |s| ==> r[i] == fill
  {
    if |s| >= width then s else Repeat(fill, width - |s|) + s
  }

  /** A number below one hundred, padded to two characters with zeros, is
      its tens digit followed by its units digit. */
  lemma PadStartTwoDigits(n: nat)
    requires n < 100
    ensures PadStart(DecimalString(n), 2, '0') == [DigitChar(n / 10), DigitChar(n % 10)]
  {
    if n < 10 {
      assert DecimalString(n) == [DigitChar(n)];
      assert Repeat('0', 1) == [DigitChar(0)];
    } else {
      assert DecimalString(n / 10) == [DigitChar(n / 10)];
    }
  }

  /** The white space that both the regular-expression class `\s` and
      `String.prototype.trim` recognise: ECMAScript's WhiteSpace (tab,
      vertical tab, form feed, the byte-order mark and the Unicode space
      separators) and LineTerminator characters. */
  predicate IsSpace(c: char) {
    || c == '\t' || c == '\n' || c == '\U{000B}' || c == '\U{000C}' || c == '\r'
    || c == ' ' || c == '\U{00A0}' || c == '\U{1680}' || '\U{2000}' <= c <= '\U{200A}'
    || c == '\U{2028}' || c == '\U{2029}' || c == '\U{202F}' || c == '\U{205F}'
    || c == '\U{3000}' || c == '\U{FEFF}'
  }

  /** `s` with its leading white space removed. */
  function TrimStart(s: string): (r: string)
    ensures |r| <= |s| && r == s[|s| - |r|..]
    ensures r == [] || !IsSpace(r[0])
    ensures forall i :: 0 <= i < |s| - |r| ==> IsSpace(s[i])
  {
    if s != [] && IsSpace(s[0]) then TrimStart(s[1..]) else s
  }

  /** `s` with its trailing white space removed. */
  function TrimEnd(s: string): (r: string)
    ensures |r| <= |s| && r == s[..|r|]
    ensures r == [] || !IsSpace(r[|r| - 1])
    ensures forall i :: |r| <= i < |s| ==> IsSpace(s[i])
  {
    if s != [] && IsSpace(s[|s| - 1]) then TrimEnd(s[..|s| - 1]) else s
  }

  /** `s.trim()`: neither end of the result is white space. */
  function Trim(s: string): (r: string)
    ensures |r| <= |s|
    ensures r == [] || (!IsSpace(r[0]) && !IsSpace(r[|r| - 1]))
  {
    TrimEnd(TrimStart(s))
  }

  /** `s.trim()` is a slice of `s` with only white space around it. */
  lemma TrimAround(s: string)
    ensures exists a :: SpaceAround(s, a, Trim(s))
  {
    var t := TrimStart(s);
    SliceOfSlice(s, t, TrimEnd(t));
    assert SpaceAround(s, |s| - |t|, Trim(s));
  }

  /** A prefix `r` of a suffix `t` of `s`, where only white space was cut
      off each time, sits in `s` with only white space around it. */
  lemma SliceOfSlice(s: string, t: string, r: string)
    requires |t| <= |s| && t == s[|s| - |t|..]
    requires forall i :: 0 <= i < |s| - |t| ==> IsSpace(s[i])
    requires |r| <= |t| && r == t[..|r|]
    requires forall i :: |r| <= i < |t| ==> IsSpace(t[i])
    ensures SpaceAround(s, |s| - |t|, r)
  {
    var a := |s| - |t|;
    forall i | a + |r| <= i < |s|
      ensures IsSpace(s[i])
    {
      assert s[i] == t[i - a];
    }
  }

  /** `r` sits in `s` at offset `a`, with only white space before and
      after it. */
  predicate SpaceAround(s: string, a: int, r: string) {
    0 <= a <= |s| - |r| && r == s[a..a + |r|]
    && (forall i :: 0 <= i < a ==> IsSpace(s[i]))
    && (forall i :: a + |r| <= i < |s| ==> IsSpace(s[i]))
  }

  predicate StartsWith(s: string, prefix: string) {
    |prefix| <= |s| && s[..|prefix|] == prefix
  }

  /** `s.includes(part)`. */
  predicate Contains(s: string, part: string)
    decreases |s|
  {
    StartsWith(s, part) || (s != [] && Contains(s[1..], part))
  }

  /** The index of the first `c` in `s`, if there is one. */
  function IndexOf(s: string, c: char): (r: Option<nat>)
    ensures r.Some? ==> r.value < |s| && s[r.value] == c
    ensures r.Some? ==> forall i :: 0 <= i < r.value ==> s[i] != c
    ensures r.None? ==> forall i :: 0 <= i < |s| ==> s[i] != c
  {
    if s == [] then None
    else if s[0] == c then Some(0)
    else match IndexOf(s[1..], c)
      case None => None
      case Some(i) =>
        assert s[..i + 1] == [s[0]] + s[1..][..i];
        Some(i + 1)
  }

  /** The first `c` is the one after a prefix free of `c`. */
  lemma IndexOfAfter(front: string, c: char, back: string)
    requires forall i :: 0 <= i < |front| ==> front[i] != c
    ensures IndexOf(front + [c] + back, c) == Some(|front|)
  {
    var s := front + [c] + back;
    assert s[|front|] == c;
    assert s[..|front|] == front;
  }
}
