/**
  The Python string built-ins the session code relies on: `str.strip()`,
  `bytes.strip()`, `str.upper()`, `str.split(sep)`, `sep.join(parts)`,
  `int(text)` and the decimal rendering of a non-negative `int`.
 */
module Text {
  import opened Base

  /** The characters `str.isspace()` accepts, i.e. what `str.strip()` removes. */
  predicate IsSpace(c: char) {
    var n := c as int;
    || n == 0x20 || 0x09 <= n <= 0x0D || 0x1C <= n <= 0x1F || n == 0x85 || n == 0xA0
    || n == 0x1680 || 0x2000 <= n <= 0x200A || n == 0x2028 || n == 0x2029
    || n == 0x202F || n == 0x205F || n == 0x3000
  }

  /** The bytes `bytes.strip()` removes: space, tab, LF, VT, FF and CR. */
  predicate IsAsciiSpace(c: char) {
    c == ' ' || 0x09 <= c as int <= 0x0D
  }

  /** Drops the leading characters that satisfy `ws`. */
  function TrimLeft(s: string, ws: char -> bool): string {
    if |s| > 0 && ws(s[0]) then TrimLeft(s[1..], ws) else s
  }

  /**
    `TrimLeft` keeps a suffix, removes only `ws` characters, and stops at the
    first character that is not one. Stated apart from the function so that
    the quantifier is only in scope where a proof asks for it.
   */
  lemma {:induction false} TrimLeftSpec(s: string, ws: char -> bool)
    ensures var r := TrimLeft(s, ws);
      && |r| <= |s| && r == s[|s| - |r|..]
      && (forall i :: 0 <= i < |s| - |r| ==> ws(s[i]))
      && (|r| > 0 ==> !ws(r[0]))
  {
    if |s| > 0 && ws(s[0]) {
      TrimLeftSpec(s[1..], ws);
    }
  }

  /** Drops the trailing characters that satisfy `ws`. */
  function TrimRight(s: string, ws: char -> bool): string {
    if |s| > 0 && ws(s[|s| - 1]) then TrimRight(s[..|s| - 1], ws) else s
  }

  /** `TrimRight` keeps a prefix and removes only trailing `ws` characters. */
  lemma {:induction false} TrimRightSpec(s: string, ws: char -> bool)
    ensures var r := TrimRight(s, ws);
      && |r| <= |s| && r == s[..|r|]
      && (forall i :: |r| <= i < |s| ==> ws(s[i]))
      && (|r| > 0 ==> !ws(r[|r| - 1]))
  {
    if |s| > 0 && ws(s[|s| - 1]) {
      TrimRightSpec(s[..|s| - 1], ws);
    }
  }

  function Trim(s: string, ws: char -> bool): (r: string)
    ensures |r| <= |s|
  {
    TrimLeftSpec(s, ws);
    TrimRightSpec(TrimLeft(s, ws), ws);
    TrimRight(TrimLeft(s, ws), ws)
  }

  /** `str.strip()` with no argument. */
  function Strip(s: string): string {
    Trim(s, IsSpace)
  }

  /** `bytes.strip()` with no argument, on text whose bytes decode one-to-one. */
  function StripAscii(s: string): string {
    Trim(s, IsAsciiSpace)
  }

  /** A string with no `ws` character at either end is left alone by `Trim`. */
  lemma TrimNoop(s: string, ws: char -> bool)
    requires |s| == 0 || (!ws(s[0]) && !ws(s[|s| - 1]))
    ensures Trim(s, ws) == s
  {
  }

  /** `str.upper()` restricted to ASCII letters. */
  function UpperChar(c: char): char {
    if 'a' <= c <= 'z' then (c as int - 32) as char else c
  }

  function Upper(s: string): (r: string)
    ensures |r| == |s|
    ensures forall i :: 0 <= i < |s| ==> r[i] == UpperChar(s[i])
  {
    if |s| == 0 then "" else [UpperChar(s[0])] + Upper(s[1..])
  }

  /** Number of occurrences of `c` in `s`. */
  function Count(s: string, c: char): nat {
    if |s| == 0 then 0 else (if s[0] == c then 1 else 0) + Count(s[1..], c)
  }

  /** `s.split(sep)`: one more piece than there are separators, none containing it. */
  function Split(s: string, sep: char): (parts: seq<string>)
    ensures |parts| == Count(s, sep) + 1
    ensures forall i :: 0 <= i < |parts| ==> sep !in parts[i]
  {
    if |s| == 0 then [""]
    else
      var rest := Split(s[1..], sep);
      if s[0] == sep then [""] + rest
      else [[s[0]] + rest[0]] + rest[1..]
  }

  /** `sep.join(parts)`. */
  function Join(parts: seq<string>, sep: char): string {
    if |parts| == 0 then ""
    else if |parts| == 1 then parts[0]
    else parts[0] + [sep] + Join(parts[1..], sep)
  }

  /** Joining the pieces of a split restores the original text. */
  lemma {:induction false} JoinSplit(s: string, sep: char)
    ensures Join(Split(s, sep), sep) == s
  {
    if |s| > 0 {
      JoinSplit(s[1..], sep);
      var rest := Split(s[1..], sep);
      if s[0] == sep {
        assert Split(s, sep) == [""] + rest;
        assert ([""] + rest)[1..] == rest;
      } else {
        var parts := Split(s, sep);
        assert parts == [[s[0]] + rest[0]] + rest[1..];
        if |rest| > 1 {
          assert parts[1..] == rest[1..];
          assert Join(rest, sep) == rest[0] + [sep] + Join(rest[1..], sep);
        }
      }
    }
  }

  /** Text without the separator is a single piece. */
  lemma {:induction false} SplitNoSeparator(a: string, sep: char)
    requires sep !in a
    ensures Split(a, sep) == [a]
  {
    if |a| > 0 {
      SplitNoSeparator(a[1..], sep);
      assert [a[0]] + a[1..] == a;
    }
  }

  /** Splitting `a + sep + b` yields `a` followed by the pieces of `b`. */
  lemma {:induction false} SplitConcat(a: string, b: string, sep: char)
    requires sep !in a
    ensures Split(a + [sep] + b, sep) == [a] + Split(b, sep)
  {
    var s := a + [sep] + b;
    if |a| == 0 {
      assert s[1..] == b;
    } else {
      assert s[1..] == a[1..] + [sep] + b;
      SplitConcat(a[1..], b, sep);
      assert [a[0]] + a[1..] == a;
    }
  }

  /** Splitting a join of separator-free pieces gives the pieces back. */
  lemma {:induction false} SplitJoin(parts: seq<string>, sep: char)
    requires |parts| > 0
    requires forall i :: 0 <= i < |parts| ==> sep !in parts[i]
    ensures Split(Join(parts, sep), sep) == parts
  {
    if |parts| == 1 {
      SplitNoSeparator(parts[0], sep);
    } else {
      SplitJoin(parts[1..], sep);
      SplitConcat(parts[0], Join(parts[1..], sep), sep);
      assert [parts[0]] + parts[1..] == parts;
    }
  }

  /** `Join` distributes over concatenation of non-empty piece lists. */
  lemma {:induction false} JoinAppend(a: seq<string>, b: seq<string>, sep: char)
    requires |a| > 0 && |b| > 0
    ensures Join(a + b, sep) == Join(a, sep) + [sep] + Join(b, sep)
  {
    if |a| > 1 {
      JoinAppend(a[1..], b, sep);
      assert (a + b)[1..] == a[1..] + b;
    } else {
      assert (a + b)[1..] == b;
    }
  }

  lemma {:induction false} CountAppend(a: string, b: string, c: char)
    ensures Count(a + b, c) == Count(a, c) + Count(b, c)
  {
    if |a| > 0 {
      CountAppend(a[1..], b, c);
      assert (a + b)[1..] == a[1..] + b;
    } else {
      assert a + b == b;
    }
  }

  lemma {:induction false} CountPositive(s: string, c: char)
    requires c in s
    ensures Count(s, c) >= 1
  {
    if s[0] != c {
      CountPositive(s[1..], c);
    }
  }

  predicate IsDigit(c: char) {
    '0' <= c <= '9'
  }

  predicate AllDigits(s: string) {
    forall i :: 0 <= i < |s| ==> IsDigit(s[i])
  }

  function DigitChar(d: nat): (c: char)
    requires d < 10
    ensures IsDigit(c) && c as int - '0' as int == d
  {
    ('0' as int + d) as char
  }

  /** The value of a string of decimal digits, most significant first. */
  function DigitsValue(s: string): nat
    requires AllDigits(s)
  {
    if |s| == 0 then 0
    else DigitsValue(s[..|s| - 1]) * 10 + (s[|s| - 1] as int - '0' as int)
  }

  /** `str(n)` for `n >= 0`: a non-empty digit string whose value is `n`. */
  function NatToString(n: nat): (s: string)
    ensures |s| > 0 && AllDigits(s)
    ensures DigitsValue(s) == n
  {
    if n < 10 then [DigitChar(n)]
    else
      var prefix := NatToString(n / 10);
      var s := prefix + [DigitChar(n % 10)];
      assert s[..|s| - 1] == prefix;
      s
  }

  /**
    `int(text)` on ASCII decimal text: surrounding whitespace is ignored and one
    leading sign is allowed; anything else makes Python raise ValueError (`None`).
   */
  function ParseInt(text: string): Option<int> {
    var t := Strip(text);
    if |t| == 0 then None
    else if t[0] == '-' || t[0] == '+' then
      if |t| > 1 && AllDigits(t[1..]) then
        Some(if t[0] == '-' then 0 - DigitsValue(t[1..]) as int else DigitsValue(t[1..]) as int)
      else None
    else if AllDigits(t) then Some(DigitsValue(t))
    else None
  }

  /** `int(str(n)) == n`: decimal rendering and parsing are inverse. */
  lemma ParseIntOfNatToString(n: nat)
    ensures ParseInt(NatToString(n)) == Some(n)
  {
    var s := NatToString(n);
    TrimNoop(s, IsSpace);
  }
}
