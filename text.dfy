/** Character classes, ASCII case folding and decimal numerals. */
module Text {
  import opened Wrappers

  predicate IsDigit(c: char)
  {
    '0' <= c <= '9'
  }

  /** The characters the model counts as whitespace (the ASCII part of `\s`). */
  predicate IsSpace(c: char)
  {
    c == ' ' || c == '\t' || c == '\n' || c == '\r' || c == '\U{000B}' || c == '\U{000C}'
  }

  function Lower(c: char): char
  {
    if 'A' <= c <= 'Z' then (c as int + 32) as char else c
  }

  /** Equality of two strings when ASCII letters are compared without regard to case. */
  predicate EqualsIgnoreCase(s: string, t: string)
  {
    |s| == |t| && forall i :: 0 <= i < |s| ==> Lower(s[i]) == Lower(t[i])
  }

  predicate AllDigits(s: string)
  {
    forall i :: 0 <= i < |s| ==> IsDigit(s[i])
  }

  function DigitValue(c: char): nat
    requires IsDigit(c)
  {
    c as int - '0' as int
  }

  function DigitChar(d: nat): (c: char)
    requires d < 10
    ensures IsDigit(c) && DigitValue(c) == d
  {
    ('0' as int + d) as char
  }

  /** The value of a string of decimal digits, as Python's `int()` reads it. */
  function NumeralValue(s: string): nat
    requires AllDigits(s)
  {
    if s == [] then 0 else NumeralValue(s[..|s| - 1]) * 10 + DigitValue(s[|s| - 1])
  }

  /** The decimal numeral of a natural number, as Python's `str()` writes it. */
  function NatToString(n: nat): (s: string)
    ensures |s| >= 1 && AllDigits(s)
  {
    if n < 10 then [DigitChar(n)] else NatToString(n / 10) + [DigitChar(n % 10)]
  }

  function IntToString(i: int): string
  {
    if i < 0 then "-" + NatToString(-i) else NatToString(i)
  }

  /** Reading back a written numeral gives the number again. */
  lemma {:induction false} NumeralRoundTrip(n: nat)
    ensures NumeralValue(NatToString(n)) == n
  {
    if n >= 10 {
      var s := NatToString(n);
      assert s[..|s| - 1] == NatToString(n / 10);
      NumeralRoundTrip(n / 10);
    }
  }

  /** The first `n` characters of `s` (Python's `s[:n]`). */
  function Prefix(s: string, n: nat): (r: string)
    ensures |r| <= n && r <= s
    ensures |s| <= n ==> r == s
  {
    if |s| <= n then s else s[..n]
  }

  /** `s.lstrip(c)`: drops every leading occurrence of `c`. */
  function LStrip(s: string, c: char): (r: string)
    ensures |r| <= |s| && r == s[|s| - |r|..]
    ensures forall i :: 0 <= i < |s| - |r| ==> s[i] == c
    ensures r == [] || r[0] != c
  {
    if s != [] && s[0] == c then LStrip(s[1..], c) else s
  }

  /** `s.lower()` restricted to ASCII letters. */
  function LowerString(s: string): (r: string)
    ensures |r| == |s| && forall i :: 0 <= i < |s| ==> r[i] == Lower(s[i])
  {
    if s == [] then [] else [Lower(s[0])] + LowerString(s[1..])
  }

  /** Python's `sub in s`. */
  predicate Contains(s: string, sub: string)
  {
    sub <= s || (s != [] && Contains(s[1..], sub))
  }

  /** `s.strip()` for ASCII whitespace. */
  function Strip(s: string): (r: string)
    ensures |r| <= |s|
    ensures r != [] ==> !IsSpace(r[0]) && !IsSpace(r[|r| - 1])
  {
    if s != [] && IsSpace(s[0]) then Strip(s[1..])
    else if s != [] && IsSpace(s[|s| - 1]) then Strip(s[..|s| - 1])
    else s
  }

  /**
   * Python's `int(s)` on a string: surrounding whitespace, an optional sign
   * and at least one decimal digit; `None` where `int` raises ValueError.
   */
  function ParseInt(s: string): (r: Option<int>)
    ensures AllDigits(s) && s != [] ==> r == Some(NumeralValue(s))
    ensures Strip(s) == [] ==> r.None?
    ensures var t := Strip(s);
            r.Some? <==> (t != [] && AllDigits(t)) || (|t| > 1 && (t[0] == '+' || t[0] == '-') && AllDigits(t[1..]))
    ensures var t := Strip(s);
            |t| > 1 && t[0] == '-' && AllDigits(t[1..]) ==> r == Some(-(NumeralValue(t[1..]) as int))
  {
    var t := Strip(s);
    if t != [] && (t[0] == '+' || t[0] == '-') && |t| > 1 && AllDigits(t[1..]) then
      Some(if t[0] == '-' then -(NumeralValue(t[1..]) as int) else NumeralValue(t[1..]))
    else if t != [] && AllDigits(t) then Some(NumeralValue(t))
    else None
  }

  /** Reading back what `str()` writes for an integer gives the integer. */
  lemma ParseIntRoundTrip(i: int)
    ensures ParseInt(IntToString(i)) == Some(i)
  {
    var n: nat := if i < 0 then -i else i;
    NumeralRoundTrip(n);
    var d := NatToString(n);
    if i < 0 {
      var s := "-" + d;
      assert Strip(s) == s;
      assert s[1..] == d;
    } else {
      assert Strip(d) == d;
    }
  }

  /** A port string with surrounding blanks is read; one with any other extra character is not. */
  lemma PortStrings()
    ensures ParseInt(" 8108 ") == Some(8108)
    ensures ParseInt("80a") == None && ParseInt("8108.0") == None && ParseInt("+") == None && ParseInt("1 2") == None
  {
    assert Strip(" 8108 ") == "8108";
    assert NumeralValue("8108") == 8108 by {
      assert "8108"[..3] == "810" && "810"[..2] == "81" && "81"[..1] == "8" && "8"[..0] == "";
    }
    assert Strip("80a") == "80a" && !IsDigit("80a"[2]);
    assert Strip("8108.0") == "8108.0" && !IsDigit("8108.0"[4]);
    assert Strip("+") == "+";
    assert Strip("1 2") == "1 2" && !IsDigit("1 2"[1]);
  }
}
