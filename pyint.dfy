/**
 * Python's conversions between `int` and `str` in base 10: `str(n)` and
 * `int(s)`, the latter with its tolerance for surrounding whitespace, a sign
 * and single underscores between digits.
 */
module PyInt {
  import opened Wrappers

  predicate IsDigit(c: char)
  {
    '0' <= c <= '9'
  }

  /** The whitespace `int()` strips: ASCII space, tab, newline, return, vertical tab and form feed. */
  predicate IsSpace(c: char)
  {
    c == ' ' || c == '\t' || c == '\n' || c == '\r' || c as int == 11 || c as int == 12
  }

  function DigitChar(d: nat): (c: char)
    requires d < 10
    ensures IsDigit(c)
  {
    ('0' as int + d) as char
  }

  function DigitValue(c: char): (d: nat)
    requires IsDigit(c)
    ensures d < 10 && DigitChar(d) == c
  {
    c as int - '0' as int
  }

  /** `str(n)` for a non-negative Python int: its decimal digits, most significant first. */
  function NatToString(n: nat): (s: string)
    ensures |s| > 0
    ensures forall i :: 0 <= i < |s| ==> IsDigit(s[i])
  {
    if n < 10 then [DigitChar(n)] else NatToString(n / 10) + [DigitChar(n % 10)]
  }

  /** `str(n)` for any Python int. */
  function IntToString(n: int): string
  {
    if n < 0 then "-" + NatToString(-n) else NatToString(n)
  }

  /**
   * The value of a run of digits in which single underscores may separate two
   * digits ("1_000"), or None for anything else: the body of a literal `int()` reads.
   */
  function ParseDigitGroups(s: string): Option<nat>
    decreases |s|
  {
    if |s| == 0 || !IsDigit(s[|s| - 1]) then None
    else if |s| == 1 then Some(DigitValue(s[0]))
    else
      var rest := if s[|s| - 2] == '_' then s[..|s| - 2] else s[..|s| - 1];
      match ParseDigitGroups(rest)
      case None => None
      case Some(v) => Some(v * 10 + DigitValue(s[|s| - 1]))
  }

  function TrimStart(s: string): string
  {
    if |s| > 0 && IsSpace(s[0]) then TrimStart(s[1..]) else s
  }

  function TrimEnd(s: string): string
  {
    if |s| > 0 && IsSpace(s[|s| - 1]) then TrimEnd(s[..|s| - 1]) else s
  }

  /** Python's `s.strip()` with the whitespace of IsSpace. */
  function Strip(s: string): string
  {
    TrimEnd(TrimStart(s))
  }

  /** `int(s)`: the integer `s` spells in base 10, or None where Python raises ValueError. */
  function ParseInt(s: string): (r: Option<int>)
    ensures Strip(s) == "" ==> r.None?
  {
    var t := Strip(s);
    if |t| > 0 && (t[0] == '-' || t[0] == '+') then
      match ParseDigitGroups(t[1..])
      case None => None
      case Some(v) => Some(if t[0] == '-' then -(v as int) else v as int)
    else
      match ParseDigitGroups(t)
      case None => None
      case Some(v) => Some(v as int)
  }

  lemma {:induction false} ParseNatToString(n: nat)
    ensures ParseDigitGroups(NatToString(n)) == Some(n)
  {
    if n >= 10 {
      var s := NatToString(n);
      ParseNatToString(n / 10);
      assert s[..|s| - 1] == NatToString(n / 10);
    }
  }

  lemma {:induction false} TrimStartWithoutSpaces(s: string)
    requires |s| > 0 && !IsSpace(s[0])
    ensures TrimStart(s) == s
  {
  }

  lemma {:induction false} TrimEndWithoutSpaces(s: string)
    requires |s| > 0 && !IsSpace(s[|s| - 1])
    ensures TrimEnd(s) == s
  {
  }

  /** `int(str(n)) == n`: a page label the PDF reader numbers itself parses back to its number. */
  lemma ParseIntString(n: int)
    ensures ParseInt(IntToString(n)) == Some(n)
  {
    var s := IntToString(n);
    var m: nat := if n < 0 then -n else n;
    var digits := NatToString(m);
    assert s[|s| - 1] == digits[|digits| - 1];
    TrimStartWithoutSpaces(s);
    TrimEndWithoutSpaces(s);
    assert Strip(s) == s;
    ParseNatToString(m);
    if n < 0 {
      assert s[1..] == digits;
    } else {
      assert s[0] != '-' && s[0] != '+';
    }
  }

  /** Whatever ParseDigitGroups accepts holds only digits and underscores. */
  lemma {:induction false} ParseDigitGroupsChars(s: string, c: char)
    requires ParseDigitGroups(s).Some? && c in s
    ensures IsDigit(c) || c == '_'
    decreases |s|
  {
    if |s| > 1 && c != s[|s| - 1] {
      var rest := if s[|s| - 2] == '_' then s[..|s| - 2] else s[..|s| - 1];
      if c !in rest {
        assert c == s[|s| - 2];
      } else {
        ParseDigitGroupsChars(rest, c);
      }
    }
  }

  /** TrimStart removes only whitespace from the front. */
  lemma {:induction false} TrimStartKeeps(s: string, c: char)
    requires c in s && !IsSpace(c)
    ensures c in TrimStart(s)
    decreases |s|
  {
    if |s| > 0 && IsSpace(s[0]) {
      assert c in s[1..];
      TrimStartKeeps(s[1..], c);
    }
  }

  /** TrimEnd removes only whitespace from the back. */
  lemma {:induction false} TrimEndKeeps(s: string, c: char)
    requires c in s && !IsSpace(c)
    ensures c in TrimEnd(s)
    decreases |s|
  {
    if |s| > 0 && IsSpace(s[|s| - 1]) {
      assert s == s[..|s| - 1] + [s[|s| - 1]];
      assert c in s[..|s| - 1];
      TrimEndKeeps(s[..|s| - 1], c);
    }
  }

  /**
   * A string holding a character `int()` cannot read (anything but digits,
   * whitespace, a sign or an underscore, as in the Roman page label "iv")
   * does not parse.
   */
  lemma ParseIntRejects(s: string, c: char)
    requires c in s
    requires !IsDigit(c) && !IsSpace(c) && c != '+' && c != '-' && c != '_'
    ensures ParseInt(s) == None
  {
    TrimStartKeeps(s, c);
    TrimEndKeeps(TrimStart(s), c);
    var t := Strip(s);
    if |t| > 0 && (t[0] == '-' || t[0] == '+') {
      assert t == [t[0]] + t[1..];
      assert c in t[1..];
      if ParseDigitGroups(t[1..]).Some? {
        ParseDigitGroupsChars(t[1..], c);
      }
    } else if ParseDigitGroups(t).Some? {
      ParseDigitGroupsChars(t, c);
    }
  }
}
