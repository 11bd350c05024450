/**
 * UUIDs as Python's `uuid.UUID` prints them (`str(u)`: 32 lower-case hex
 * digits in groups 8-4-4-4-12) and as they are read back from that text.
 */
module Uuids {
  import opened Wrappers

  type Nibble = n: int | 0 <= n < 16

  /** A UUID: its 128 bits as 32 hexadecimal digits, most significant first. */
  type Uuid = s: seq<Nibble> | |s| == 32 witness seq(32, _ => 0)

  /** The lower-case hexadecimal digit of `d`. */
  function HexChar(d: Nibble): char
  {
    if d < 10 then ('0' as int + d) as char else ('a' as int + d - 10) as char
  }

  /** The value of a hexadecimal digit in either case, or None. */
  function HexValue(c: char): Option<Nibble>
  {
    if '0' <= c <= '9' then Some(c as int - '0' as int)
    else if 'a' <= c <= 'f' then Some(c as int - 'a' as int + 10)
    else if 'A' <= c <= 'F' then Some(c as int - 'A' as int + 10)
    else None
  }

  function HexString(ns: seq<Nibble>): (s: string)
    ensures |s| == |ns|
    ensures forall i :: 0 <= i < |ns| ==> s[i] == HexChar(ns[i])
  {
    seq(|ns|, i requires 0 <= i < |ns| => HexChar(ns[i]))
  }

  function ParseHex(s: string): (r: Option<seq<Nibble>>)
    ensures r.Some? ==> |r.value| == |s|
    ensures r.Some? <==> forall i :: 0 <= i < |s| ==> HexValue(s[i]).Some?
  {
    if |s| == 0 then Some([])
    else match (HexValue(s[0]), ParseHex(s[1..]))
      case (Some(d), Some(ds)) => Some([d] + ds)
      case _ => None
  }

  /** `str(u)`: "xxxxxxxx-xxxx-xxxx-xxxx-xxxxxxxxxxxx". */
  function UuidString(u: Uuid): (s: string)
    ensures |s| == 36
    ensures s[8] == '-' && s[13] == '-' && s[18] == '-' && s[23] == '-'
  {
    var h := HexString(u);
    h[..8] + "-" + h[8..12] + "-" + h[12..16] + "-" + h[16..20] + "-" + h[20..]
  }

  /** `UUID(s)` for the hyphenated form (hex digits of either case), or None where it raises. */
  function ParseUuid(s: string): (r: Option<Uuid>)
    ensures r.Some? <==>
      && |s| == 36 && s[8] == '-' && s[13] == '-' && s[18] == '-' && s[23] == '-'
      && forall i :: 0 <= i < 36 && i != 8 && i != 13 && i != 18 && i != 23 ==> HexValue(s[i]).Some?
  {
    if |s| == 36 && s[8] == '-' && s[13] == '-' && s[18] == '-' && s[23] == '-' then
      HexDigitsOfGroups(s);
      match ParseHex(s[..8] + s[9..13] + s[14..18] + s[19..23] + s[24..])
      case Some(ns) => Some(ns)
      case None => None
    else None
  }

  /** The 32 digits of a 36-character text with its hyphens taken out, position by position. */
  lemma HexDigitsOfGroups(s: string)
    requires |s| == 36
    ensures var h := s[..8] + s[9..13] + s[14..18] + s[19..23] + s[24..];
      && |h| == 32
      && (forall i :: 0 <= i < 8 ==> h[i] == s[i])
      && (forall i :: 9 <= i < 13 ==> h[i - 1] == s[i])
      && (forall i :: 14 <= i < 18 ==> h[i - 2] == s[i])
      && (forall i :: 19 <= i < 23 ==> h[i - 3] == s[i])
      && (forall i :: 24 <= i < 36 ==> h[i - 4] == s[i])
      && (forall j :: 0 <= j < 32 ==>
            h[j] == s[if j < 8 then j else if j < 12 then j + 1 else if j < 16 then j + 2 else if j < 20 then j + 3 else j + 4])
  {
  }

  lemma {:induction false} ParseHexString(ns: seq<Nibble>)
    ensures ParseHex(HexString(ns)) == Some(ns)
  {
    if |ns| > 0 {
      var s := HexString(ns);
      assert s[1..] == HexString(ns[1..]);
      ParseHexString(ns[1..]);
      assert HexValue(HexChar(ns[0])) == Some(ns[0]);
      assert [ns[0]] + ns[1..] == ns;
    }
  }

  /** Reading back what `str(u)` printed gives `u`. */
  lemma ParseUuidString(u: Uuid)
    ensures ParseUuid(UuidString(u)) == Some(u)
  {
    var s := UuidString(u);
    var h := HexString(u);
    assert |h| == 32;
    assert s[..8] == h[..8];
    assert s[9..13] == h[8..12];
    assert s[14..18] == h[12..16];
    assert s[19..23] == h[16..20];
    assert s[24..] == h[20..];
    assert h[..8] + h[8..12] + h[12..16] + h[16..20] + h[20..] == h;
    ParseHexString(u);
  }

  /** Distinct UUIDs print differently, so `str(document.id)` names one document. */
  lemma UuidStringInjective(u: Uuid, v: Uuid)
    ensures UuidString(u) == UuidString(v) <==> u == v
  {
    if UuidString(u) == UuidString(v) {
      ParseUuidString(u);
      ParseUuidString(v);
    }
  }
}
