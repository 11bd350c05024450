/** The few Python string operations the modelled code relies on, over `seq<char>`. */
module Strings {
  import opened Wrappers

  /** Python's `s.startswith(prefix)`. */
  predicate StartsWith(s: string, prefix: string)
  {
    |prefix| <= |s| && s[..|prefix|] == prefix
  }

  /** Python's `s.endswith(suffix)`. */
  predicate EndsWith(s: string, suffix: string)
  {
    |suffix| <= |s| && s[|s| - |suffix|..] == suffix
  }

  /** True iff `pat` occurs in `s` starting at index `i`. */
  predicate OccursAt(s: string, pat: string, i: nat)
  {
    i + |pat| <= |s| && s[i..i + |pat|] == pat
  }

  /** Python's `pat in s`. */
  predicate Contains(s: string, pat: string)
  {
    exists i: nat | i <= |s| :: OccursAt(s, pat, i)
  }

  /** Python's `sep.join(parts)`. */
  function Join(parts: seq<string>, sep: string): string
  {
    if |parts| == 0 then ""
    else if |parts| == 1 then parts[0]
    else parts[0] + sep + Join(parts[1..], sep)
  }

  /** Joining one more part adds the separator and that part at the end. */
  lemma {:induction false} JoinAppend(parts: seq<string>, p: string, sep: string)
    requires parts != []
    ensures Join(parts + [p], sep) == Join(parts, sep) + sep + p
    decreases |parts|
  {
    if |parts| == 1 {
      assert (parts + [p])[1..] == [p];
    } else {
      assert (parts + [p])[1..] == parts[1..] + [p];
      JoinAppend(parts[1..], p, sep);
    }
  }

  /** Python's `c.lower()` on ASCII letters; every other character is left as it is. */
  function LowerChar(c: char): char
  {
    if 'A' <= c <= 'Z' then (c as int + 32) as char else c
  }

  /** Python's `s.lower()`, character by character (see LowerChar). */
  function Lower(s: string): (r: string)
    ensures |r| == |s|
    ensures forall i :: 0 <= i < |s| ==> r[i] == LowerChar(s[i])
  {
    seq(|s|, i requires 0 <= i < |s| => LowerChar(s[i]))
  }

  /** Lower-casing works character by character, so it distributes over concatenation. */
  lemma LowerConcat(a: string, b: string)
    ensures Lower(a + b) == Lower(a) + Lower(b)
  {
  }

  /** Lower-casing twice is lower-casing once. */
  lemma LowerIdempotent(s: string)
    ensures Lower(Lower(s)) == Lower(s)
  {
  }

  /** Lower-casing keeps every '.' where it is and adds none. */
  lemma LowerKeepsDots(s: string)
    ensures '.' in Lower(s) <==> '.' in s
  {
    if '.' in s {
      var i :| 0 <= i < |s| && s[i] == '.';
      assert Lower(s)[i] == '.';
    }
    if '.' in Lower(s) {
      var i :| 0 <= i < |s| && Lower(s)[i] == '.';
      assert s[i] == '.';
    }
  }

  /** The index of the last `c` in `s` (Python's `s.rfind(c)`, with None for -1). */
  function LastIndexOf(s: string, c: char): (r: Option<nat>)
    ensures r.None? <==> c !in s
    ensures r.Some? ==> r.value < |s| && s[r.value] == c && c !in s[r.value + 1..]
  {
    if |s| == 0 then None
    else if s[|s| - 1] == c then Some(|s| - 1)
    else
      var r := LastIndexOf(s[..|s| - 1], c);
      assert s == s[..|s| - 1] + [s[|s| - 1]];
      r
  }

  /**
   * Python's `s.replace(pat, rep)` for a non-empty `pat`: occurrences are found
   * left to right and do not overlap.
   */
  function ReplaceAll(s: string, pat: string, rep: string): string
    requires |pat| > 0
    decreases |s|
  {
    if |s| < |pat| then s
    else if OccursAt(s, pat, 0) then rep + ReplaceAll(s[|pat|..], pat, rep)
    else [s[0]] + ReplaceAll(s[1..], pat, rep)
  }

  /** An occurrence in `s[1..]` is an occurrence in `s`, one place further on. */
  lemma OccursAtTail(s: string, pat: string, i: nat)
    requires |s| > 0
    ensures OccursAt(s[1..], pat, i) <==> OccursAt(s, pat, i + 1)
  {
    if i + |pat| <= |s| - 1 {
      assert s[1..][i..i + |pat|] == s[i + 1..i + 1 + |pat|];
    }
  }

  /** Without an occurrence of `pat`, replacing changes nothing. */
  lemma {:induction false} ReplaceAllWithoutOccurrence(s: string, pat: string, rep: string)
    requires |pat| > 0
    requires !Contains(s, pat)
    ensures ReplaceAll(s, pat, rep) == s
    decreases |s|
  {
    if |s| >= |pat| {
      assert !OccursAt(s, pat, 0);
      forall i: nat | i <= |s[1..]| ensures !OccursAt(s[1..], pat, i) {
        OccursAtTail(s, pat, i);
      }
      ReplaceAllWithoutOccurrence(s[1..], pat, rep);
      assert [s[0]] + s[1..] == s;
    }
  }

  /** The step of ReplaceAllAtFirstOccurrence that regroups the pieces, stated over plain strings. */
  lemma ConsThenJoin(x: string, y: string, c: char, before: string, mid: string, z: string, prefix: string)
    requires x == [c] + y && y == before + mid + z && prefix == [c] + before
    ensures x == prefix + mid + z
  {
  }

  lemma FirstOccurrenceStep(s: string, pat: string, rep: string, i: nat)
    requires |pat| > 0 && 0 < i && i + |pat| <= |s|
    requires ReplaceAll(s, pat, rep) == [s[0]] + ReplaceAll(s[1..], pat, rep)
    requires ReplaceAll(s[1..], pat, rep) == s[1..][..i - 1] + rep + ReplaceAll(s[1..][i - 1 + |pat|..], pat, rep)
    ensures ReplaceAll(s, pat, rep) == s[..i] + rep + ReplaceAll(s[i + |pat|..], pat, rep)
  {
    var t := s[1..];
    var after := s[i + |pat|..];
    assert t[i - 1 + |pat|..] == after;
    var before := t[..i - 1];
    assert [s[0]] + before == s[..i];
    ConsThenJoin(ReplaceAll(s, pat, rep), ReplaceAll(t, pat, rep), s[0], before, rep,
                 ReplaceAll(after, pat, rep), s[..i]);
  }

  /** A match at the start is replaced, and replacing goes on after it. */
  lemma ReplaceAllMatchHead(s: string, pat: string, rep: string)
    requires |pat| > 0 && OccursAt(s, pat, 0)
    ensures ReplaceAll(s, pat, rep) == rep + ReplaceAll(s[|pat|..], pat, rep)
  {
    assert s[..|pat|] == s[0..|pat|];
  }

  /** Without a match at the start, the first character is kept. */
  lemma ReplaceAllKeepHead(s: string, pat: string, rep: string)
    requires |pat| > 0 && |pat| < |s| && !OccursAt(s, pat, 0)
    ensures ReplaceAll(s, pat, rep) == [s[0]] + ReplaceAll(s[1..], pat, rep)
  {
    assert s[..|pat|] == s[0..|pat|];
  }

  /**
   * Replacing rewrites the FIRST occurrence of `pat`, keeps everything before it,
   * and goes on after it: together with ReplaceAllWithoutOccurrence this pins
   * `ReplaceAll` down completely.
   */
  lemma {:induction false} ReplaceAllAtFirstOccurrence(s: string, pat: string, rep: string, i: nat)
    requires |pat| > 0
    requires OccursAt(s, pat, i)
    requires forall j: nat :: j < i ==> !OccursAt(s, pat, j)
    ensures ReplaceAll(s, pat, rep) == s[..i] + rep + ReplaceAll(s[i + |pat|..], pat, rep)
    decreases i, 1
  {
    if i == 0 {
      ReplaceAllMatchHead(s, pat, rep);
      assert s[..0] == [];
    } else {
      ReplaceAllAfterFirstChar(s, pat, rep, i);
    }
  }

  /** The inductive step: the first occurrence is at `i > 0`, so the first character is kept. */
  lemma {:induction false} ReplaceAllAfterFirstChar(s: string, pat: string, rep: string, i: nat)
    requires |pat| > 0 && 0 < i
    requires OccursAt(s, pat, i)
    requires forall j: nat :: j < i ==> !OccursAt(s, pat, j)
    ensures ReplaceAll(s, pat, rep) == s[..i] + rep + ReplaceAll(s[i + |pat|..], pat, rep)
    decreases i, 0
  {
    NoEarlierOccurrenceInTail(s, pat, i);
    ReplaceAllAtFirstOccurrence(s[1..], pat, rep, i - 1);
    ReplaceAllKeepHead(s, pat, rep);
    FirstOccurrenceStep(s, pat, rep, i);
  }

  /** The first occurrence at `i > 0` in `s` is the first one, at `i - 1`, in `s[1..]`. */
  lemma NoEarlierOccurrenceInTail(s: string, pat: string, i: nat)
    requires 0 < i && OccursAt(s, pat, i)
    requires forall j: nat :: j < i ==> !OccursAt(s, pat, j)
    ensures |pat| < |s| && !OccursAt(s, pat, 0)
    ensures OccursAt(s[1..], pat, i - 1)
    ensures forall j: nat :: j < i - 1 ==> !OccursAt(s[1..], pat, j)
  {
    assert !OccursAt(s, pat, 0);
    OccursAtTail(s, pat, i - 1);
    forall j: nat | j < i - 1 ensures !OccursAt(s[1..], pat, j) {
      OccursAtTail(s, pat, j);
    }
  }
}
