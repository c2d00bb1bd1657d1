/**
 * The handful of Python string operations the core relies on, with the
 * meaning Python gives them: `str.isspace`, `strip`, `rstrip(c)`,
 * `startswith`, the `in` substring test, `split(sep)`, `sep.join` and an
 * ASCII `lower`.
 */
module Text {

  /** Python's `str.isspace` for a single character. */
  predicate IsSpace(c: char)
  {
    c == ' ' || ('\U{9}' <= c <= '\U{D}') || ('\U{1C}' <= c <= '\U{1F}')
    || c == '\U{85}' || c == '\U{A0}' || c == '\U{1680}'
    || ('\U{2000}' <= c <= '\U{200A}') || c == '\U{2028}' || c == '\U{2029}'
    || c == '\U{202F}' || c == '\U{205F}' || c == '\U{3000}'
  }

  predicate AllSpace(s: string)
  {
    forall i :: 0 <= i < |s| ==> IsSpace(s[i])
  }

  /** Python's `strip()`: whitespace is dropped at either end until neither
      end is whitespace. */
  function Strip(s: string): (r: string)
    ensures |r| <= |s|
    ensures r == [] || (!IsSpace(r[0]) && !IsSpace(r[|r| - 1]))
    decreases |s|
  {
    if s != [] && IsSpace(s[0]) then Strip(s[1..])
    else if s != [] && IsSpace(s[|s| - 1]) then Strip(s[..|s| - 1])
    else s
  }

  /** `r` sits in `s` at `i`, with only whitespace before and after it. */
  predicate SpacedInfix(s: string, r: string, i: nat)
  {
    i + |r| <= |s| && r == s[i..i + |r|] && AllSpace(s[..i]) && AllSpace(s[i + |r|..])
  }

  /** `strip` keeps an infix of its argument, starting at `i`, and drops
      only whitespace around it. */
  lemma {:induction false} StripIsInfix(s: string) returns (i: nat)
    ensures SpacedInfix(s, Strip(s), i)
    decreases |s|
  {
    if s != [] && IsSpace(s[0]) {
      var j := StripIsInfix(s[1..]);
      i := j + 1;
      SpacedInfixAfterSpace(s, Strip(s), j);
    } else if s != [] && IsSpace(s[|s| - 1]) {
      i := StripIsInfix(s[..|s| - 1]);
      SpacedInfixBeforeSpace(s, Strip(s), i);
    } else {
      i := 0;
    }
  }

  lemma SpacedInfixAfterSpace(s: string, r: string, j: nat)
    requires s != [] && IsSpace(s[0]) && SpacedInfix(s[1..], r, j)
    ensures SpacedInfix(s, r, j + 1)
  {
    var t := s[1..];
    assert t[j..j + |r|] == s[j + 1..j + 1 + |r|];
    var lead := s[..j + 1];
    forall k | 0 <= k < |lead| ensures IsSpace(lead[k]) {
      if k > 0 { assert lead[k] == t[..j][k - 1]; }
    }
    assert s[j + 1 + |r|..] == t[j + |r|..];
  }

  lemma SpacedInfixBeforeSpace(s: string, r: string, i: nat)
    requires s != [] && IsSpace(s[|s| - 1]) && SpacedInfix(s[..|s| - 1], r, i)
    ensures SpacedInfix(s, r, i)
  {
    var t := s[..|s| - 1];
    assert t[i..i + |r|] == s[i..i + |r|];
    assert s[..i] == t[..i];
    var trail := s[i + |r|..];
    forall k | 0 <= k < |trail| ensures IsSpace(trail[k]) {
      if k < |t[i + |r|..]| { assert trail[k] == t[i + |r|..][k]; }
    }
  }

  lemma StripNoEdgeSpace(s: string)
    requires s == [] || (!IsSpace(s[0]) && !IsSpace(s[|s| - 1]))
    ensures Strip(s) == s
  {
  }

  lemma StripIdempotent(s: string)
    ensures Strip(Strip(s)) == Strip(s)
  {
    StripNoEdgeSpace(Strip(s));
  }

  predicate StartsWith(s: string, prefix: string)
  {
    |prefix| <= |s| && s[..|prefix|] == prefix
  }

  predicate EndsWith(s: string, suffix: string)
  {
    |suffix| <= |s| && s[|s| - |suffix|..] == suffix
  }

  lemma ConcatStartsWith(x: string, y: string)
    ensures StartsWith(x + y, x)
  {
    assert (x + y)[..|x|] == x;
  }

  lemma ConcatEndsWith(x: string, y: string)
    ensures EndsWith(x + y, y)
  {
    assert (x + y)[|x|..] == y;
  }

  lemma EndsWithExtended(x: string, s: string, y: string)
    requires EndsWith(s, y)
    ensures EndsWith(x + s, y)
  {
    assert (x + s)[|x + s| - |y|..] == s[|s| - |y|..];
  }

  lemma AppendAssoc(a: string, b: string, c: string)
    ensures a + (b + c) == (a + b) + c
  {
  }

  /** Python's `needle in s` for strings. */
  predicate Contains(s: string, needle: string)
    decreases |s|
  {
    StartsWith(s, needle) || (s != [] && Contains(s[1..], needle))
  }

  lemma {:induction false} ContainsInfix(x: string, needle: string, y: string)
    ensures Contains(x + needle + y, needle)
    decreases |x|
  {
    if x == [] {
      assert x + needle + y == needle + y;
      assert (needle + y)[..|needle|] == needle;
    } else {
      ContainsInfix(x[1..], needle, y);
      assert (x + needle + y)[1..] == x[1..] + needle + y;
    }
  }

  function LowerChar(c: char): char
  {
    if 'A' <= c <= 'Z' then (c as int + 32) as char else c
  }

  /** Python's `lower()` restricted to ASCII letters. */
  function Lower(s: string): (r: string)
    ensures |r| == |s|
  {
    seq(|s|, i requires 0 <= i < |s| => LowerChar(s[i]))
  }

  /** Python's `rstrip(c)` with a single character `c`. */
  function RStripChar(s: string, c: char): (r: string)
    ensures |r| <= |s| && r == s[..|r|]
    ensures forall i :: |r| <= i < |s| ==> s[i] == c
    ensures r == [] || r[|r| - 1] != c
  {
    if s != [] && s[|s| - 1] == c then RStripChar(s[..|s| - 1], c) else s
  }

  /** `sep.join(parts)`. */
  function Join(parts: seq<string>, sep: string): string
  {
    if parts == [] then ""
    else if |parts| == 1 then parts[0]
    else parts[0] + sep + Join(parts[1..], sep)
  }

  /** Python's `s.split(sep)` for a one-character separator: never empty, and
      two adjacent separators give an empty segment. */
  function Split(s: string, sep: char): (parts: seq<string>)
    ensures |parts| >= 1
    ensures forall i :: 0 <= i < |parts| ==> sep !in parts[i]
    ensures Join(parts, [sep]) == s
    decreases |s|
  {
    if s == [] then [""]
    else
      var rest := Split(s[1..], sep);
      if s[0] == sep then [""] + rest
      else
        var parts := [[s[0]] + rest[0]] + rest[1..];
        assert |rest| == 1 ==> Join(parts, [sep]) == [s[0]] + rest[0];
        parts
  }

  lemma JoinFirstChar(parts: seq<string>, sep: string)
    requires |parts| >= 1 && parts[0] != []
    ensures Join(parts, sep) == [parts[0][0]] + Join([parts[0][1..]] + parts[1..], sep)
  {
    var tail := [parts[0][1..]] + parts[1..];
    assert tail[1..] == parts[1..];
    assert parts[0] == [parts[0][0]] + parts[0][1..];
  }

  lemma JoinEmptyFirst(parts: seq<string>, sep: char)
    requires |parts| >= 2 && parts[0] == []
    ensures Join(parts, [sep]) == [sep] + Join(parts[1..], [sep])
  {
  }

  lemma SplitCons(c: char, s: string, sep: char)
    ensures Split([c] + s, sep) ==
      if c == sep then [""] + Split(s, sep)
      else [[c] + Split(s, sep)[0]] + Split(s, sep)[1..]
  {
    assert ([c] + s)[1..] == s;
  }

  /** Splitting a join of separator-free segments gives the segments back. */
  lemma {:induction false} SplitJoin(parts: seq<string>, sep: char)
    requires |parts| >= 1
    requires forall i :: 0 <= i < |parts| ==> sep !in parts[i]
    ensures Split(Join(parts, [sep]), sep) == parts
    decreases |parts|, |parts[0]|
  {
    if parts[0] == [] {
      if |parts| > 1 {
        JoinEmptyFirst(parts, sep);
        SplitJoin(parts[1..], sep);
        SplitCons(sep, Join(parts[1..], [sep]), sep);
        assert parts == [""] + parts[1..];
      }
    } else {
      var first := parts[0];
      var tail := [first[1..]] + parts[1..];
      assert sep !in first[1..] by {
        forall c | c in first[1..] ensures c != sep { assert c in first; }
      }
      assert forall i :: 1 <= i < |tail| ==> tail[i] == parts[i];
      SplitJoin(tail, sep);
      JoinFirstChar(parts, [sep]);
      SplitCons(first[0], Join(tail, [sep]), sep);
      assert first[0] != sep;
      assert tail[0] == first[1..] && tail[1..] == parts[1..];
      assert [first[0]] + tail[0] == first;
      assert [[first[0]] + tail[0]] + tail[1..] == parts;
    }
  }

  /** `"".join(parts)`. */
  function Concat(parts: seq<string>): string
  {
    if parts == [] then "" else parts[0] + Concat(parts[1..])
  }

  lemma {:induction false} ConcatAppend(parts: seq<string>, last: string)
    ensures Concat(parts + [last]) == Concat(parts) + last
  {
    if parts != [] {
      assert (parts + [last])[1..] == parts[1..] + [last];
      ConcatAppend(parts[1..], last);
    }
  }
}
