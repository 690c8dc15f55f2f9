/**
 * The parts of Go's `strings` package that the tool relies on, written over
 * `seq<char>`: prefix and suffix tests, substring search, trimming with a
 * cutset, splitting and joining around a one-character separator, and
 * character replacement.
 */
module Strs {

  /** strings.HasPrefix */
  predicate HasPrefix(s: string, p: string) {
    |p| <= |s| && s[..|p|] == p
  }

  /** strings.HasSuffix */
  predicate HasSuffix(s: string, p: string) {
    |p| <= |s| && s[|s| - |p|..] == p
  }

  /** A text ends with what was appended to it. */
  lemma SuffixOfAppend(a: string, b: string)
    ensures HasSuffix(a + b, b)
  {
    assert (a + b)[|a|..] == b;
  }

  /** A text starts with what was prepended to it. */
  lemma PrefixOfAppend(a: string, b: string)
    ensures HasPrefix(a + b, a)
  {
    assert (a + b)[..|a|] == a;
  }

  lemma AppendAssoc<T>(a: seq<T>, b: seq<T>, c: seq<T>)
    ensures a + b + c == a + (b + c)
  {
  }

  /** Slicing a concatenation at the first part's end gives the parts back. */
  lemma AppendParts(a: string, b: string)
    ensures (a + b)[..|a|] == a && (a + b)[|a|..] == b
  {
  }

  lemma IndexAfter(a: string, b: string)
    requires b != []
    ensures (a + b)[|a|] == b[0]
  {
  }

  /** strings.Contains: `sub` occurs somewhere in `s`. */
  predicate Contains(s: string, sub: string)
    decreases |s|
  {
    HasPrefix(s, sub) || (s != [] && Contains(s[1..], sub))
  }

  lemma {:induction false} ContainsAt(s: string, sub: string, i: nat)
    requires i + |sub| <= |s| && s[i..i + |sub|] == sub
    ensures Contains(s, sub)
    decreases i
  {
    if i > 0 {
      assert s[1..][i - 1..i - 1 + |sub|] == s[i..i + |sub|];
      ContainsAt(s[1..], sub, i - 1);
    }
  }

  lemma {:induction false} ContainsInPrefix(s: string, t: string, sub: string)
    requires Contains(s, sub)
    ensures Contains(s + t, sub)
    decreases |s|
  {
    if HasPrefix(s, sub) {
      assert (s + t)[..|sub|] == s[..|sub|];
    } else {
      assert (s + t)[1..] == s[1..] + t;
      ContainsInPrefix(s[1..], t, sub);
    }
  }

  /** A string ending in `a + b` ends in `b`, and so contains it. */
  lemma SuffixContains(s: string, a: string, b: string)
    requires HasSuffix(s, a + b)
    ensures HasSuffix(s, b) && Contains(s, b)
  {
    assert s[|s| - |b|..] == (a + b)[|a|..];
    ContainsAt(s, b, |s| - |b|);
  }

  /** strings.TrimPrefix */
  function TrimPrefix(s: string, p: string): (r: string)
    ensures HasPrefix(s, p) ==> s == p + r
    ensures !HasPrefix(s, p) ==> r == s
  {
    if HasPrefix(s, p) then s[|p|..] else s
  }

  /** strings.TrimSuffix */
  function TrimSuffix(s: string, p: string): (r: string)
    ensures HasSuffix(s, p) ==> s == r + p
    ensures !HasSuffix(s, p) ==> r == s
  {
    if HasSuffix(s, p) then s[..|s| - |p|] else s
  }

  /** strings.TrimLeft: drops every leading character that is in `cut`. */
  function TrimLeft(s: string, cut: set<char>): (r: string)
    ensures r == [] || r[0] !in cut
    ensures |r| <= |s|
    ensures forall i :: 0 <= i < |s| - |r| ==> s[i] in cut
    decreases |s|
  {
    if s != [] && s[0] in cut then TrimLeft(s[1..], cut) else s
  }

  /** What TrimLeft keeps is the end of the text. */
  lemma {:induction false} TrimLeftSuffix(s: string, cut: set<char>)
    ensures s[|s| - |TrimLeft(s, cut)|..] == TrimLeft(s, cut)
    decreases |s|
  {
    if s != [] && s[0] in cut {
      TrimLeftSuffix(s[1..], cut);
      assert s[1..][|s| - 1 - |TrimLeft(s, cut)|..] == s[|s| - |TrimLeft(s, cut)|..];
    }
  }

  /** strings.TrimRight: drops every trailing character that is in `cut`. */
  function TrimRight(s: string, cut: set<char>): (r: string)
    ensures r == [] || r[|r| - 1] !in cut
    ensures |r| <= |s| && s[..|r|] == r
    ensures forall i :: |r| <= i < |s| ==> s[i] in cut
    decreases |s|
  {
    if s != [] && s[|s| - 1] in cut then TrimRight(s[..|s| - 1], cut) else s
  }

  /** strings.Trim: both ends. */
  function Trim(s: string, cut: set<char>): string {
    TrimRight(TrimLeft(s, cut), cut)
  }

  /** The characters for which Go's unicode.IsSpace holds. */
  const GoSpace: set<char> := {
    '\t', '\n', '\U{000B}', '\U{000C}', '\r', ' ', '\U{0085}', '\U{00A0}', '\U{1680}',
    '\U{2000}', '\U{2001}', '\U{2002}', '\U{2003}', '\U{2004}', '\U{2005}', '\U{2006}',
    '\U{2007}', '\U{2008}', '\U{2009}', '\U{200A}', '\U{2028}', '\U{2029}', '\U{202F}',
    '\U{205F}', '\U{3000}'
  }

  /** strings.TrimSpace */
  function TrimSpace(s: string): string {
    Trim(s, GoSpace)
  }

  /** strings.IndexByte for one character: the first position of `c`, or -1. */
  function IndexOf(s: string, c: char): (r: int)
    ensures -1 <= r < |s|
    ensures r >= 0 ==> s[r] == c && c !in s[..r]
    ensures r < 0 ==> c !in s
  {
    if s == [] then -1
    else if s[0] == c then 0
    else
      var k := IndexOf(s[1..], c);
      if k < 0 then -1 else k + 1
  }

  /** The first `c` in a text is the one that follows a part without `c`. */
  lemma IndexOfFirst(a: string, c: char, b: string)
    requires c !in a
    ensures IndexOf(a + [c] + b, c) == |a|
  {
    var s := a + [c] + b;
    assert s[|a|] == c;
    assert s[..|a|] == a;
  }


  /** The last position of `c`, or -1. */
  function LastIndexOf(s: string, c: char): (r: int)
    ensures -1 <= r < |s|
    ensures r >= 0 ==> s[r] == c && c !in s[r + 1..]
    ensures r < 0 ==> c !in s
  {
    if s == [] then -1
    else if s[|s| - 1] == c then |s| - 1
    else LastIndexOf(s[..|s| - 1], c)
  }

  lemma IndexOfJoin(a: string, c: char, b: string)
    requires c !in a
    ensures IndexOf(a + [c] + b, c) == |a|
  {
    var s := a + [c] + b;
    assert s[|a|] == c;
    assert s[..|a|] == a;
    assert s[..|a| + 1] == a + [c];
  }

  /** strings.Split around a one-character separator. */
  function Split(s: string, sep: char): (r: seq<string>)
    ensures |r| >= 1
    ensures forall part :: part in r ==> sep !in part
    decreases |s|
  {
    var i := IndexOf(s, sep);
    if i < 0 then [s] else [s[..i]] + Split(s[i + 1..], sep)
  }

  /** strings.Join */
  function Join(parts: seq<string>, sep: string): string
    decreases |parts|
  {
    if |parts| == 0 then ""
    else if |parts| == 1 then parts[0]
    else parts[0] + sep + Join(parts[1..], sep)
  }

  /** Joining parts that do not contain the separator and splitting again gives the parts back. */
  lemma {:induction false} SplitJoin(parts: seq<string>, sep: char)
    requires |parts| >= 1
    requires forall part :: part in parts ==> sep !in part
    ensures Split(Join(parts, [sep]), sep) == parts
    decreases |parts|
  {
    if |parts| > 1 {
      var rest := Join(parts[1..], [sep]);
      IndexOfJoin(parts[0], sep, rest);
      var s := parts[0] + [sep] + rest;
      assert s[..|parts[0]|] == parts[0];
      assert s[|parts[0]| + 1..] == rest;
      SplitJoin(parts[1..], sep);
    } else {
      assert parts[0] in parts;
      assert Join(parts, [sep]) == parts[0];
    }
  }

  /** Splitting and joining again gives the string back. */
  lemma {:induction false} JoinSplit(s: string, sep: char)
    ensures Join(Split(s, sep), [sep]) == s
    decreases |s|
  {
    var i := IndexOf(s, sep);
    if i >= 0 {
      JoinSplitStep(s, sep, [sep], i);
      JoinSplit(s[i + 1..], sep);
      AppendParts(s[..i] + [sep], s[i + 1..]);
    }
  }

  /** strings.ReplaceAll with a one-character pattern. */
  function ReplaceChar(s: string, c: char, rep: string): (r: string)
    ensures c !in rep ==> c !in r
    decreases |s|
  {
    if s == [] then ""
    else (if s[0] == c then rep else [s[0]]) + ReplaceChar(s[1..], c, rep)
  }

  lemma {:induction false} ReplaceCharAbsent(s: string, c: char, rep: string)
    requires c !in s
    ensures ReplaceChar(s, c, rep) == s
    decreases |s|
  {
    if s != [] {
      ReplaceCharAbsent(s[1..], c, rep);
    }
  }

  /** Replacing distributes over concatenation. */
  lemma {:induction false} ReplaceCharAppend(a: string, b: string, c: char, rep: string)
    ensures ReplaceChar(a + b, c, rep) == ReplaceChar(a, c, rep) + ReplaceChar(b, c, rep)
    decreases |a|
  {
    if a == [] {
      assert a + b == b;
    } else {
      assert (a + b)[0] == a[0];
      assert (a + b)[1..] == a[1..] + b;
      ReplaceCharAppend(a[1..], b, c, rep);
    }
  }

  /** Splitting around `c` and joining with `sep` replaces every `c` by `sep`. */
  lemma {:induction false} JoinSplitReplace(s: string, c: char, sep: string)
    ensures Join(Split(s, c), sep) == ReplaceChar(s, c, sep)
    decreases |s|
  {
    var i := IndexOf(s, c);
    if i < 0 {
      ReplaceCharAbsent(s, c, sep);
    } else {
      JoinSplitStep(s, c, sep, i);
      ReplaceCharStep(s, c, sep, i);
      JoinSplitReplace(s[i + 1..], c, sep);
    }
  }

  lemma JoinSplitStep(s: string, c: char, sep: string, i: int)
    requires i == IndexOf(s, c) && i >= 0
    ensures Join(Split(s, c), sep) == s[..i] + sep + Join(Split(s[i + 1..], c), sep)
  {
    var parts := Split(s, c);
    assert parts == [s[..i]] + Split(s[i + 1..], c);
    assert |parts| >= 2 && parts[0] == s[..i] && parts[1..] == Split(s[i + 1..], c);
  }

  lemma ReplaceCharStep(s: string, c: char, sep: string, i: int)
    requires 0 <= i < |s| && s[i] == c && c !in s[..i]
    ensures ReplaceChar(s, c, sep) == s[..i] + sep + ReplaceChar(s[i + 1..], c, sep)
  {
    var rest := s[i + 1..];
    assert s == s[..i] + ([c] + rest);
    ReplaceCharAppend(s[..i], [c] + rest, c, sep);
    ReplaceCharAppend([c], rest, c, sep);
    ReplaceCharAbsent(s[..i], c, sep);
    assert ReplaceChar([c], c, sep) == sep;
  }

  /** strings.ToLower, restricted to ASCII letters. */
  function ToLower(s: string): (r: string)
    ensures |r| == |s|
    ensures forall i :: 0 <= i < |s| ==> r[i] == LowerChar(s[i])
  {
    seq(|s|, i requires 0 <= i < |s| => LowerChar(s[i]))
  }

  function LowerChar(c: char): char {
    if 'A' <= c <= 'Z' then (c as int - 'A' as int + 'a' as int) as char else c
  }

  /** Go's %q for the characters the tool's messages quote: quotes, backslashes and the common control characters escaped. */
  function Escape(s: string): (r: string)
    ensures s == [] ==> r == []
    decreases |s|
  {
    if s == [] then []
    else
      var c := s[0];
      (if c == '"' then "\\\"" else if c == '\\' then "\\\\" else if c == '\n' then "\\n"
       else if c == '\t' then "\\t" else if c == '\r' then "\\r" else [c])
      + Escape(s[1..])
  }

  function GoQuote(s: string): (r: string)
    ensures |r| >= 2 && r[0] == '"' && r[|r| - 1] == '"'
  {
    "\"" + Escape(s) + "\""
  }
}
