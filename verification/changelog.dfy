/**
 * The changelog package (pkg/changelog/changelog.go): change kinds and
 * their canonical order, the sortedness check of an entry's changes, and
 * reading one version's entry out of a CHANGELOG.md.
 */
module Changelog {
  import opened Wrappers
  import opened Strs

  /** A change kind; the four named kinds are 0..3, other values print as "". */
  type Kind = int

  const KindChange: Kind := 0
  const KindFeature: Kind := 1
  const KindEnhancement: Kind := 2
  const KindBugfix: Kind := 3

  predicate Named(k: Kind) {
    0 <= k <= 3
  }

  /** Kind.String */
  function KindString(k: Kind): (r: string)
    ensures r != "" <==> Named(k)
    ensures '/' !in r
  {
    if k == KindChange then "CHANGE"
    else if k == KindFeature then "FEATURE"
    else if k == KindEnhancement then "ENHANCEMENT"
    else if k == KindBugfix then "BUGFIX"
    else ""
  }

  /** The kind a string names in ParseKinds, if any. */
  function KindOf(s: string): (r: Option<Kind>)
    ensures r.Some? ==> Named(r.value) && KindString(r.value) == s
  {
    if s == "CHANGE" then Some(KindChange)
    else if s == "FEATURE" then Some(KindFeature)
    else if s == "ENHANCEMENT" then Some(KindEnhancement)
    else if s == "BUGFIX" then Some(KindBugfix)
    else None
  }

  /** Every named kind is recognised by its own name, and by no other string. */
  lemma KindOfString(k: Kind, s: string)
    requires Named(k)
    ensures KindOf(s) == Some(k) <==> s == KindString(k)
  {
  }

  predicate StrictlyAscending(ks: seq<Kind>) {
    forall i, j :: 0 <= i < j < |ks| ==> ks[i] < ks[j]
  }

  /** The named kinds from `k` on that some string of `s` names, in ascending order. */
  function KindsFrom(k: nat, s: seq<string>): seq<Kind>
    decreases 4 - k
  {
    if k > 3 then []
    else (if KindString(k) in s then [k] else []) + KindsFrom(k + 1, s)
  }

  /** The kinds listed from `k` on are those from `k` to 3 that some string names. */
  lemma {:induction false} KindsFromMembers(k: nat, s: seq<string>)
    ensures forall x :: x in KindsFrom(k, s) <==> k <= x <= 3 && KindString(x) in s
    decreases 4 - k
  {
    if k <= 3 {
      KindsFromMembers(k + 1, s);
      assert KindsFrom(k, s) == (if KindString(k) in s then [k] else []) + KindsFrom(k + 1, s);
    }
  }

  lemma {:induction false} KindsFromSpec(k: nat, s: seq<string>)
    ensures StrictlyAscending(KindsFrom(k, s))
    ensures forall x :: x in KindsFrom(k, s) <==> k <= x <= 3 && KindString(x) in s
    decreases 4 - k
  {
    KindsFromMembers(k, s);
    if k <= 3 {
      KindsFromSpec(k + 1, s);
      var head: seq<Kind> := if KindString(k) in s then [k] else [];
      var tail := KindsFrom(k + 1, s);
      assert KindsFrom(k, s) == head + tail;
      AscendingAppend(head, tail);
    }
  }

  /** Two ascending lists, every element of the first below every element of the second, make an ascending list. */
  lemma AscendingAppend(head: seq<Kind>, tail: seq<Kind>)
    requires StrictlyAscending(head) && StrictlyAscending(tail)
    requires forall x, y :: x in head && y in tail ==> x < y
    ensures StrictlyAscending(head + tail)
  {
    forall i, j | 0 <= i < j < |head + tail|
      ensures (head + tail)[i] < (head + tail)[j]
    {
      if i < |head| && j >= |head| {
        assert (head + tail)[i] in head && (head + tail)[j] in tail;
      } else if i >= |head| {
        assert (head + tail)[i] == tail[i - |head|] && (head + tail)[j] == tail[j - |head|];
      }
    }
  }

  /** What ParseKinds returns: the named kinds of `s`. */
  function ParsedKinds(s: seq<string>): seq<Kind> {
    KindsFrom(0, s)
  }

  /** ParseKinds lists each named kind of its input once, in ascending order, and nothing else. */
  lemma ParsedKindsSpec(s: seq<string>)
    ensures StrictlyAscending(ParsedKinds(s))
    ensures forall x :: x in ParsedKinds(s) <==> Named(x) && KindString(x) in s
  {
    KindsFromSpec(0, s);
  }

  /** The first half of ParseKinds: the set of named kinds the strings name. */
  method CollectKinds(s: seq<string>) returns (m: set<Kind>)
    ensures forall x :: x in m <==> Named(x) && KindString(x) in s
  {
    m := {};
    for i := 0 to |s|
      invariant forall x :: x in m <==> Named(x) && KindString(x) in s[..i]
    {
      var k := KindOf(s[i]);
      if k.Some? {
        m := m + {k.value};
      }
      assert s[..i + 1] == s[..i] + [s[i]];
    }
    assert s[..|s|] == s;
  }

  /**
   * ParseKinds: collects the named kinds in a set, unknown strings ignored,
   * and lists the set in ascending order.
   */
  method ParseKinds(s: seq<string>) returns (kinds: seq<Kind>)
    ensures kinds == ParsedKinds(s)
  {
    var m := CollectKinds(s);
    kinds := [];
    for k := 0 to 4
      invariant kinds + KindsFrom(k, s) == KindsFrom(0, s)
    {
      var head: seq<Kind> := if KindString(k) in s then [k] else [];
      var tail := KindsFrom(k + 1, s);
      assert KindsFrom(k, s) == head + tail;
      assert Named(k);
      ConcatAssoc(kinds, head, tail);
      if k in m {
        kinds := kinds + [k];
      } else {
        assert kinds + head == kinds;
      }
    }
  }

  lemma ConcatAssoc(a: seq<Kind>, b: seq<Kind>, c: seq<Kind>)
    ensures a + b + c == a + (b + c)
  {
  }

  /** The names of the kinds, in order. */
  function KindNames(ks: seq<Kind>): (r: seq<string>)
    ensures |r| == |ks| && forall i :: 0 <= i < |ks| ==> r[i] == KindString(ks[i])
  {
    seq(|ks|, i requires 0 <= i < |ks| => KindString(ks[i]))
  }

  /** Kinds.String: the kind names joined by "/". */
  method KindsString(ks: seq<Kind>) returns (r: string)
    ensures r == Join(KindNames(ks), "/")
  {
    var names: seq<string> := [];
    for i := 0 to |ks|
      invariant names == KindNames(ks[..i])
    {
      names := names + [KindString(ks[i])];
    }
    assert ks[..|ks|] == ks;
    r := Join(names, "/");
  }

  lemma {:induction false} AscendingUnique(a: seq<Kind>, b: seq<Kind>)
    requires StrictlyAscending(a) && StrictlyAscending(b)
    requires forall x :: x in a <==> x in b
    ensures a == b
    decreases |a|
  {
    if a != [] {
      AscendingFirst(a);
    }
    if b != [] {
      AscendingFirst(b);
    }
    if a != [] && b != [] {
      assert a[0] == b[0] by {
        assert a[0] in b && b[0] in a;
      }
      assert a == [a[0]] + a[1..] && b == [b[0]] + b[1..];
      AscendingUnique(a[1..], b[1..]);
    }
  }

  /** The first element of an ascending list is its least, and the rest holds all the others, ascending. */
  lemma AscendingFirst(a: seq<Kind>)
    requires StrictlyAscending(a) && a != []
    ensures a[0] in a && forall x :: x in a ==> a[0] <= x
    ensures StrictlyAscending(a[1..])
    ensures forall x :: x in a[1..] <==> x in a && x != a[0]
  {
    forall x | x in a[1..] ensures x in a && x != a[0] {
      var i :| 0 <= i < |a| - 1 && a[1..][i] == x;
      assert a[0] < a[i + 1];
    }
    assert a == [a[0]] + a[1..];
  }

  /**
   * Printing a canonical kind list and parsing the parts again gives the
   * list back: ParseKinds(strings.Split(k.String(), "/")) == k.
   */
  lemma ParseKindsString(ks: seq<Kind>)
    requires StrictlyAscending(ks) && forall x :: x in ks ==> Named(x)
    ensures ParsedKinds(Split(Join(KindNames(ks), "/"), '/')) == ks
  {
    var parts := Split(Join(KindNames(ks), "/"), '/');
    KindNamesParts(ks);
    ParsedKindsSpec(parts);
    forall x ensures x in ParsedKinds(parts) <==> x in ks {
      KindNamesMember(ks, parts, x);
    }
    AscendingUnique(ParsedKinds(parts), ks);
  }

  lemma KindNamesParts(ks: seq<Kind>)
    ensures Split(Join(KindNames(ks), "/"), '/') == if ks == [] then [""] else KindNames(ks)
  {
    var names := KindNames(ks);
    if ks == [] {
      assert Split(Join(names, "/"), '/') == [""];
    } else {
      forall part | part in names ensures '/' !in part {
      }
      SplitJoin(names, '/');
    }
  }

  lemma KindNamesMember(ks: seq<Kind>, parts: seq<string>, x: Kind)
    requires forall y :: y in ks ==> Named(y)
    requires parts == if ks == [] then [""] else KindNames(ks)
    ensures Named(x) && KindString(x) in parts <==> x in ks
  {
    var names := KindNames(ks);
    if x in ks {
      var i :| 0 <= i < |ks| && ks[i] == x;
      assert names[i] == KindString(x);
    }
    if Named(x) && KindString(x) in parts {
      assert ks != [];
      var i :| 0 <= i < |names| && names[i] == KindString(x);
      KindStringInjective(x, ks[i]);
    }
  }

  lemma KindStringInjective(a: Kind, b: Kind)
    requires Named(a) && Named(b) && KindString(a) == KindString(b)
    ensures a == b
  {
  }

  lemma ParseKindsExamples()
    ensures ParsedKinds(["BUGFIX", "CHANGE"]) == [KindChange, KindBugfix]
    ensures ParsedKinds(["BUGFIX", "BUGFIX"]) == [KindBugfix]
    ensures ParsedKinds(["BUGFIX", "INVALID"]) == [KindBugfix]
    ensures ParsedKinds(["INVALID"]) == []
  {
    assert KindString(0) !in ["BUGFIX", "BUGFIX"];
    assert KindString(0) !in ["BUGFIX", "INVALID"];
  }

  /** Lexicographic order on kind lists, a proper prefix first. */
  function Lex(k: seq<Kind>, other: seq<Kind>): bool
    decreases |k|
  {
    if k == [] then true
    else if other == [] then false
    else if k[0] != other[0] then k[0] < other[0]
    else Lex(k[1..], other[1..])
  }

  /** What Kinds.Before decides: an empty list sorts after everything, other lists lexicographically. */
  predicate Precedes(k: seq<Kind>, other: seq<Kind>) {
    other == [] || (k != [] && Lex(k, other))
  }

  /**
   * Kinds.Before: the first differing position decides; with an equal
   * common prefix the shorter (or equal) list comes first.
   */
  method Before(k: seq<Kind>, other: seq<Kind>) returns (b: bool)
    ensures b == Precedes(k, other)
  {
    if |other| == 0 {
      return true;
    } else if |k| == 0 {
      return false;
    }
    var n := |k|;
    if |k| > |other| {
      n := |other|;
    }
    for j := 0 to n
      invariant Lex(k, other) == Lex(k[j..], other[j..])
    {
      assert k[j..][1..] == k[j + 1..] && other[j..][1..] == other[j + 1..];
      if k[j] == other[j] {
        continue;
      }
      return k[j] < other[j];
    }
    assert k[n..] == [] || other[n..] == [];
    return |k| <= |other|;
  }

  lemma {:induction false} LexReflexive(k: seq<Kind>)
    ensures Lex(k, k)
    decreases |k|
  {
    if k != [] {
      LexReflexive(k[1..]);
    }
  }

  lemma {:induction false} LexTotal(a: seq<Kind>, b: seq<Kind>)
    ensures Lex(a, b) || Lex(b, a)
    decreases |a|
  {
    if a != [] && b != [] && a[0] == b[0] {
      LexTotal(a[1..], b[1..]);
    }
  }

  lemma {:induction false} LexAntisymmetric(a: seq<Kind>, b: seq<Kind>)
    requires Lex(a, b) && Lex(b, a)
    ensures a == b
    decreases |a|
  {
    if a != [] && b != [] {
      LexAntisymmetric(a[1..], b[1..]);
      assert a == [a[0]] + a[1..] && b == [b[0]] + b[1..];
    }
  }

  lemma {:induction false} LexTransitive(a: seq<Kind>, b: seq<Kind>, c: seq<Kind>)
    requires Lex(a, b) && Lex(b, c)
    ensures Lex(a, c)
    decreases |a|
  {
    if a != [] && b != [] && c != [] && a[0] == b[0] && b[0] == c[0] {
      LexTransitive(a[1..], b[1..], c[1..]);
    }
  }

  /**
   * Before is a total order on kind lists: reflexive (equal neighbours are
   * in order), total, antisymmetric and transitive.
   */
  lemma PrecedesTotalOrder(a: seq<Kind>, b: seq<Kind>, c: seq<Kind>)
    ensures Precedes(a, a)
    ensures Precedes(a, b) || Precedes(b, a)
    ensures Precedes(a, b) && Precedes(b, a) ==> a == b
    ensures Precedes(a, b) && Precedes(b, c) ==> Precedes(a, c)
  {
    LexReflexive(a);
    LexTotal(a, b);
    if Precedes(a, b) && Precedes(b, a) && a != [] && b != [] {
      LexAntisymmetric(a, b);
    }
    if Precedes(a, b) && Precedes(b, c) && a != [] && b != [] && c != [] {
      LexTransitive(a, b, c);
    }
  }

  /** A change line and the kinds read from its bracket. */
  datatype Change = Change(text: string, kinds: seq<Kind>)

  /** Every adjacent pair of changes is in Before order. */
  predicate AdjacentSorted(c: seq<Change>) {
    forall i :: 0 <= i < |c| - 1 ==> Precedes(c[i].kinds, c[i + 1].kinds)
  }

  /** The message Sorted reports for an out-of-order pair. */
  function OrderError(first: Change, second: Change): string {
    GoQuote(first.text) + " should be after " + GoQuote(second.text)
  }

  /** The pair at `i` is the first adjacent pair of `c` out of Before order. */
  predicate FirstDisorder(c: seq<Change>, i: int)
    requires 0 <= i < |c| - 1
  {
    !Precedes(c[i].kinds, c[i + 1].kinds) && forall j :: 0 <= j < i ==> Precedes(c[j].kinds, c[j + 1].kinds)
  }

  /** `msg` is the order error for the first adjacent pair of `c` that is out of order. */
  ghost predicate IsOrderError(c: seq<Change>, msg: string) {
    exists i :: 0 <= i < |c| - 1 && FirstDisorder(c, i) && msg == OrderError(c[i], c[i + 1])
  }

  /**
   * Changes.Sorted: no error iff every adjacent pair is in Before order;
   * otherwise the error names the first pair that is not.
   */
  method Sorted(c: seq<Change>) returns (err: Option<string>)
    ensures err.None? <==> AdjacentSorted(c)
    ensures err.Some? ==> IsOrderError(c, err.value)
  {
    var i := 0;
    while i + 1 < |c|
      invariant i == 0 || i < |c|
      invariant forall j :: 0 <= j < i ==> Precedes(c[j].kinds, c[j + 1].kinds)
    {
      var ok := Before(c[i].kinds, c[i + 1].kinds);
      if !ok {
        return Some(OrderError(c[i], c[i + 1]));
      }
      i := i + 1;
    }
    return None;
  }

  /** Adjacent order is enough: with Before a total order, every earlier change precedes every later one. */
  lemma {:induction false} AdjacentSortedPairwise(c: seq<Change>, i: nat, j: nat)
    requires AdjacentSorted(c) && i <= j < |c|
    ensures Precedes(c[i].kinds, c[j].kinds)
    decreases j - i
  {
    if i == j {
      PrecedesTotalOrder(c[i].kinds, c[i].kinds, c[i].kinds);
    } else {
      AdjacentSortedPairwise(c, i + 1, j);
      PrecedesTotalOrder(c[i].kinds, c[i + 1].kinds, c[j].kinds);
    }
  }

  lemma SortedExamples()
    ensures AdjacentSorted([Change("a", [KindChange]), Change("b", [])])
    ensures !AdjacentSorted([Change("a", []), Change("b", [KindChange]), Change("c", [KindFeature])])
    ensures AdjacentSorted([Change("a", [KindChange]), Change("b", [KindChange, KindBugfix])])
    ensures !AdjacentSorted([Change("a", [KindChange, KindBugfix]), Change("b", [KindChange])])
    ensures !AdjacentSorted([Change("a", [KindChange]), Change("b", [KindBugfix]), Change("c", [KindFeature])])
  {
    var b := [Change("a", [KindChange]), Change("b", [KindChange, KindBugfix])];
    assert Lex(b[0].kinds[1..], b[1].kinds[1..]);
    assert Precedes(b[0].kinds, b[1].kinds);
    var c := [Change("a", [KindChange, KindBugfix]), Change("b", [KindChange])];
    assert !Lex(c[0].kinds[1..], c[1].kinds[1..]);
    var d := [Change("a", [KindChange]), Change("b", [KindBugfix]), Change("c", [KindFeature])];
    assert !Precedes(d[1].kinds, d[2].kinds);
    var e := [Change("a", []), Change("b", [KindChange]), Change("c", [KindFeature])];
    assert !Precedes(e[0].kinds, e[1].kinds);
  }

  /** A calendar date as time.Parse reads it from the layout "2006-01-02". */
  datatype Date = Date(year: int, month: int, day: int)

  /** The zero time.Time's date; IsZero holds for a parsed date exactly when it is this one. */
  const ZeroDate: Date := Date(1, 1, 1)

  predicate IsLeap(year: int) {
    year % 4 == 0 && (year % 100 != 0 || year % 400 == 0)
  }

  function DaysIn(month: int, year: int): int
    requires 1 <= month <= 12
  {
    if month == 2 then (if IsLeap(year) then 29 else 28)
    else if month == 4 || month == 6 || month == 9 || month == 11 then 30
    else 31
  }

  /** A date the layout can print and read back: four-digit year, real month and day. */
  predicate ValidDate(d: Date) {
    0 <= d.year <= 9999 && 1 <= d.month <= 12 && 1 <= d.day <= DaysIn(d.month, d.year)
  }

  predicate IsDigit(c: char) {
    '0' <= c <= '9'
  }

  function DigitVal(c: char): int {
    c as int - '0' as int
  }

  function Digit(d: int): char
    requires 0 <= d <= 9
  {
    ('0' as int + d) as char
  }

  /** The text the header regular expression captures: \d{4}-\d{2}-\d{2}. */
  predicate DatePattern(s: string) {
    |s| == 10 && s[4] == '-' && s[7] == '-' &&
    forall i :: 0 <= i < 10 && i != 4 && i != 7 ==> IsDigit(s[i])
  }

  function Num2(s: string): int
    requires |s| == 2
  {
    10 * DigitVal(s[0]) + DigitVal(s[1])
  }

  function Num4(s: string): int
    requires |s| == 4
  {
    100 * Num2(s[..2]) + Num2(s[2..])
  }

  function Pad2(n: int): (r: string)
    requires 0 <= n < 100
    ensures |r| == 2 && IsDigit(r[0]) && IsDigit(r[1])
  {
    [Digit(n / 10), Digit(n % 10)]
  }

  function Pad4(n: int): (r: string)
    requires 0 <= n < 10000
    ensures |r| == 4
  {
    Pad2(n / 100) + Pad2(n % 100)
  }

  /** Time.Format with the layout "2006-01-02". */
  function FormatDate(d: Date): (r: string)
    requires ValidDate(d)
    ensures DatePattern(r)
  {
    Pad4(d.year) + "-" + Pad2(d.month) + "-" + Pad2(d.day)
  }

  /**
   * time.Parse with the layout "2006-01-02" on text of the right shape: the
   * month must be 01..12 and the day must exist in that month of that year.
   */
  function ParseDate(s: string): (r: Result<Date>)
    requires DatePattern(s)
    ensures r.Ok? <==> ValidDate(Date(Num4(s[..4]), Num2(s[5..7]), Num2(s[8..])))
    ensures r.Ok? ==> r.value == Date(Num4(s[..4]), Num2(s[5..7]), Num2(s[8..]))
  {
    var year, month, day := Num4(s[..4]), Num2(s[5..7]), Num2(s[8..]);
    if month < 1 || month > 12 then Err("parsing time " + GoQuote(s) + ": month out of range")
    else if day < 1 || day > DaysIn(month, year) then Err("parsing time " + GoQuote(s) + ": day out of range")
    else Ok(Date(year, month, day))
  }

  lemma Num2Pad2(n: int)
    requires 0 <= n < 100
    ensures Num2(Pad2(n)) == n
  {
  }

  lemma Pad2Num2(s: string)
    requires |s| == 2 && IsDigit(s[0]) && IsDigit(s[1])
    ensures Pad2(Num2(s)) == s
  {
  }

  /** Formatting a valid date and parsing it again gives the date back. */
  lemma ParseFormatDate(d: Date)
    requires ValidDate(d)
    ensures ParseDate(FormatDate(d)) == Ok(d)
  {
    var s := FormatDate(d);
    assert s[..4] == Pad4(d.year) && s[5..7] == Pad2(d.month) && s[8..] == Pad2(d.day);
    assert s[..4][..2] == Pad2(d.year / 100) && s[..4][2..] == Pad2(d.year % 100);
    Num2Pad2(d.year / 100);
    Num2Pad2(d.year % 100);
    Num2Pad2(d.month);
    Num2Pad2(d.day);
  }

  /** A date that parses prints back as the very text it was read from. */
  lemma FormatParseDate(s: string)
    requires DatePattern(s) && ParseDate(s).Ok?
    ensures FormatDate(ParseDate(s).value) == s
  {
    var d := ParseDate(s).value;
    assert IsDigit(s[0]) && IsDigit(s[1]) && IsDigit(s[2]) && IsDigit(s[3]);
    assert IsDigit(s[5]) && IsDigit(s[6]) && IsDigit(s[8]) && IsDigit(s[9]);
    Pad2Num2(s[..4][..2]);
    Pad2Num2(s[..4][2..]);
    Pad2Num2(s[5..7]);
    Pad2Num2(s[8..]);
    var y := Num4(s[..4]);
    assert y / 100 == Num2(s[..4][..2]) && y % 100 == Num2(s[..4][2..]);
    assert FormatDate(d) == Pad4(y) + "-" + Pad2(d.month) + "-" + Pad2(d.day);
    assert s == s[..4][..2] + s[..4][2..] + "-" + s[5..7] + "-" + s[8..];
  }

  lemma ParseDateExample()
    ensures DatePattern("2016-01-02") && ParseDate("2016-01-02") == Ok(Date(2016, 1, 2))
  {
    var s := "2016-01-02";
    assert DatePattern(s);
    assert Num4(s[..4]) == 2016 by {
      assert s[..4][..2] == "20" && s[..4][2..] == "16";
    }
    assert Num2(s[5..7]) == 1 by {
      assert s[5..7] == "01";
    }
    assert Num2(s[8..]) == 2 by {
      assert s[8..] == "02";
    }
    assert ValidDate(Date(2016, 1, 2));
  }

  /** The invalid-date case of the changelog tests: month 19 does not exist. */
  lemma ParseDateBadMonth()
    ensures DatePattern("2006-19-02") && ParseDate("2006-19-02").Err?
  {
    var s := "2006-19-02";
    assert s[5..7] == "19";
  }

  /** February 29th exists in leap years only. */
  lemma ParseDateLeapDay()
    ensures DatePattern("2016-02-29") && ParseDate("2016-02-29").Ok?
  {
    var s := "2016-02-29";
    assert s[..4] == "2016" && s[..4][..2] == "20" && s[..4][2..] == "16" && s[5..7] == "02" && s[8..] == "29";
    assert IsLeap(2016);
  }

  lemma ParseDateNoLeapDay()
    ensures DatePattern("2015-02-29") && ParseDate("2015-02-29").Err?
  {
    var t := "2015-02-29";
    assert t[..4] == "2015" && t[..4][..2] == "20" && t[..4][2..] == "15" && t[5..7] == "02" && t[8..] == "29";
    assert !IsLeap(2015);
  }

  /** The characters regexp.QuoteMeta escapes. */
  const MetaChars: set<char> := {'\\', '.', '+', '*', '?', '(', ')', '|', '[', ']', '{', '}', '^', '$'}

  /** regexp.QuoteMeta */
  function QuoteMeta(s: string): (r: string)
    ensures |r| >= |s|
    decreases |s|
  {
    if s == [] then []
    else (if s[0] in MetaChars then ['\\', s[0]] else [s[0]]) + QuoteMeta(s[1..])
  }

  /** The source text of the header regular expression for a version. */
  function HeaderPattern(version: string): string {
    "^#{1,2} " + QuoteMeta(version) + " / (\\d{4}-\\d{2}-\\d{2})"
  }

  /** The error ReadEntry reports when the version has no dated header. */
  function NotFoundError(version: string): string {
    "unable to locate release information in changelog for version " + GoQuote(version)
    + ", expected format: " + GoQuote(HeaderPattern(version))
  }

  /**
   * The date text of a header line for the version: "# " or "## ", the
   * version, " / ", and a date-shaped text; anything may follow.
   */
  function HeaderDate(line: string, version: string): (r: Option<string>)
    ensures r.Some? ==> DatePattern(r.value)
    ensures r.Some? ==> HasPrefix(line, "## " + version + " / " + r.value) || HasPrefix(line, "# " + version + " / " + r.value)
  {
    var p2, p1 := "## " + version + " / ", "# " + version + " / ";
    var start := if HasPrefix(line, p2) then |p2| else if HasPrefix(line, p1) then |p1| else -1;
    if 0 <= start && start + 10 <= |line| && DatePattern(line[start..start + 10]) then
      assert line[..start + 10] == line[..start] + line[start..start + 10];
      Some(line[start..start + 10])
    else None
  }

  /** The bracketed kinds of a change line "* [KINDS]...": a non-empty text without ']'. */
  function ChangeLabel(line: string): (r: Option<string>)
    ensures r.Some? ==> r.value != "" && ']' !in r.value && HasPrefix(line, "* [" + r.value + "]")
  {
    if HasPrefix(line, "* [") then
      var j := IndexOf(line[3..], ']');
      if j >= 1 then
        assert line[..3 + j + 1] == line[..3] + line[3..3 + j] + [']'];
        Some(line[3..3 + j])
      else None
    else None
  }

  /** The change a kept line contributes: one for a change line, none otherwise. */
  function ChangeOf(line: string): seq<Change> {
    match ChangeLabel(line)
    case None => []
    case Some(kindsText) => [Change(line, ParsedKinds(Split(kindsText, '/')))]
  }

  /** The changes of the kept lines, in order. */
  function ChangesOf(kept: seq<string>): seq<Change>
    decreases |kept|
  {
    if kept == [] then [] else ChangesOf(kept[..|kept| - 1]) + ChangeOf(kept[|kept| - 1])
  }

  /** The state of ReadEntry's scan: inside the entry or not, the lines kept, the header's date and the changes. */
  datatype ScanState = ScanState(reading: bool, kept: seq<string>, date: Date, changes: seq<Change>)

  const Start: ScanState := ScanState(false, [], ZeroDate, [])

  /** The scan goes on while nothing is kept yet or the entry is still being read. */
  predicate Active(st: ScanState) {
    |st.kept| == 0 || st.reading
  }

  /**
   * One line of the scan: a header for the version starts (or restarts)
   * the entry and sets the date; any other "## " line ends it; inside the
   * entry, blank lines before the first kept one are skipped and every
   * other line is kept, change lines also giving a change.
   */
  function Step(st: ScanState, line: string, version: string): Result<ScanState> {
    var h := HeaderDate(line, version);
    if h.Some? then
      match ParseDate(h.value)
      case Err(m) => Err("invalid changelog date: " + m)
      case Ok(d) => Ok(st.(reading := true, date := d))
    else if HasPrefix(line, "## ") then Ok(st.(reading := false))
    else if st.reading then
      if |st.kept| == 0 && TrimSpace(line) == "" then Ok(st)
      else Ok(st.(changes := st.changes + ChangeOf(line), kept := st.kept + [line]))
    else Ok(st)
  }

  /** The scan over the remaining lines. */
  function ScanLines(lines: seq<string>, st: ScanState, version: string): Result<ScanState>
    decreases |lines|
  {
    if lines == [] || !Active(st) then Ok(st)
    else
      match Step(st, lines[0], version)
      case Err(m) => Err(m)
      case Ok(next) => ScanLines(lines[1..], next, version)
  }

  /** One version's entry of a changelog. */
  datatype Entry = Entry(version: string, date: Date, changes: seq<Change>, text: string)

  /** What ReadEntry returns for the lines of a changelog. */
  function ReadEntryOf(lines: seq<string>, version: string): Result<Entry> {
    match ScanLines(lines, Start, version)
    case Err(m) => Err(m)
    case Ok(st) =>
      if st.date == ZeroDate then Err(NotFoundError(version))
      else Ok(Entry(version, st.date, st.changes, Join(st.kept, "\n")))
  }

  /**
   * ReadEntry: scans the changelog's lines for the version's header and
   * collects its body up to the next "## " line.
   */
  method ReadEntry(lines: seq<string>, version: string) returns (r: Result<Entry>)
    ensures r == ReadEntryOf(lines, version)
  {
    var reading := false;
    var kept: seq<string> := [];
    var date := ZeroDate;
    var changes: seq<Change> := [];
    var i := 0;
    while (|kept| == 0 || reading) && i < |lines|
      invariant 0 <= i <= |lines|
      invariant ScanLines(lines, Start, version) == ScanLines(lines[i..], ScanState(reading, kept, date, changes), version)
    {
      var line := lines[i];
      ghost var st := ScanState(reading, kept, date, changes);
      assert lines[i..][1..] == lines[i + 1..];
      i := i + 1;
      var h := HeaderDate(line, version);
      if h.Some? {
        reading := true;
        var t := ParseDate(h.value);
        if t.Err? {
          return Err("invalid changelog date: " + t.msg);
        }
        date := t.value;
      } else if HasPrefix(line, "## ") {
        reading := false;
      } else if reading {
        if |kept| == 0 && TrimSpace(line) == "" {
          continue;
        }
        var bracket := ChangeLabel(line);
        if bracket.Some? {
          var kinds := ParseKinds(Split(bracket.value, '/'));
          changes := changes + [Change(line, kinds)];
          assert changes == st.changes + ChangeOf(line);
        } else {
          assert changes == st.changes + ChangeOf(line);
        }
        kept := kept + [line];
      }
      assert Step(st, line, version) == Ok(ScanState(reading, kept, date, changes));
    }
    if date == ZeroDate {
      return Err(NotFoundError(version));
    }
    return Ok(Entry(version, date, changes, Join(kept, "\n")));
  }

  /** Entry.Name: the version and the date, as the header writes them. */
  function Name(e: Entry): string
    requires ValidDate(e.date)
  {
    e.version + " / " + FormatDate(e.date)
  }

  /** What holds of the scan state throughout: see StepKeeps. */
  predicate ScanInv(st: ScanState, version: string, all: seq<string>) {
    st.changes == ChangesOf(st.kept) &&
    (forall l :: l in st.kept ==> l in all && !HasPrefix(l, "## ") && HeaderDate(l, version).None?) &&
    (st.kept == [] || TrimSpace(st.kept[0]) != "") &&
    ValidDate(st.date)
  }

  lemma StepKeeps(st: ScanState, line: string, version: string, all: seq<string>)
    requires ScanInv(st, version, all) && line in all && Step(st, line, version).Ok?
    ensures ScanInv(Step(st, line, version).value, version, all)
  {
    var h := HeaderDate(line, version);
    if h.None? && !HasPrefix(line, "## ") && st.reading && !(|st.kept| == 0 && TrimSpace(line) == "") {
      var kept := st.kept + [line];
      var next := Step(st, line, version).value;
      assert next.kept == kept && next.changes == st.changes + ChangeOf(line);
      assert kept[..|kept| - 1] == st.kept && kept[|kept| - 1] == line;
      assert next.changes == ChangesOf(kept);
      assert kept[0] == (if st.kept == [] then line else st.kept[0]);
      assert forall l :: l in kept ==> l in st.kept || l == line;
    }
  }

  /**
   * The kept lines are lines of the changelog, none of them a "## " line
   * or a header for the version, the first of them not blank; the changes
   * are exactly those of the kept change lines, in order; the date is valid.
   */
  lemma {:induction false} ScanKeeps(lines: seq<string>, st: ScanState, version: string, all: seq<string>)
    requires ScanInv(st, version, all) && forall l :: l in lines ==> l in all
    requires ScanLines(lines, st, version).Ok?
    ensures ScanInv(ScanLines(lines, st, version).value, version, all)
    decreases |lines|
  {
    if lines != [] && Active(st) {
      assert lines[0] in lines;
      StepKeeps(st, lines[0], version, all);
      ScanKeeps(lines[1..], Step(st, lines[0], version).value, version, all);
    }
  }

  /** The date the scan ends with is the one it started with or that of a header line for the version. */
  lemma {:induction false} ScanDate(lines: seq<string>, st: ScanState, version: string)
    requires ScanLines(lines, st, version).Ok?
    ensures var d := ScanLines(lines, st, version).value.date;
            d == st.date ||
            exists i :: 0 <= i < |lines| && HeaderDate(lines[i], version).Some? &&
                        ParseDate(HeaderDate(lines[i], version).value) == Ok(d)
    decreases |lines|
  {
    if lines != [] && Active(st) {
      var next := Step(st, lines[0], version).value;
      ScanDate(lines[1..], next, version);
      var d := ScanLines(lines, st, version).value.date;
      if d != next.date {
        var i :| 0 <= i < |lines| - 1 && HeaderDate(lines[1..][i], version).Some? &&
                 ParseDate(HeaderDate(lines[1..][i], version).value) == Ok(d);
        assert lines[1..][i] == lines[i + 1];
      }
    }
  }

  /** Without a header line for the version the scan never fails and keeps its date. */
  lemma {:induction false} ScanNoHeader(lines: seq<string>, st: ScanState, version: string)
    requires forall i :: 0 <= i < |lines| ==> HeaderDate(lines[i], version).None?
    ensures ScanLines(lines, st, version).Ok? && ScanLines(lines, st, version).value.date == st.date
    decreases |lines|
  {
    if lines != [] && Active(st) {
      ScanNoHeader(lines[1..], Step(st, lines[0], version).value, version);
    }
  }

  /** A changelog with no dated header for the version gives the not-found error. */
  lemma ReadEntryNotFound(lines: seq<string>, version: string)
    requires forall i :: 0 <= i < |lines| ==> HeaderDate(lines[i], version).None?
    ensures ReadEntryOf(lines, version) == Err(NotFoundError(version))
  {
    ScanNoHeader(lines, Start, version);
  }

  /**
   * An entry that is found names its version, has a valid non-zero date
   * that some header line for the version spells exactly as Name prints it,
   * and its text and changes come from kept lines as ScanKeeps describes.
   */
  lemma ReadEntryFound(lines: seq<string>, version: string)
    requires ReadEntryOf(lines, version).Ok?
    ensures var e := ReadEntryOf(lines, version).value;
            e.version == version && ValidDate(e.date) && e.date != ZeroDate &&
            (exists i :: 0 <= i < |lines| && HeaderDate(lines[i], version) == Some(FormatDate(e.date))) &&
            Name(e) == version + " / " + FormatDate(e.date) &&
            exists kept: seq<string> ::
              e.text == Join(kept, "\n") && e.changes == ChangesOf(kept) &&
              (kept == [] || TrimSpace(kept[0]) != "") &&
              forall l :: l in kept ==> l in lines && !HasPrefix(l, "## ") && HeaderDate(l, version).None?
  {
    ReadEntryKept(lines, version);
    ReadEntryDate(lines, version);
  }

  /** The text and changes of a found entry come from kept lines. */
  lemma ReadEntryKept(lines: seq<string>, version: string)
    requires ReadEntryOf(lines, version).Ok?
    ensures var e := ReadEntryOf(lines, version).value;
            exists kept: seq<string> ::
              e.text == Join(kept, "\n") && e.changes == ChangesOf(kept) &&
              (kept == [] || TrimSpace(kept[0]) != "") &&
              forall l :: l in kept ==> l in lines && !HasPrefix(l, "## ") && HeaderDate(l, version).None?
  {
    var st := ScanLines(lines, Start, version).value;
    ScanKeeps(lines, Start, version, lines);
    assert ScanInv(st, version, lines);
    var e := ReadEntryOf(lines, version).value;
    assert e.text == Join(st.kept, "\n") && e.changes == ChangesOf(st.kept);
  }

  /** A found entry has a valid non-zero date that a header line for the version spells. */
  lemma ReadEntryDate(lines: seq<string>, version: string)
    requires ReadEntryOf(lines, version).Ok?
    ensures var e := ReadEntryOf(lines, version).value;
            e.version == version && ValidDate(e.date) && e.date != ZeroDate &&
            (exists i :: 0 <= i < |lines| && HeaderDate(lines[i], version) == Some(FormatDate(e.date)))
  {
    var st := ScanLines(lines, Start, version).value;
    ScanKeeps(lines, Start, version, lines);
    ScanDate(lines, Start, version);
    var i :| 0 <= i < |lines| && HeaderDate(lines[i], version).Some? &&
             ParseDate(HeaderDate(lines[i], version).value) == Ok(st.date);
    FormatParseDate(HeaderDate(lines[i], version).value);
  }

  /** Running the scan over two pieces of text one after the other is running it over the whole. */
  lemma {:induction false} ScanAppend(a: seq<string>, b: seq<string>, st: ScanState, version: string)
    ensures ScanLines(a + b, st, version)
            == match ScanLines(a, st, version)
               case Err(m) => Err(m)
               case Ok(mid) => ScanLines(b, mid, version)
    decreases |a|
  {
    if a == [] {
      assert a + b == b;
    } else if Active(st) {
      assert (a + b)[0] == a[0] && (a + b)[1..] == a[1..] + b;
      match Step(st, a[0], version)
      case Err(_) =>
      case Ok(next) => ScanAppend(a[1..], b, next, version);
    } else {
      assert a + b != [];
    }
  }

  /** Outside the entry, lines without a header for the version change nothing. */
  lemma {:induction false} ScanIdle(lines: seq<string>, st: ScanState, version: string)
    requires !st.reading
    requires forall l :: l in lines ==> HeaderDate(l, version).None?
    ensures ScanLines(lines, st, version) == Ok(st)
    decreases |lines|
  {
    if lines != [] && Active(st) {
      assert lines[0] in lines;
      assert Step(st, lines[0], version) == Ok(st);
      assert forall l :: l in lines[1..] ==> l in lines;
      ScanIdle(lines[1..], st, version);
    }
  }

  /** A blank line is neither a "## " line nor a header. */
  lemma BlankLine(l: string, version: string)
    requires TrimSpace(l) == ""
    ensures !HasPrefix(l, "## ") && HeaderDate(l, version).None?
  {
    if l != [] {
      assert l[0] in GoSpace;
    }
  }

  /** Blank lines before anything is kept are skipped. */
  lemma {:induction false} ScanBlanks(blanks: seq<string>, st: ScanState, version: string)
    requires st.reading && st.kept == []
    requires forall l :: l in blanks ==> TrimSpace(l) == ""
    ensures ScanLines(blanks, st, version) == Ok(st)
    decreases |blanks|
  {
    if blanks != [] {
      assert blanks[0] in blanks;
      BlankLine(blanks[0], version);
      assert Step(st, blanks[0], version) == Ok(st);
      assert forall l :: l in blanks[1..] ==> l in blanks;
      ScanBlanks(blanks[1..], st, version);
    }
  }

  /**
   * Inside the entry, lines that are neither "## " lines nor headers are
   * all kept, with their changes, once the first of them is not blank.
   */
  lemma {:induction false} ScanBody(body: seq<string>, st: ScanState, version: string)
    requires st.reading
    requires st.kept != [] || body == [] || TrimSpace(body[0]) != ""
    requires forall l :: l in body ==> !HasPrefix(l, "## ") && HeaderDate(l, version).None?
    ensures ScanLines(body, st, version) == Ok(st.(kept := st.kept + body, changes := st.changes + ChangesOf(body)))
    decreases |body|
  {
    if body == [] {
      assert st.kept + body == st.kept && st.changes + ChangesOf(body) == st.changes;
    } else {
      var line, tail := body[0], body[1..];
      var next := st.(changes := st.changes + ChangeOf(line), kept := st.kept + [line]);
      assert line in body;
      assert Step(st, line, version) == Ok(next);
      assert forall l :: l in tail ==> l in body;
      ScanBody(tail, next, version);
      ChangesOfCons(line, tail);
      assert [line] + tail == body;
      AppendAssoc(st.kept, [line], tail);
      AppendAssoc(st.changes, ChangeOf(line), ChangesOf(tail));
    }
  }

  /** The changes of lines are those of the first line, then those of the others. */
  lemma {:induction false} ChangesOfCons(line: string, tail: seq<string>)
    ensures ChangesOf([line] + tail) == ChangeOf(line) + ChangesOf(tail)
    decreases |tail|
  {
    var all := [line] + tail;
    if tail == [] {
      assert all[..0] == [];
      assert ChangesOf(all) == ChangesOf([]) + ChangeOf(line);
    } else {
      var n := |tail| - 1;
      ChangesOfCons(line, tail[..n]);
      assert all[..|all| - 1] == [line] + tail[..n];
      assert all[|all| - 1] == tail[n];
    }
  }

  /**
   * The shape of an entry: the lines before the version's dated header hold
   * no header for it; blank lines after the header are skipped; the body
   * that follows, up to the next "## " line, is the entry's text, and its
   * change lines its changes. A header dated the zero date 0001-01-01
   * counts as no header at all.
   */
  lemma ReadEntryStructure(pre: seq<string>, h: string, blanks: seq<string>, body: seq<string>, rest: seq<string>,
                           version: string, d: Date)
    requires forall l :: l in pre ==> HeaderDate(l, version).None?
    requires HeaderDate(h, version).Some? && ParseDate(HeaderDate(h, version).value) == Ok(d) && d != ZeroDate
    requires forall l :: l in blanks ==> TrimSpace(l) == ""
    requires body == [] || TrimSpace(body[0]) != ""
    requires forall l :: l in body ==> !HasPrefix(l, "## ") && HeaderDate(l, version).None?
    requires rest == [] || (HasPrefix(rest[0], "## ") && HeaderDate(rest[0], version).None?)
    requires body == [] ==> forall l :: l in rest ==> HeaderDate(l, version).None?
    ensures ReadEntryOf(pre + [h] + blanks + body + rest, version)
            == Ok(Entry(version, d, ChangesOf(body), Join(body, "\n")))
  {
    var after := blanks + body + rest;
    var found := ScanState(rest == [], body, d, ChangesOf(body));
    ScanAfterHeader(blanks, body, rest, version, d);
    assert ScanLines([h] + after, Start, version) == Ok(found) by {
      assert Step(Start, h, version) == Ok(Start.(reading := true, date := d));
      assert ([h] + after)[0] == h && ([h] + after)[1..] == after;
    }
    ScanIdle(pre, Start, version);
    ScanAppend(pre, [h] + after, Start, version);
    assert pre + [h] + blanks + body + rest == pre + ([h] + after) by {
      AppendAssoc(pre + [h] + blanks, body, rest);
      AppendAssoc(pre + [h], blanks, body + rest);
      AppendAssoc(pre, [h], blanks + (body + rest));
      AppendAssoc(blanks, body, rest);
    }
  }

  /** From the header on: the blanks are skipped, the body is kept, and the next "## " line ends the entry. */
  lemma ScanAfterHeader(blanks: seq<string>, body: seq<string>, rest: seq<string>, version: string, d: Date)
    requires forall l :: l in blanks ==> TrimSpace(l) == ""
    requires body == [] || TrimSpace(body[0]) != ""
    requires forall l :: l in body ==> !HasPrefix(l, "## ") && HeaderDate(l, version).None?
    requires rest == [] || (HasPrefix(rest[0], "## ") && HeaderDate(rest[0], version).None?)
    requires body == [] ==> forall l :: l in rest ==> HeaderDate(l, version).None?
    ensures ScanLines(blanks + body + rest, Start.(reading := true, date := d), version)
            == Ok(ScanState(rest == [], body, d, ChangesOf(body)))
  {
    var header := Start.(reading := true, date := d);
    var found := ScanState(rest == [], body, d, ChangesOf(body));
    assert ScanLines(body + rest, header, version) == Ok(found) by {
      ScanBody(body, header, version);
      ScanAppend(body, rest, header, version);
      assert [] + body == body && [] + ChangesOf(body) == ChangesOf(body);
      ScanEntryEnd(body, rest, version, d);
    }
    assert ScanLines(blanks + (body + rest), header, version) == Ok(found) by {
      ScanBlanks(blanks, header, version);
      ScanAppend(blanks, body + rest, header, version);
    }
    AppendAssoc(blanks, body, rest);
  }

  /** After the body, the next "## " line ends the entry; an empty entry goes on to the end. */
  lemma ScanEntryEnd(body: seq<string>, rest: seq<string>, version: string, d: Date)
    requires rest == [] || (HasPrefix(rest[0], "## ") && HeaderDate(rest[0], version).None?)
    requires body == [] ==> forall l :: l in rest ==> HeaderDate(l, version).None?
    ensures ScanLines(rest, ScanState(true, body, d, ChangesOf(body)), version)
            == Ok(ScanState(rest == [], body, d, ChangesOf(body)))
  {
    var full := ScanState(true, body, d, ChangesOf(body));
    if rest != [] {
      var ended := full.(reading := false);
      assert Step(full, rest[0], version) == Ok(ended);
      if body == [] {
        assert forall l :: l in rest[1..] ==> l in rest;
        ScanIdle(rest[1..], ended, version);
      }
    }
  }

  /** A header line for the version followed by a date-shaped text gives that text. */
  lemma HeaderLine(version: string, t: string)
    requires DatePattern(t)
    ensures HeaderDate("## " + version + " / " + t, version) == Some(t)
  {
    var p2 := "## " + version + " / ";
    var line := p2 + t;
    assert line[..|p2|] == p2;
    assert line[|p2|..|p2| + 10] == t;
  }

  /** A line that does not start with '#' is neither a "## " line nor a header. */
  lemma PlainLine(l: string, version: string)
    requires l == [] || l[0] != '#'
    ensures !HasPrefix(l, "## ") && HeaderDate(l, version).None?
  {
    if l != [] {
      assert ("# " + version + " / ")[0] == '#' && ("## " + version + " / ")[0] == '#';
    }
  }

  /** A line starting with '*' or '#', as change lines and headings do, is not blank. */
  lemma NotBlank(l: string)
    requires l != [] && (l[0] == '*' || l[0] == '#')
    ensures TrimSpace(l) != ""
  {
    assert l[0] !in GoSpace;
    assert TrimLeft(l, GoSpace) == l;
  }

  /** The line "* [KIND]…" of a named kind is a change of that kind alone. */
  lemma ChangeLine(k: Kind, text: string)
    requires Named(k)
    ensures var line := "* [" + KindString(k) + "]" + text;
            ChangeOf(line) == [Change(line, [k])]
  {
    var name := KindString(k);
    ChangeLabelOf(name, text);
    assert Split(name, '/') == [name];
    ParsedKindOne(k);
  }

  /** The label of "* [NAME]…" is NAME when it is not empty and holds no ']'. */
  lemma ChangeLabelOf(name: string, text: string)
    requires name != "" && ']' !in name
    ensures ChangeLabel("* [" + name + "]" + text) == Some(name)
  {
    var line := "* [" + name + "]" + text;
    var after := name + "]" + text;
    assert line[..3] == "* [";
    assert line[3..] == after;
    IndexOfFirst(name, ']', text);
    assert line[3..3 + |name|] == name;
  }

  /** A single kind name parses to that kind alone. */
  lemma ParsedKindOne(k: Kind)
    requires Named(k)
    ensures ParsedKinds([KindString(k)]) == [k]
  {
    var s := [KindString(k)];
    assert forall j :: 0 <= j <= 3 ==> (KindString(j) in s <==> j == k);
    assert KindsFrom(4, s) == [];
  }

  /** A line made of white space only is blank. */
  lemma AllSpaceBlank(l: string)
    requires forall i :: 0 <= i < |l| ==> l[i] in GoSpace
    ensures TrimSpace(l) == ""
  {
    var left := TrimLeft(l, GoSpace);
    TrimLeftSuffix(l, GoSpace);
  }

  /** The date of the second entry example: 4 January 2016. */
  lemma ExampleDateJan4()
    ensures DatePattern("2016-01-04") && ParseDate("2016-01-04") == Ok(Date(2016, 1, 4))
  {
    var s := "2016-01-04";
    assert DatePattern(s);
    assert Num4(s[..4]) == 2016 by {
      assert s[..4][..2] == "20" && s[..4][2..] == "16";
    }
    assert Num2(s[5..7]) == 1 by {
      assert s[5..7] == "01";
    }
    assert Num2(s[8..]) == 4 by {
      assert s[8..] == "04";
    }
    assert ValidDate(Date(2016, 1, 4));
  }

  /** The "## " line of an older entry is not a header for 1.0.0. */
  lemma ExampleOlderEntry()
    ensures var older := "## " + "0.0.1" + " / " + "2016-01-02";
            HasPrefix(older, "## ") && HeaderDate(older, "1.0.0").None?
  {
    var older := "## " + "0.0.1" + " / " + "2016-01-02";
    assert older[..3] == "## ";
    assert older[3] != ("## " + "1.0.0" + " / ")[3];
    assert older[1] != ("# " + "1.0.0" + " / ")[1];
  }

  /**
   * The entry of 1.0.0 dated 2016-01-02, followed by the entry of 0.0.1,
   * with a line of tabs after the header: the tabs are skipped, and the
   * text ends at the "## " line of the older entry, keeping the body's
   * trailing empty line.
   */
  lemma ReadEntryExampleNextEntry()
    ensures var fix, feature := "* [" + "BUGFIX" + "]" + " Some fix.", "* [" + "FEATURE" + "]" + " Some feature.";
            var header, older := "## " + "1.0.0" + " / " + "2016-01-02", "## " + "0.0.1" + " / " + "2016-01-02";
            ReadEntryOf([header, "\t\t", fix, feature, "", older, "", "* [BUGFIX] Another fix."], "1.0.0")
            == Ok(Entry("1.0.0", Date(2016, 1, 2), [Change(fix, [KindBugfix]), Change(feature, [KindFeature])],
                        fix + "\n" + feature + "\n"))
  {
    var fix, feature := "* [" + "BUGFIX" + "]" + " Some fix.", "* [" + "FEATURE" + "]" + " Some feature.";
    var header, older := "## " + "1.0.0" + " / " + "2016-01-02", "## " + "0.0.1" + " / " + "2016-01-02";
    ExampleBody(fix, feature, KindBugfix, KindFeature, " Some fix.", " Some feature.");
    var body := [fix, feature, ""];
    var rest := [older, "", "* [BUGFIX] Another fix."];
    assert [] + [header] + ["\t\t"] + body + rest == [header, "\t\t", fix, feature, "", older, "", "* [BUGFIX] Another fix."];
    ExampleShapeNextEntry(header, fix, feature, older);
    ReadEntryStructure([], header, ["\t\t"], body, rest, "1.0.0", Date(2016, 1, 2));
  }

  /** The pieces of the example above meet the conditions of ReadEntryStructure. */
  lemma ExampleShapeNextEntry(header: string, fix: string, feature: string, older: string)
    requires header == "## " + "1.0.0" + " / " + "2016-01-02" && older == "## " + "0.0.1" + " / " + "2016-01-02"
    requires fix == "* [" + "BUGFIX" + "]" + " Some fix." && feature == "* [" + "FEATURE" + "]" + " Some feature."
    ensures HeaderDate(header, "1.0.0").Some? && ParseDate(HeaderDate(header, "1.0.0").value) == Ok(Date(2016, 1, 2))
    ensures TrimSpace("\t\t") == "" && TrimSpace(fix) != ""
    ensures forall l :: l in [fix, feature, ""] ==> !HasPrefix(l, "## ") && HeaderDate(l, "1.0.0").None?
    ensures HasPrefix(older, "## ") && HeaderDate(older, "1.0.0").None?
  {
    ParseDateExample();
    HeaderLine("1.0.0", "2016-01-02");
    ExampleOlderEntry();
    AllSpaceBlank("\t\t");
    NotBlank(fix);
    PlainLine(fix, "1.0.0");
    PlainLine(feature, "1.0.0");
    PlainLine("", "1.0.0");
  }

  /**
   * The entry of 1.0.0 dated 2016-01-04 whose body opens with a "### "
   * heading and an empty line before three change lines: the heading is
   * kept in the text but is not a change, and the text ends at the "## "
   * line of the older entry.
   */
  lemma ReadEntryExampleHeading()
    ensures var heading := "###" + " Breaking changes!";
            var change := "* [" + "CHANGE" + "]" + " Some change.";
            var feature := "* [" + "FEATURE" + "]" + " Some feature.";
            var enhancement := "* [" + "ENHANCEMENT" + "]" + " Some enhancement.";
            var header, older := "## " + "1.0.0" + " / " + "2016-01-04", "## " + "0.0.1" + " / " + "2016-01-02";
            ReadEntryOf([header, "", heading, "", change, feature, enhancement, "", older, "", "* [BUGFIX] Another fix."], "1.0.0")
            == Ok(Entry("1.0.0", Date(2016, 1, 4),
                        [Change(change, [KindChange]), Change(feature, [KindFeature]), Change(enhancement, [KindEnhancement])],
                        heading + "\n" + "\n" + change + "\n" + feature + "\n" + enhancement + "\n"))
  {
    var heading := "###" + " Breaking changes!";
    var change := "* [" + "CHANGE" + "]" + " Some change.";
    var feature := "* [" + "FEATURE" + "]" + " Some feature.";
    var enhancement := "* [" + "ENHANCEMENT" + "]" + " Some enhancement.";
    var header, older := "## " + "1.0.0" + " / " + "2016-01-04", "## " + "0.0.1" + " / " + "2016-01-02";
    var body := [heading, "", change, feature, enhancement, ""];
    var rest := [older, "", "* [BUGFIX] Another fix."];
    assert [] + [header] + [""] + body + rest
        == [header, "", heading, "", change, feature, enhancement, "", older, "", "* [BUGFIX] Another fix."];
    HashLine(" Breaking changes!");
    StarLine("CHANGE", " Some change.");
    StarLine("FEATURE", " Some feature.");
    StarLine("ENHANCEMENT", " Some enhancement.");
    ExampleHeadingChanges(heading, change, feature, enhancement);
    HeadingBodyText(heading, change, feature, enhancement);
    HeadingBodyLines(heading, change, feature, enhancement, "1.0.0");
    ExampleDateJan4();
    HeaderLine("1.0.0", "2016-01-04");
    ExampleOlderEntry();
    AllSpaceBlank("");
    ReadEntryStructure([], header, [""], body, rest, "1.0.0", Date(2016, 1, 4));
  }

  /** A "###" heading, an empty line and three change lines hold no header and start with a line that is not blank. */
  lemma HeadingBodyLines(heading: string, c1: string, c2: string, c3: string, version: string)
    requires |heading| >= 3 && heading[0] == '#' && heading[1] == '#' && heading[2] == '#'
    requires c1 != [] && c1[0] == '*' && c2 != [] && c2[0] == '*' && c3 != [] && c3[0] == '*'
    ensures TrimSpace(heading) != ""
    ensures forall l :: l in [heading, "", c1, c2, c3, ""] ==> !HasPrefix(l, "## ") && HeaderDate(l, version).None?
  {
    NotBlank(heading);
    SubheadingLine(heading, version);
    PlainLine("", version);
    PlainLine(c1, version);
    PlainLine(c2, version);
    PlainLine(c3, version);
  }

  /** A change line "* [NAME]…" starts with '*'. */
  lemma StarLine(name: string, text: string)
    ensures var l := "* [" + name + "]" + text; l != [] && l[0] == '*'
  {
  }

  /** A line "###…" opens with three '#'. */
  lemma HashLine(text: string)
    ensures var l := "###" + text; |l| >= 3 && l[0] == '#' && l[1] == '#' && l[2] == '#'
  {
  }

  /** A line opening with "###" is neither a "## " line nor a header. */
  lemma SubheadingLine(l: string, version: string)
    requires |l| >= 3 && l[0] == '#' && l[1] == '#' && l[2] == '#'
    ensures !HasPrefix(l, "## ") && HeaderDate(l, version).None?
  {
    assert !HasPrefix(l, "## ") by {
      assert ("## ")[2] == ' ';
    }
    assert !HasPrefix(l, "# " + version + " / ") by {
      assert ("# " + version + " / ")[1] == ' ';
    }
    assert !HasPrefix(l, "## " + version + " / ") by {
      assert ("## " + version + " / ")[2] == ' ';
    }
  }

  /** The changes of the body of the example above: one per change line, the heading giving none. */
  lemma ExampleHeadingChanges(heading: string, change: string, feature: string, enhancement: string)
    requires heading != [] && heading[0] == '#'
    requires change == "* [" + "CHANGE" + "]" + " Some change."
    requires feature == "* [" + "FEATURE" + "]" + " Some feature."
    requires enhancement == "* [" + "ENHANCEMENT" + "]" + " Some enhancement."
    ensures ChangesOf([heading, "", change, feature, enhancement, ""])
         == [Change(change, [KindChange]), Change(feature, [KindFeature]), Change(enhancement, [KindEnhancement])]
  {
    ChangeLine(KindChange, " Some change.");
    ChangeLine(KindFeature, " Some feature.");
    ChangeLine(KindEnhancement, " Some enhancement.");
    HeadingBodyChanges(heading, change, feature, enhancement);
    ThreeSingles(Change(change, [KindChange]), Change(feature, [KindFeature]), Change(enhancement, [KindEnhancement]));
  }

  /** Three one-element lists in a row form the list of the three. */
  lemma ThreeSingles<T>(x: T, y: T, z: T)
    ensures [x] + [y] + [z] == [x, y, z]
  {
  }

  /** A heading, an empty line and three lines give the changes of those three lines. */
  lemma HeadingBodyChanges(heading: string, c1: string, c2: string, c3: string)
    requires heading != [] && heading[0] == '#'
    ensures ChangesOf([heading, "", c1, c2, c3, ""]) == ChangeOf(c1) + ChangeOf(c2) + ChangeOf(c3)
  {
    var tail := [c2, c3, ""];
    ChangesOfThree(c2, c3, "");
    ChangesOfCons(c1, tail);
    ChangesOfCons("", [c1] + tail);
    ChangesOfCons(heading, [""] + ([c1] + tail));
    assert [heading] + ([""] + ([c1] + tail)) == [heading, "", c1, c2, c3, ""];
    assert ChangeOf(heading) == [] by {
      assert !HasPrefix(heading, "* [") by {
        assert ("* [")[0] == '*';
      }
    }
    assert ChangeOf("") == [];
    AppendAssoc(ChangeOf(c1), ChangeOf(c2), ChangeOf(c3));
  }

  /** The text of a heading, an empty line and three change lines, ending with an empty line. */
  lemma HeadingBodyText(heading: string, change: string, feature: string, enhancement: string)
    ensures Join([heading, "", change, feature, enhancement, ""], "\n")
         == heading + "\n" + "\n" + change + "\n" + feature + "\n" + enhancement + "\n"
  {
    var t3 := [feature, enhancement, ""];
    JoinThree(feature, enhancement);
    JoinCons(change, t3, "\n");
    JoinCons("", [change] + t3, "\n");
    JoinCons(heading, [""] + ([change] + t3), "\n");
    assert [heading] + ([""] + ([change] + t3)) == [heading, "", change, feature, enhancement, ""];
    var tail := feature + "\n" + enhancement + "\n";
    assert Join([change] + t3, "\n") == change + "\n" + tail;
    assert Join([""] + ([change] + t3), "\n") == "\n" + (change + "\n" + tail);
    AppendAssoc(heading + "\n", "\n", change + "\n" + tail);
    AppendAssoc(heading + "\n" + "\n", change + "\n", tail);
    AppendAssoc(heading + "\n" + "\n" + change + "\n", feature + "\n", enhancement + "\n");
  }

  /** Joining a line in front of a non-empty list puts the separator after it. */
  lemma JoinCons(a: string, t: seq<string>, sep: string)
    requires t != []
    ensures Join([a] + t, sep) == a + sep + Join(t, sep)
  {
    assert ([a] + t)[1..] == t;
  }

  /** The changes and text of a body of two change lines and an empty line. */
  lemma ExampleBody(fix: string, feature: string, k1: Kind, k2: Kind, text1: string, text2: string)
    requires Named(k1) && Named(k2)
    requires fix == "* [" + KindString(k1) + "]" + text1 && feature == "* [" + KindString(k2) + "]" + text2
    ensures ChangesOf([fix, feature, ""]) == [Change(fix, [k1]), Change(feature, [k2])]
    ensures Join([fix, feature, ""], "\n") == fix + "\n" + feature + "\n"
  {
    ChangeLine(k1, text1);
    ChangeLine(k2, text2);
    ChangesOfThree(fix, feature, "");
    assert ChangeOf("") == [];
    JoinThree(fix, feature);
  }

  lemma ChangesOfThree(a: string, b: string, c: string)
    ensures ChangesOf([a, b, c]) == ChangeOf(a) + ChangeOf(b) + ChangeOf(c)
  {
    ChangesOfCons(a, [b, c]);
    ChangesOfCons(b, [c]);
    ChangesOfCons(c, []);
    assert [a] + [b, c] == [a, b, c] && [b] + [c] == [b, c] && [c] + [] == [c];
    AppendAssoc(ChangeOf(a), ChangeOf(b), ChangeOf(c));
  }

  lemma JoinThree(a: string, b: string)
    ensures Join([a, b, ""], "\n") == a + "\n" + b + "\n"
  {
    assert Join([""], "\n") == "";
    assert Join([b, ""], "\n") == b + "\n" + "" by {
      assert [b, ""][1..] == [""];
    }
    assert Join([a, b, ""], "\n") == a + "\n" + Join([b, ""], "\n") by {
      assert [a, b, ""][1..] == [b, ""];
    }
    assert b + "\n" + "" == b + "\n";
    AppendAssoc(a + "\n", b, "\n");
  }
}
