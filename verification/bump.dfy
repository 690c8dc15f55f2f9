/**
 * The bump command (cmd/bump.go): the next version from the bump level,
 * the pull requests merged since the last tag, and the data of the
 * changelog draft: visible and hidden pull requests, each list sorted by
 * kinds, and the sorted list of distinct contributors.
 */
module Bump {
  import opened Wrappers
  import opened Strs
  import opened Changelog
  import opened Semver

  /** pullRequest: what the draft shows of a pull request. */
  datatype PullRequest = PullRequest(number: int, title: string, contributor: string, kinds: seq<Kind>)

  // ---------------------------------------------------------------------
  // Partition and contributors (writeChangelog's loop)

  /** The pull requests with at least one kind, in input order. */
  function Visible(prs: seq<PullRequest>): seq<PullRequest>
    decreases |prs|
  {
    if prs == [] then []
    else Visible(prs[..|prs| - 1]) + (if prs[|prs| - 1].kinds != [] then [prs[|prs| - 1]] else [])
  }

  /** The pull requests without kinds, in input order. */
  function Hidden(prs: seq<PullRequest>): seq<PullRequest>
    decreases |prs|
  {
    if prs == [] then []
    else Hidden(prs[..|prs| - 1]) + (if prs[|prs| - 1].kinds == [] then [prs[|prs| - 1]] else [])
  }

  /** The non-empty contributors in order of first appearance. */
  function Contributors(prs: seq<PullRequest>): seq<string>
    decreases |prs|
  {
    if prs == [] then []
    else
      var before := Contributors(prs[..|prs| - 1]);
      var c := prs[|prs| - 1].contributor;
      if c == "" || c in before then before else before + [c]
  }

  predicate Distinct<T(==)>(s: seq<T>) {
    forall i, j :: 0 <= i < j < |s| ==> s[i] != s[j]
  }

  /**
   * Every pull request goes to exactly one side: visible holds those with
   * a kind, hidden those without, and together they are the input.
   */
  lemma {:induction false} PartitionSpec(prs: seq<PullRequest>)
    ensures multiset(Visible(prs)) + multiset(Hidden(prs)) == multiset(prs)
    ensures forall pr :: pr in Visible(prs) <==> pr in prs && pr.kinds != []
    ensures forall pr :: pr in Hidden(prs) <==> pr in prs && pr.kinds == []
    decreases |prs|
  {
    if prs != [] {
      var init := prs[..|prs| - 1];
      PartitionSpec(init);
      assert prs == init + [prs[|prs| - 1]];
    }
  }

  /** Each non-empty login of the input appears once; the empty login never does. */
  lemma {:induction false} ContributorsSpec(prs: seq<PullRequest>)
    ensures forall c :: c in Contributors(prs) <==> c != "" && ContributedBy(prs, c)
    ensures Distinct(Contributors(prs))
    decreases |prs|
  {
    if prs != [] {
      var init := prs[..|prs| - 1];
      ContributorsSpec(init);
      forall c
        ensures ContributedBy(prs, c) <==> ContributedBy(init, c) || prs[|prs| - 1].contributor == c
      {
        if ContributedBy(prs, c) {
          var i :| 0 <= i < |prs| && prs[i].contributor == c;
          if i < |init| {
            assert init[i].contributor == c;
          }
        }
        if ContributedBy(init, c) {
          var i :| 0 <= i < |init| && init[i].contributor == c;
          assert prs[i].contributor == c;
        }
      }
    }
  }

  /** Some pull request of `prs` has `c` as its contributor. */
  predicate ContributedBy(prs: seq<PullRequest>, c: string) {
    exists i :: 0 <= i < |prs| && prs[i].contributor == c
  }

  /**
   * The loop of writeChangelog: appends each pull request to visible or
   * hidden and each login not yet in the seen-set (seeded with "") to the
   * contributors.
   */
  method Gather(prs: seq<PullRequest>) returns (visible: seq<PullRequest>, hidden: seq<PullRequest>, contributors: seq<string>)
    ensures visible == Visible(prs) && hidden == Hidden(prs) && contributors == Contributors(prs)
  {
    visible, hidden, contributors := [], [], [];
    var uniq: set<string> := {""};
    for i := 0 to |prs|
      invariant visible == Visible(prs[..i]) && hidden == Hidden(prs[..i])
      invariant contributors == Contributors(prs[..i])
      invariant forall c :: c in uniq <==> c == "" || c in contributors
    {
      var pr := prs[i];
      assert prs[..i + 1][..i] == prs[..i] && prs[..i + 1][i] == pr;
      if |pr.kinds| > 0 {
        visible := visible + [pr];
      } else {
        hidden := hidden + [pr];
      }
      if pr.contributor in uniq {
        continue;
      }
      uniq := uniq + {pr.contributor};
      contributors := contributors + [pr.contributor];
    }
    assert prs[..|prs|] == prs;
  }

  // ---------------------------------------------------------------------
  // Sorting

  /**
   * One pass of Go's insertion sort: `x`, placed after `s`, swaps left
   * while it is `less` than its left neighbour.
   */
  function Insert<T>(s: seq<T>, x: T, less: (T, T) -> bool): seq<T>
    decreases |s|
  {
    if s == [] || !less(x, s[|s| - 1]) then s + [x]
    else Insert(s[..|s| - 1], x, less) + [s[|s| - 1]]
  }

  /** The order insertion sort leaves `s` in. */
  function InsertionSort<T>(s: seq<T>, less: (T, T) -> bool): seq<T>
    decreases |s|
  {
    if s == [] then [] else Insert(InsertionSort(s[..|s| - 1], less), s[|s| - 1], less)
  }

  /** Every neighbouring pair is in `less` order. */
  predicate SortedBy<T>(s: seq<T>, less: (T, T) -> bool) {
    forall i :: 0 < i < |s| ==> less(s[i - 1], s[i])
  }

  /** Of any two values, one is `less` than or equal to the other. */
  ghost predicate Total<T(!new)>(less: (T, T) -> bool) {
    forall a, b :: less(a, b) || less(b, a)
  }

  /** Insert adds `x` and keeps everything else; its last element is `x` or the old last one. */
  lemma {:induction false} InsertShape<T>(s: seq<T>, x: T, less: (T, T) -> bool)
    ensures multiset(Insert(s, x, less)) == multiset(s) + multiset{x}
    ensures |Insert(s, x, less)| == |s| + 1
    ensures s != [] ==> Insert(s, x, less)[|s|] in {x, s[|s| - 1]}
    decreases |s|
  {
    if s != [] && less(x, s[|s| - 1]) {
      var init := s[..|s| - 1];
      var last := s[|s| - 1];
      InsertShape(init, x, less);
      var r := Insert(init, x, less);
      assert Insert(s, x, less) == r + [last];
      assert s == init + [last];
      assert (r + [last])[|s|] == last;
    } else {
      assert Insert(s, x, less) == s + [x];
      assert (s + [x])[|s|] == x;
    }
  }

  lemma SortedSnoc<T>(r: seq<T>, y: T, less: (T, T) -> bool)
    requires SortedBy(r, less) && (r == [] || less(r[|r| - 1], y))
    ensures SortedBy(r + [y], less)
  {
    var t := r + [y];
    forall i | 0 < i < |t|
      ensures less(t[i - 1], t[i])
    {
      if i < |r| {
        assert t[i - 1] == r[i - 1] && t[i] == r[i];
      }
    }
  }

  lemma {:induction false} InsertSorted<T(!new)>(s: seq<T>, x: T, less: (T, T) -> bool)
    requires Total(less) && SortedBy(s, less)
    ensures SortedBy(Insert(s, x, less), less)
    decreases |s|
  {
    if s == [] || !less(x, s[|s| - 1]) {
      SortedSnoc(s, x, less);
    } else {
      var init := s[..|s| - 1];
      var last := s[|s| - 1];
      assert SortedBy(init, less);
      InsertSorted(init, x, less);
      InsertShape(init, x, less);
      var r := Insert(init, x, less);
      if init != [] {
        assert less(init[|init| - 1], last);
      }
      SortedSnoc(r, last, less);
    }
  }

  /** Insertion sort leaves its input sorted by a total `less`, as a permutation. */
  lemma {:induction false} InsertionSortSpec<T(!new)>(s: seq<T>, less: (T, T) -> bool)
    requires Total(less)
    ensures SortedBy(InsertionSort(s, less), less)
    ensures multiset(InsertionSort(s, less)) == multiset(s)
    decreases |s|
  {
    if s != [] {
      var init := s[..|s| - 1];
      InsertionSortSpec(init, less);
      InsertSorted(InsertionSort(init, less), s[|s| - 1], less);
      InsertShape(InsertionSort(init, less), s[|s| - 1], less);
      assert s == init + [s[|s| - 1]];
    }
  }

  /** Moving `x` one place to the front past a larger element `p[j - 1]`. */
  lemma InsertBack<T>(p: seq<T>, x: T, j: nat, less: (T, T) -> bool)
    requires 0 < j <= |p| && less(x, p[j - 1])
    ensures Insert(p[..j], x, less) + p[j..] == Insert(p[..j - 1], x, less) + p[j - 1..]
  {
    assert p[..j][..j - 1] == p[..j - 1] && p[..j][j - 1] == p[j - 1];
    assert p[j - 1..] == [p[j - 1]] + p[j..];
  }

  /** The slice during an insertion pass: `x` sits at `j`, between the two parts of `p`, before `rest`. */
  lemma Layout<T>(p: seq<T>, x: T, j: nat, rest: seq<T>)
    requires j <= |p|
    ensures var a := p[..j] + [x] + p[j..] + rest;
            |a| == |p| + 1 + |rest| && a[j] == x && (j > 0 ==> a[j - 1] == p[j - 1]) &&
            a[..|p| + 1] == p[..j] + [x] + p[j..] && a[|p| + 1..] == rest
  {
    var a := p[..j] + [x] + p[j..] + rest;
    assert a == (p[..j] + [x] + p[j..]) + rest;
  }

  /** Swapping `x` with its left neighbour moves it one place to the front. */
  lemma SwapLeft<T>(p: seq<T>, x: T, j: nat, rest: seq<T>)
    requires 0 < j <= |p|
    ensures (p[..j] + [x] + p[j..] + rest)[j - 1 := x][j := p[j - 1]] == p[..j - 1] + [x] + p[j - 1..] + rest
  {
    var a := p[..j] + [x] + p[j..] + rest;
    var b := p[..j - 1] + [x] + p[j - 1..] + rest;
    Layout(p, x, j, rest);
    Layout(p, x, j - 1, rest);
    forall k | 0 <= k < |b|
      ensures a[j - 1 := x][j := p[j - 1]][k] == b[k]
    {
      if k < j - 1 {
        assert a[k] == p[k] && b[k] == p[k];
      } else if j < k <= |p| {
        assert a[k] == p[k - 1] && b[k] == p[k - 1];
      }
    }
  }

  /**
   * One pass of Go's insertion sort on a slice whose first `i` elements
   * are already placed: the element at `i` swaps left while
   * `less(data[j], data[j-1])` holds.
   */
  method InsertAt<T>(a0: seq<T>, i: nat, less: (T, T) -> bool) returns (a: seq<T>)
    requires i < |a0|
    ensures |a| == |a0| && a[..i + 1] == Insert(a0[..i], a0[i], less) && a[i + 1..] == a0[i + 1..]
  {
    a := a0;
    ghost var p := a0[..i];
    ghost var rest := a0[i + 1..];
    var x := a0[i];
    var j := i;
    assert p[..j] == p && p[j..] == [];
    assert a0 == p[..j] + [x] + p[j..] + rest;
    while j > 0 && less(a[j], a[j - 1])
      invariant 0 <= j <= i && a == p[..j] + [x] + p[j..] + rest
      invariant Insert(p, x, less) == Insert(p[..j], x, less) + p[j..]
    {
      Layout(p, x, j, rest);
      InsertBack(p, x, j, less);
      SwapLeft(p, x, j, rest);
      a := a[j - 1 := a[j]][j := a[j - 1]];
      j := j - 1;
      Layout(p, x, j, rest);
    }
    Layout(p, x, j, rest);
    if j > 0 {
      assert p[..j][j - 1] == p[j - 1];
    }
    assert Insert(p[..j], x, less) == p[..j] + [x];
  }

  /** sort.SliceStable on a slice of at most 20 elements: one insertion pass per position. */
  method SortSlice<T>(s: seq<T>, less: (T, T) -> bool) returns (a: seq<T>)
    ensures a == InsertionSort(s, less)
  {
    a := s;
    for i := 0 to |s|
      invariant |a| == |s| && a[..i] == InsertionSort(s[..i], less) && a[i..] == s[i..]
    {
      assert s[..i + 1][..i] == s[..i] && s[..i + 1][i] == s[i] == a[i];
      a := InsertAt(a, i, less);
    }
    assert s[..|s|] == s;
  }

  /** The comparison the draft sorts pull requests by: Kinds.Before on their kinds. */
  function ByKinds(a: PullRequest, b: PullRequest): bool {
    Precedes(a.kinds, b.kinds)
  }

  lemma ByKindsTotal()
    ensures Total(ByKinds)
  {
    forall a: PullRequest, b: PullRequest
      ensures ByKinds(a, b) || ByKinds(b, a)
    {
      PrecedesTotalOrder(a.kinds, b.kinds, a.kinds);
    }
  }

  /** Go's `<` on strings: lexicographic by character, a proper prefix first. */
  predicate StrLess(a: string, b: string)
    decreases |a|
  {
    b != [] && (a == [] || a[0] < b[0] || (a[0] == b[0] && StrLess(a[1..], b[1..])))
  }

  function StrLessEq(a: string, b: string): bool {
    a == b || StrLess(a, b)
  }

  lemma {:induction false} StrLessTotal(a: string, b: string)
    ensures a == b || StrLess(a, b) || StrLess(b, a)
    decreases |a|
  {
    if a != [] && b != [] && a[0] == b[0] {
      StrLessTotal(a[1..], b[1..]);
      if a[1..] == b[1..] {
        assert a == [a[0]] + a[1..] && b == [b[0]] + b[1..];
      }
    }
  }

  lemma StrLessEqTotal()
    ensures Total(StrLessEq)
  {
    forall a: string, b: string
      ensures StrLessEq(a, b) || StrLessEq(b, a)
    {
      StrLessTotal(a, b);
    }
  }

  lemma {:induction false} DistinctCount<T>(b: seq<T>, x: T)
    requires Distinct(b)
    ensures multiset(b)[x] <= 1
    decreases |b|
  {
    if b != [] {
      var init := b[..|b| - 1];
      assert Distinct(init);
      DistinctCount(init, x);
      assert b == init + [b[|b| - 1]];
      assert b[|b| - 1] !in init;
    }
  }

  lemma RepeatCount<T>(a: seq<T>, i: nat, j: nat)
    requires i < j < |a| && a[i] == a[j]
    ensures multiset(a)[a[i]] >= 2
  {
    assert a == a[..j] + a[j..];
    assert a[i] in a[..j] && a[j] in a[j..];
  }

  /** A permutation of a list without repeats has no repeats. */
  lemma DistinctPermutation<T>(a: seq<T>, b: seq<T>)
    requires multiset(a) == multiset(b) && Distinct(b)
    ensures Distinct(a)
  {
    forall i, j | 0 <= i < j < |a|
      ensures a[i] != a[j]
    {
      if a[i] == a[j] {
        RepeatCount(a, i, j);
        DistinctCount(b, a[i]);
      }
    }
  }

  // ---------------------------------------------------------------------
  // The draft's data

  /** makeSentence: trailing dots removed, then exactly one added. */
  function MakeSentence(s: string): (r: string)
    ensures |r| >= 1 && r[|r| - 1] == '.' && (|r| == 1 || r[|r| - 2] != '.')
    ensures HasPrefix(s, r[..|r| - 1]) && forall i :: |r| - 1 <= i < |s| ==> s[i] == '.'
  {
    TrimRight(s, {'.'}) + "."
  }

  /** Making a sentence of a sentence changes nothing. */
  lemma MakeSentenceIdempotent(s: string)
    ensures MakeSentence(MakeSentence(s)) == MakeSentence(s)
  {
    var r := MakeSentence(s);
    var body := r[..|r| - 1];
    assert r == body + ".";
    assert TrimRight(body, {'.'}) == body;
    assert TrimRight(r, {'.'}) == TrimRight(body, {'.'}) by {
      assert r[..|r| - 1] == body;
    }
  }

  /** changelogData: what the draft template is given. */
  datatype ChangelogData = ChangelogData(
    version: string, date: string,
    pullRequests: seq<PullRequest>, skipped: seq<PullRequest>, contributors: seq<string>)

  /**
   * writeChangelog up to the template: visible and hidden pull requests
   * each sorted by kinds, the contributors sorted. The date is today's,
   * an input.
   */
  method WriteChangelogData(version: string, date: string, prs: seq<PullRequest>) returns (d: ChangelogData)
    ensures d.version == version && d.date == date
    ensures d.pullRequests == InsertionSort(Visible(prs), ByKinds)
    ensures d.skipped == InsertionSort(Hidden(prs), ByKinds)
    ensures d.contributors == InsertionSort(Contributors(prs), StrLessEq)
  {
    var visible, hidden, contributors := Gather(prs);
    visible := SortSlice(visible, ByKinds);
    hidden := SortSlice(hidden, ByKinds);
    contributors := SortSlice(contributors, StrLessEq);
    d := ChangelogData(version, date, visible, hidden, contributors);
  }

  /**
   * The draft lists exactly the pull requests with kinds, sorted by
   * Kinds.Before.
   */
  lemma DraftVisibleSpec(prs: seq<PullRequest>)
    ensures var v := InsertionSort(Visible(prs), ByKinds);
            SortedBy(v, ByKinds) && multiset(v) == multiset(Visible(prs)) &&
            forall pr :: pr in v <==> pr in prs && pr.kinds != []
  {
    ByKindsTotal();
    PartitionSpec(prs);
    InsertionSortSpec(Visible(prs), ByKinds);
    var v := InsertionSort(Visible(prs), ByKinds);
    assert forall pr :: pr in v <==> pr in multiset(v);
  }

  /** The unclassified part of the draft lists exactly the pull requests without kinds. */
  lemma DraftHiddenSpec(prs: seq<PullRequest>)
    ensures var h := InsertionSort(Hidden(prs), ByKinds);
            SortedBy(h, ByKinds) && multiset(h) == multiset(Hidden(prs)) &&
            forall pr :: pr in h <==> pr in prs && pr.kinds == []
  {
    ByKindsTotal();
    PartitionSpec(prs);
    InsertionSortSpec(Hidden(prs), ByKinds);
    var h := InsertionSort(Hidden(prs), ByKinds);
    assert forall pr :: pr in h <==> pr in multiset(h);
  }

  /** The draft's contributors are the distinct non-empty logins in strictly ascending order. */
  lemma DraftContributorsSpec(prs: seq<PullRequest>)
    ensures var c := InsertionSort(Contributors(prs), StrLessEq);
            (forall i :: 0 < i < |c| ==> StrLess(c[i - 1], c[i])) &&
            forall x :: x in c <==> x != "" && ContributedBy(prs, x)
  {
    StrLessEqTotal();
    ContributorsSpec(prs);
    var c := InsertionSort(Contributors(prs), StrLessEq);
    InsertionSortSpec(Contributors(prs), StrLessEq);
    DistinctPermutation(c, Contributors(prs));
    assert forall x :: x in c <==> x in multiset(c);
    assert forall x :: x in Contributors(prs) <==> x in multiset(Contributors(prs));
    forall i | 0 < i < |c|
      ensures StrLess(c[i - 1], c[i])
    {
      assert StrLessEq(c[i - 1], c[i]);
    }
  }

  // ---------------------------------------------------------------------
  // The next version

  /**
   * The bump-level switch followed by SetPrerelease: major and minor
   * increment their component, patch increments it unless the version is a
   * pre-release, which it releases instead; any other level keeps the
   * numbers. The pre-release identifier is set in every case.
   */
  function NextVersion(current: Version, level: string, preRelease: string, preValid: bool): (r: Result<Version>)
    ensures r.Ok? <==> preRelease == "" || preValid
    ensures r.Ok? ==> r.value.pre == preRelease
    ensures r.Ok? && level == "major" ==> r.value.major == current.major + 1 && r.value.minor == 0 && r.value.patch == 0
    ensures r.Ok? && level == "minor" ==> r.value.major == current.major && r.value.minor == current.minor + 1 && r.value.patch == 0
    ensures r.Ok? && level == "patch" && current.pre == "" ==>
              r.value.major == current.major && r.value.minor == current.minor && r.value.patch == current.patch + 1
    ensures r.Ok? && level == "patch" && current.pre != "" ==> SameCore(r.value, current)
    ensures r.Ok? && level !in {"major", "minor", "patch"} ==> r.value == current.(pre := preRelease)
  {
    var next :=
      if level == "major" then IncMajor(current)
      else if level == "minor" then IncMinor(current)
      else if level == "patch" then IncPatch(current)
      else current;
    SetPrerelease(next, preRelease, preValid)
  }

  /**
   * The major and minor levels move the numbers strictly up, and so does
   * patch on a release; patch on a pre-release keeps the numbers. Without a
   * new pre-release identifier, each of the three yields a version that
   * comes after the current one. "pre" keeps the numbers.
   */
  lemma NextVersionIncreases(current: Version, level: string, preRelease: string)
    ensures level in {"major", "minor"} ==> CoreLess(current, NextVersion(current, level, preRelease, true).value)
    ensures level == "patch" && current.pre == "" ==> CoreLess(current, NextVersion(current, level, preRelease, true).value)
    ensures level == "patch" && current.pre != "" ==> SameCore(current, NextVersion(current, level, preRelease, true).value)
    ensures level in {"major", "minor", "patch"} && preRelease == "" ==>
              LowerPrecedence(current, NextVersion(current, level, preRelease, true).value)
    ensures level == "pre" ==> SameCore(current, NextVersion(current, level, preRelease, true).value)
  {
  }

  // ---------------------------------------------------------------------
  // Pull requests since the last tag (runBumpVersion)

  /** What is read of a GitHub pull request; times are instants, 0 the zero time. */
  datatype GhPullRequest = GhPullRequest(
    number: int, title: string, user: Option<string>, labels: seq<string>,
    baseRef: string, updatedAt: int, mergedAt: int, mergeCommitSHA: string)

  /** The commit of the last tag: its committer date and SHA. */
  datatype TagCommit = TagCommit(time: int, sha: string)

  /** Updated before the tag: the listing, newest first, has gone past the tag. */
  predicate Stale(pr: GhPullRequest, tag: TagCommit) {
    pr.updatedAt < tag.time
  }

  /** On the base branch, merged, not before the tag, and not the tag's own merge commit. */
  predicate Wanted(pr: GhPullRequest, baseBranch: string, tag: TagCommit) {
    pr.baseRef == baseBranch && pr.mergedAt != 0 && !(pr.mergedAt < tag.time) && pr.mergeCommitSHA != tag.sha
  }

  /** The pull requests taken from a listing: the wanted ones up to the first stale one. */
  function SinceTag(prs: seq<GhPullRequest>, baseBranch: string, tag: TagCommit): seq<GhPullRequest>
    decreases |prs|
  {
    if prs == [] || Stale(prs[0], tag) then []
    else (if Wanted(prs[0], baseBranch, tag) then [prs[0]] else []) + SinceTag(prs[1..], baseBranch, tag)
  }

  /**
   * The filter loop over the listed pull requests: stops at the first
   * stale one, skips the unwanted ones, appends the rest.
   */
  method FilterPullRequests(prs: seq<GhPullRequest>, baseBranch: string, tag: TagCommit) returns (ghPrs: seq<GhPullRequest>)
    ensures ghPrs == SinceTag(prs, baseBranch, tag)
  {
    ghPrs := [];
    var i := 0;
    while i < |prs|
      invariant 0 <= i <= |prs|
      invariant ghPrs + SinceTag(prs[i..], baseBranch, tag) == SinceTag(prs, baseBranch, tag)
    {
      var pr := prs[i];
      assert prs[i..][1..] == prs[i + 1..];
      if pr.updatedAt < tag.time {
        return;
      }
      i := i + 1;
      if pr.baseRef != baseBranch {
        continue;
      }
      if pr.mergedAt == 0 || pr.mergedAt < tag.time {
        continue;
      }
      if pr.mergeCommitSHA == tag.sha {
        continue;
      }
      assert ghPrs + [pr] + SinceTag(prs[i..], baseBranch, tag) == SinceTag(prs, baseBranch, tag);
      ghPrs := ghPrs + [pr];
    }
  }

  /**
   * A pull request is taken iff it is wanted and neither it nor anything
   * listed before it is stale; those taken keep their listing order.
   */
  lemma {:induction false} SinceTagSpec(prs: seq<GhPullRequest>, baseBranch: string, tag: TagCommit)
    ensures forall pr :: pr in SinceTag(prs, baseBranch, tag) <==>
              exists i :: 0 <= i < |prs| && prs[i] == pr && Wanted(pr, baseBranch, tag) &&
                          forall j :: 0 <= j <= i ==> !Stale(prs[j], tag)
    decreases |prs|
  {
    if prs != [] && !Stale(prs[0], tag) {
      var rest := prs[1..];
      SinceTagSpec(rest, baseBranch, tag);
      forall pr
        ensures pr in SinceTag(prs, baseBranch, tag) <==>
                exists i :: 0 <= i < |prs| && prs[i] == pr && Wanted(pr, baseBranch, tag) &&
                            forall j :: 0 <= j <= i ==> !Stale(prs[j], tag)
      {
        if pr in SinceTag(rest, baseBranch, tag) {
          var i :| 0 <= i < |rest| && rest[i] == pr && Wanted(pr, baseBranch, tag) &&
                   forall j :: 0 <= j <= i ==> !Stale(rest[j], tag);
          assert prs[i + 1] == pr;
          assert forall j :: 0 <= j <= i + 1 ==> !Stale(prs[j], tag) by {
            forall j | 0 <= j <= i + 1 ensures !Stale(prs[j], tag) {
              if j > 0 { assert prs[j] == rest[j - 1]; }
            }
          }
        }
        if exists i :: 0 <= i < |prs| && prs[i] == pr && Wanted(pr, baseBranch, tag) &&
                       forall j :: 0 <= j <= i ==> !Stale(prs[j], tag) {
          var i :| 0 <= i < |prs| && prs[i] == pr && Wanted(pr, baseBranch, tag) &&
                   forall j :: 0 <= j <= i ==> !Stale(prs[j], tag);
          if i > 0 {
            assert rest[i - 1] == pr;
            assert forall j :: 0 <= j <= i - 1 ==> !Stale(rest[j], tag) by {
              forall j | 0 <= j <= i - 1 ensures !Stale(rest[j], tag) {
                assert rest[j] == prs[j + 1];
              }
            }
          }
        }
      }
    }
  }

  /**
   * The kinds of a pull request: each label lowercased, its "kind/" prefix
   * dropped and handed to changelog.FromString (an input, as that function
   * is not part of this model); the recognised kinds in label order.
   */
  function LabelKinds(labels: seq<string>, fromString: string -> Option<Kind>): (r: seq<Kind>)
    ensures |r| <= |labels|
    ensures forall x :: x in r ==> exists l :: l in labels && fromString(TrimPrefix(ToLower(l), "kind/")) == Some(x)
    ensures (forall l :: l in labels ==> fromString(TrimPrefix(ToLower(l), "kind/")).Some?) ==> |r| == |labels|
    decreases |labels|
  {
    if labels == [] then []
    else
      var init := labels[..|labels| - 1];
      var last := labels[|labels| - 1];
      var k := fromString(TrimPrefix(ToLower(last), "kind/"));
      assert forall l :: l in init ==> l in labels;
      LabelKinds(init, fromString) + (if k.Some? then [k.value] else [])
  }

  /** The draft entry of a GitHub pull request; a missing user gives the empty login. */
  function ToPullRequest(pr: GhPullRequest, fromString: string -> Option<Kind>): (r: PullRequest)
    ensures r.number == pr.number && r.title == pr.title
    ensures r.contributor == (if pr.user.Some? then pr.user.value else "")
  {
    PullRequest(pr.number, pr.title, if pr.user.Some? then pr.user.value else "", LabelKinds(pr.labels, fromString))
  }

  /** A label that is not a kind contributes nothing, so such labels alone leave a pull request hidden. */
  lemma {:induction false} LabelKindsNone(labels: seq<string>, fromString: string -> Option<Kind>)
    requires forall l :: l in labels ==> fromString(TrimPrefix(ToLower(l), "kind/")).None?
    ensures LabelKinds(labels, fromString) == []
    decreases |labels|
  {
    if labels != [] {
      assert labels[|labels| - 1] in labels;
      LabelKindsNone(labels[..|labels| - 1], fromString);
    }
  }

  /** runBumpVersion's outcome up to writing files: the next version and the draft data. */
  datatype Bumped = Bumped(next: Version, draft: ChangelogData)

  /**
   * runBumpVersion, its GitHub and file effects as inputs: the current
   * version (or ToSemver's error), the library's verdict on the
   * pre-release identifier, the last tag's commit (or the lookup error),
   * and the closed pull requests as listed, most recently updated first.
   */
  method RunBumpVersion(current: Result<Version>, level: string, preRelease: string, preValid: bool,
                        baseBranch: string, tag: Result<TagCommit>, listed: seq<GhPullRequest>,
                        date: string, fromString: string -> Option<Kind>)
    returns (r: Result<Bumped>)
    ensures current.Err? ==> r == Err(current.msg)
    ensures current.Ok? && preRelease != "" && !preValid ==> r == Err(InvalidPrerelease)
    ensures current.Ok? && (preRelease == "" || preValid) && tag.Err? ==>
              r == Err("Fail to get the GitHub commit for v" + VersionString(current.value) + ": " + tag.msg)
    ensures r.Ok? <==> current.Ok? && (preRelease == "" || preValid) && tag.Ok?
    ensures r.Ok? ==> r.value.next == NextVersion(current.value, level, preRelease, true).value
    ensures r.Ok? ==> r.value.draft.version == VersionString(r.value.next)
    ensures r.Ok? ==> var prs := SinceTag(listed, baseBranch, tag.value);
              r.value.draft.pullRequests == InsertionSort(Visible(PullRequests(prs, fromString)), ByKinds) &&
              r.value.draft.skipped == InsertionSort(Hidden(PullRequests(prs, fromString)), ByKinds) &&
              r.value.draft.contributors == InsertionSort(Contributors(PullRequests(prs, fromString)), StrLessEq)
  {
    if current.Err? {
      return Err(current.msg);
    }
    var next := NextVersion(current.value, level, preRelease, preValid);
    if next.Err? {
      return Err(next.msg);
    }
    if tag.Err? {
      return Err("Fail to get the GitHub commit for v" + VersionString(current.value) + ": " + tag.msg);
    }
    var ghPrs := FilterPullRequests(listed, baseBranch, tag.value);
    var prs := ConvertPullRequests(ghPrs, fromString);
    var draft := WriteChangelogData(VersionString(next.value), date, prs);
    return Ok(Bumped(next.value, draft));
  }

  /** The conversion loop of runBumpVersion: one draft entry per GitHub pull request. */
  method ConvertPullRequests(ghPrs: seq<GhPullRequest>, fromString: string -> Option<Kind>) returns (prs: seq<PullRequest>)
    ensures prs == PullRequests(ghPrs, fromString)
  {
    prs := [];
    for i := 0 to |ghPrs|
      invariant prs == PullRequests(ghPrs[..i], fromString)
    {
      assert ghPrs[..i + 1][..i] == ghPrs[..i];
      prs := prs + [ToPullRequest(ghPrs[i], fromString)];
    }
    assert ghPrs[..|ghPrs|] == ghPrs;
  }

  /** The draft entries of a list of GitHub pull requests, in order. */
  function PullRequests(ghPrs: seq<GhPullRequest>, fromString: string -> Option<Kind>): (r: seq<PullRequest>)
    ensures |r| == |ghPrs| && forall i :: 0 <= i < |ghPrs| ==> r[i] == ToPullRequest(ghPrs[i], fromString)
    decreases |ghPrs|
  {
    if ghPrs == [] then []
    else PullRequests(ghPrs[..|ghPrs| - 1], fromString) + [ToPullRequest(ghPrs[|ghPrs| - 1], fromString)]
  }
}
