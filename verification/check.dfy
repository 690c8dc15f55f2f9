/**
 * The `check` command: the license-header check over a walked directory
 * tree and the changelog check of one version's entry. The walk itself,
 * opening files and printing are effects; the entries the walk visits, in
 * its order, and each file's lines are inputs.
 */
module Check {
  import opened Wrappers
  import opened Strs
  import opened Paths
  import opened Semver
  import Changelog
  import Repository

  /** The words one of which a header line must contain. */
  const ValidHeaderStrings: seq<string> := ["copyright", "generated"]

  /** stringContainedInSlice: some element of the haystack occurs in the needle. */
  method StringContainedInSlice(needle: string, haystack: seq<string>) returns (found: bool)
    ensures found <==> exists i :: 0 <= i < |haystack| && Contains(needle, haystack[i])
  {
    found := false;
    var i := 0;
    while i < |haystack|
      invariant 0 <= i <= |haystack|
      invariant forall j :: 0 <= j < i ==> !Contains(needle, haystack[j])
    {
      if Contains(needle, haystack[i]) {
        found := true;
        break;
      }
      i := i + 1;
    }
  }

  /** The needle ends with some element of the haystack. */
  predicate SuffixIn(needle: string, haystack: seq<string>) {
    exists i :: 0 <= i < |haystack| && HasSuffix(needle, haystack[i])
  }

  /** suffixInSlice: the needle ends with some element of the haystack. */
  method SuffixInSlice(needle: string, haystack: seq<string>) returns (found: bool)
    ensures found <==> SuffixIn(needle, haystack)
  {
    found := false;
    var i := 0;
    while i < |haystack|
      invariant 0 <= i <= |haystack|
      invariant forall j :: 0 <= j < i ==> !HasSuffix(needle, haystack[j])
    {
      if HasSuffix(needle, haystack[i]) {
        found := true;
        break;
      }
      i := i + 1;
    }
  }

  /** What scanner.Text() holds after the (i+1)-th Scan: the i-th line, or "" past the end. */
  function LineAt(lines: seq<string>, i: nat): string {
    if i < |lines| then lines[i] else ""
  }

  /** A line that, lower-cased, names one of the header words. */
  predicate Mentions(line: string) {
    exists k :: 0 <= k < |ValidHeaderStrings| && Contains(ToLower(line), ValidHeaderStrings[k])
  }

  /** One of the first `n` lines mentions a header word. */
  predicate HasHeader(lines: seq<string>, n: int) {
    exists i :: 0 <= i < n && Mentions(LineAt(lines, i))
  }

  /** The header loop: `n` scans, each line lower-cased and searched for a header word. */
  method HeaderPasses(lines: seq<string>, n: int) returns (pass: bool)
    ensures pass <==> HasHeader(lines, n)
  {
    pass := false;
    var i := 0;
    while i < n
      invariant 0 <= i && (i == 0 || i <= n)
      invariant pass ==> exists j :: 0 <= j < i && Mentions(LineAt(lines, j))
      invariant !pass ==> forall j :: 0 <= j < i ==> !Mentions(LineAt(lines, j))
    {
      var found := StringContainedInSlice(ToLower(LineAt(lines, i)), ValidHeaderStrings);
      if found {
        pass := true;
      }
      i := i + 1;
    }
    if n >= 0 {
      assert i == n;
    }
  }

  /**
   * One visit of the walk callback: the path, the entry's base name, whether
   * it is a directory, the error the walk passes in, and what opening the
   * file yields (its lines, or the error).
   */
  datatype WalkEntry = WalkEntry(path: string, name: string, isDir: bool,
                                 walkErr: Option<string>, content: Result<seq<string>>)

  /** A file the callback inspects: not a directory, not under "vendor/", with a listed extension. */
  predicate Eligible(e: WalkEntry, exts: seq<string>) {
    !e.isDir && !HasPrefix(e.path, "vendor/") && SuffixIn(e.name, exts)
  }

  /** An entry whose visit fails the walk. */
  predicate Fails(e: WalkEntry, exts: seq<string>) {
    e.walkErr.Some? || (Eligible(e, exts) && e.content.Err?)
  }

  /** An entry reported as missing its header. */
  predicate Missing(e: WalkEntry, n: int, exts: seq<string>) {
    Eligible(e, exts) && e.content.Ok? && !HasHeader(e.content.value, n)
  }

  /** `found` followed by what the rest of the walk gives, unless the rest fails. */
  function Then(found: seq<string>, rest: Result<seq<string>>): Result<seq<string>> {
    if rest.Err? then rest else Ok(found + rest.value)
  }

  /**
   * checkLicenses over the walk: the first error from the walk or from
   * opening a file ends it; otherwise the eligible files without a header,
   * in walk order.
   */
  function CheckEntries(entries: seq<WalkEntry>, n: int, exts: seq<string>): Result<seq<string>>
    decreases |entries|
  {
    if entries == [] then Ok([])
    else
      var e := entries[0];
      if e.walkErr.Some? then Err(e.walkErr.value)
      else if !Eligible(e, exts) then CheckEntries(entries[1..], n, exts)
      else if e.content.Err? then Err(e.content.msg)
      else Then(if HasHeader(e.content.value, n) then [] else [e.path], CheckEntries(entries[1..], n, exts))
  }

  /** The paths of the entries missing a header, in walk order. */
  function MissingPaths(entries: seq<WalkEntry>, n: int, exts: seq<string>): seq<string>
    decreases |entries|
  {
    if entries == [] then []
    else (if Missing(entries[0], n, exts) then [entries[0].path] else []) + MissingPaths(entries[1..], n, exts)
  }

  /** The paths of the eligible entries, in walk order. */
  function EligiblePaths(entries: seq<WalkEntry>, exts: seq<string>): seq<string>
    decreases |entries|
  {
    if entries == [] then []
    else (if Eligible(entries[0], exts) then [entries[0].path] else []) + EligiblePaths(entries[1..], exts)
  }

  /**
   * The check succeeds iff no visit fails, and then reports exactly the
   * eligible files missing a header, in walk order.
   */
  lemma {:induction false} CheckEntriesSpec(entries: seq<WalkEntry>, n: int, exts: seq<string>)
    ensures CheckEntries(entries, n, exts).Ok? <==> forall i :: 0 <= i < |entries| ==> !Fails(entries[i], exts)
    ensures CheckEntries(entries, n, exts).Ok? ==> CheckEntries(entries, n, exts).value == MissingPaths(entries, n, exts)
    decreases |entries|
  {
    if entries != [] {
      CheckEntriesSpec(entries[1..], n, exts);
      assert forall i :: 1 <= i < |entries| ==> entries[i] == entries[1..][i - 1];
    }
  }

  /** The first failing visit decides the error. */
  lemma {:induction false} CheckEntriesFirstError(entries: seq<WalkEntry>, n: int, exts: seq<string>, k: nat)
    requires k < |entries| && Fails(entries[k], exts)
    requires forall i :: 0 <= i < k ==> !Fails(entries[i], exts)
    ensures CheckEntries(entries, n, exts) ==
              Err(if entries[k].walkErr.Some? then entries[k].walkErr.value else entries[k].content.msg)
    decreases k
  {
    if k > 0 {
      assert forall i :: 0 <= i < k - 1 ==> entries[1..][i] == entries[i + 1];
      CheckEntriesFirstError(entries[1..], n, exts, k - 1);
    }
  }

  /** With a length of zero or less no line is read, so every eligible file is reported. */
  lemma {:induction false} NoLinesReportsAll(entries: seq<WalkEntry>, n: int, exts: seq<string>)
    requires n <= 0
    requires forall i :: 0 <= i < |entries| ==> !Fails(entries[i], exts)
    ensures MissingPaths(entries, n, exts) == EligiblePaths(entries, exts)
    decreases |entries|
  {
    if entries != [] {
      assert forall i :: 1 <= i < |entries| ==> entries[i] == entries[1..][i - 1];
      assert !Fails(entries[0], exts);
      NoLinesReportsAll(entries[1..], n, exts);
      if Eligible(entries[0], exts) && entries[0].content.Ok? {
        assert !HasHeader(entries[0].content.value, n);
      }
    }
  }

  /** Every reported path belongs to an eligible file whose first lines lack a header word. */
  lemma {:induction false} MissingPathsSound(entries: seq<WalkEntry>, n: int, exts: seq<string>, p: string)
    requires p in MissingPaths(entries, n, exts)
    ensures exists i :: 0 <= i < |entries| && entries[i].path == p && Missing(entries[i], n, exts)
    decreases |entries|
  {
    if !(Missing(entries[0], n, exts) && p == entries[0].path) {
      MissingPathsSound(entries[1..], n, exts, p);
      var i :| 0 <= i < |entries[1..]| && entries[1..][i].path == p && Missing(entries[1..][i], n, exts);
      assert entries[i + 1] == entries[1..][i];
    }
  }

  /** checkLicenses: the walk callback run over the entries, appending each file missing its header. */
  method CheckLicenses(entries: seq<WalkEntry>, n: int, exts: seq<string>) returns (r: Result<seq<string>>)
    ensures r == CheckEntries(entries, n, exts)
  {
    var missing: seq<string> := [];
    var i := 0;
    ThenNil(CheckEntries(entries, n, exts));
    assert entries[0..] == entries;
    while i < |entries|
      invariant 0 <= i <= |entries|
      invariant CheckEntries(entries, n, exts) == Then(missing, CheckEntries(entries[i..], n, exts))
    {
      var e := entries[i];
      assert entries[i..][1..] == entries[i + 1..];
      if e.walkErr.Some? {
        return Err(e.walkErr.value);
      }
      i := i + 1;
      if e.isDir || HasPrefix(e.path, "vendor/") {
        continue;
      }
      var matches := SuffixInSlice(e.name, exts);
      if !matches {
        continue;
      }
      if e.content.Err? {
        return Err(e.content.msg);
      }
      var pass := HeaderPasses(e.content.value, n);
      if !pass {
        ThenAppend(missing, [e.path], CheckEntries(entries[i..], n, exts));
        missing := missing + [e.path];
      } else {
        ThenNil(CheckEntries(entries[i..], n, exts));
      }
    }
    assert entries[i..] == [];
    r := Ok(missing);
    assert missing + [] == missing;
  }

  lemma ThenNil(rest: Result<seq<string>>)
    ensures Then([], rest) == rest
  {
    if rest.Ok? {
      assert [] + rest.value == rest.value;
    }
  }

  lemma ThenAppend(a: seq<string>, b: seq<string>, rest: Result<seq<string>>)
    ensures Then(a, Then(b, rest)) == Then(a + b, rest)
  {
    if rest.Ok? {
      assert a + (b + rest.value) == a + b + rest.value;
    }
  }

  /** runCheckLicenses' root: the cleaned path with one separator appended. */
  function WalkRoot(path: string): (r: string)
    ensures |r| >= 2 && r[|r| - 1] == '/'
  {
    var c := Clean(path);
    assert c != "";
    c + "/"
  }

  /**
   * runCheckLicenses: the walk from the root; its failure is fatal with
   * the error wrapped, otherwise the files missing a header are listed.
   * `walk` gives the entries the walk visits from a root.
   */
  method RunCheckLicenses(path: string, n: int, exts: seq<string>, walk: string -> seq<WalkEntry>)
    returns (r: Result<seq<string>>)
    ensures CheckEntries(walk(WalkRoot(path)), n, exts).Ok? ==> r == CheckEntries(walk(WalkRoot(path)), n, exts)
    ensures CheckEntries(walk(WalkRoot(path)), n, exts).Err? ==>
              r == Err("Failed to check files for license header: " + CheckEntries(walk(WalkRoot(path)), n, exts).msg)
  {
    var missing := CheckLicenses(walk(WalkRoot(path)), n, exts);
    if missing.Err? {
      return Err("Failed to check files for license header: " + missing.msg);
    }
    return missing;
  }

  /** The version whose entry the changelog check reads: the flag, or the project's own. */
  function CheckedVersion(version: string, projVersion: string): string {
    if version == "" then projVersion else version
  }

  /** The prefix of the error for changes out of order. */
  const InvalidEntry := "invalid changelog entry: "

  /**
   * runCheckChangelog: with no version given the project version must be
   * valid semantic versioning; then the file must open, hold the version's
   * entry, and list that entry's changes in order.
   */
  method RunCheckChangelog(path: string, version: string, projVersion: string,
                           parse: string -> Result<Version>, file: Result<seq<string>>)
    returns (err: Option<string>)
    ensures err.None? <==>
              (version != "" || Repository.ToSemver(projVersion, parse).Ok?) && file.Ok? &&
              Changelog.ReadEntryOf(file.value, CheckedVersion(version, projVersion)).Ok? &&
              Changelog.AdjacentSorted(Changelog.ReadEntryOf(file.value, CheckedVersion(version, projVersion)).value.changes)
    ensures version == "" && Repository.ToSemver(projVersion, parse).Err? ==>
              err == Some("invalid semver version: " + Repository.ToSemver(projVersion, parse).msg)
    ensures (version != "" || Repository.ToSemver(projVersion, parse).Ok?) && file.Err? ==> err == Some(file.msg)
    ensures (version != "" || Repository.ToSemver(projVersion, parse).Ok?) && file.Ok? &&
            Changelog.ReadEntryOf(file.value, CheckedVersion(version, projVersion)).Err? ==>
              err == Some(path + ": " + Changelog.ReadEntryOf(file.value, CheckedVersion(version, projVersion)).msg)
    ensures err.Some? && (version != "" || Repository.ToSemver(projVersion, parse).Ok?) && file.Ok? &&
            Changelog.ReadEntryOf(file.value, CheckedVersion(version, projVersion)).Ok? ==>
              HasPrefix(err.value, InvalidEntry) &&
              Changelog.IsOrderError(Changelog.ReadEntryOf(file.value, CheckedVersion(version, projVersion)).value.changes,
                                     err.value[|InvalidEntry|..])
  {
    var v := version;
    if v == "" {
      var s := Repository.ToSemver(projVersion, parse);
      if s.Err? {
        return Some("invalid semver version: " + s.msg);
      }
      v := projVersion;
    }
    if file.Err? {
      return Some(file.msg);
    }
    var entry := Changelog.ReadEntry(file.value, v);
    if entry.Err? {
      return Some(path + ": " + entry.msg);
    }
    var order := Changelog.Sorted(entry.value.changes);
    if order.Some? {
      return Some(InvalidEntry + order.value);
    }
    return None;
  }
}
