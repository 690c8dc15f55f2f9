/**
 * Project information of the cobra-era command line (cmd/info.go): the
 * repository location cut out of the origin URL by prefix and suffix
 * trimming, the name and owner taken from it, and the version read from
 * the first version file that exists. Command output and the file system
 * are inputs.
 */
module ProjectInfo {
  import opened Wrappers
  import opened Strs
  import opened Paths
  import Promu
  import Repository

  /**
   * repoLocation: the origin URL's output trimmed, "http://", "https://"
   * and "git@" removed from the front, ".git" from the end, and every ':'
   * turned into '/'.
   */
  function RepoLocation(out: string): (r: string)
    ensures ':' !in r
  {
    var repo := Promu.ShellOutput(out);
    var repo1 := TrimPrefix(repo, "http://");
    var repo2 := TrimPrefix(repo1, "https://");
    var repo3 := TrimPrefix(repo2, "git@");
    var repo4 := TrimSuffix(repo3, ".git");
    ReplaceChar(repo4, ':', "/")
  }

  /** Trimming leaves a text alone whose end characters are not in the cut set. */
  lemma TrimUntouched(s: string, cut: set<char>)
    requires s != [] && s[0] !in cut && s[|s| - 1] !in cut
    ensures Trim(s, cut) == s
  {
    assert TrimLeft(s, cut) == s;
  }

  /** An SCP-like origin `git@host:path.git` becomes `host/path`. */
  lemma ScpOriginLocation(host: string, path: string)
    requires ':' !in host && ':' !in path
    ensures RepoLocation("git@" + host + ":" + path + ".git") == host + "/" + path
  {
    var s := "git@" + host + ":" + path + ".git";
    var t := host + ":" + path;
    assert s == "git@" + (t + ".git");
    var r3 := TrimPrefix(TrimPrefix(TrimPrefix(Promu.ShellOutput(s), "http://"), "https://"), "git@");
    assert r3 == t + ".git" by {
      ScpOriginPrefixes(t);
    }
    var r4 := TrimSuffix(r3, ".git");
    assert r4 == t by {
      assert (t + ".git")[..|t|] == t;
    }
    assert RepoLocation(s) == ReplaceChar(r4, ':', "/");
    ColonToSlash(host, path);
  }

  /** The front of `git@rest.git` loses exactly "git@". */
  lemma ScpOriginPrefixes(t: string)
    ensures var s := "git@" + (t + ".git");
            TrimPrefix(TrimPrefix(TrimPrefix(Promu.ShellOutput(s), "http://"), "https://"), "git@") == t + ".git"
  {
    var s := "git@" + (t + ".git");
    TrimUntouched(s, Promu.FileCutset);
    assert !HasPrefix(s, "http://") && !HasPrefix(s, "https://");
    assert s[..4] == "git@";
  }

  lemma ColonToSlash(host: string, path: string)
    requires ':' !in host && ':' !in path
    ensures ReplaceChar(host + ":" + path, ':', "/") == host + "/" + path
  {
    AppendAssoc(host, ":", path);
    ReplaceCharAppend(host, ":" + path, ':', "/");
    ReplaceCharAbsent(host, ':', "/");
    ColonStep(path);
    ReplaceCharAbsent(path, ':', "/");
    AppendAssoc(host, "/", path);
  }

  lemma ColonStep(path: string)
    ensures ReplaceChar(":" + path, ':', "/") == "/" + ReplaceChar(path, ':', "/")
  {
    AppendParts(":", path);
    assert (":" + path)[0] == ':';
  }

  /** An https origin `https://rest.git` without a port becomes `rest`. */
  lemma HttpsOriginLocation(rest: string)
    requires ':' !in rest && !HasPrefix(rest, "git@")
    ensures RepoLocation("https://" + rest + ".git") == rest
  {
    var s := "https://" + rest + ".git";
    var tail := rest + ".git";
    AppendAssoc("https://", rest, ".git");
    AppendParts("https://", tail);
    AppendParts(rest, ".git");
    TrimUntouched(s, Promu.FileCutset);
    assert !HasPrefix(s, "http://") by {
      assert s[4] == "https://"[4];
    }
    assert !HasPrefix(tail, "git@") by {
      if |rest| < 4 {
        IndexAfter(rest, ".git");
        assert tail[|rest|] != "git@"[|rest|];
      } else {
        assert tail[..4] == rest[..4];
      }
    }
    ReplaceCharAbsent(rest, ':', "/");
  }

  /** The origin of the project's own repository. */
  lemma PromuOriginExample()
    ensures RepoLocation("git@" + "github.com" + ":" + "prometheus/promu" + ".git") == "github.com" + "/" + "prometheus/promu"
  {
    ScpOriginLocation("github.com", "prometheus/promu");
  }

  /** Its location names the project "promu", owned by "prometheus". */
  lemma PromuNameOwnerExample()
    ensures Base(Join(["github.com", "prometheus", "promu"], "/")) == "promu"
    ensures Base(Dir(Join(["github.com", "prometheus", "promu"], "/"))) == "prometheus"
  {
    var elems := ["github.com", "prometheus", "promu"];
    assert forall e :: e in elems ==> Plain(e);
    Repository.OwnerAndName(elems);
  }

  /** What os.Stat says about a path. */
  datatype Stat = Regular | Directory | NotExist | StatError(msg: string)

  /** What fileExists does: answers, exits through `fatal`, or panics. */
  datatype Probe = Answer(exists_: bool) | Fatal(msg: string) | Panic

  /**
   * fileExists as written: on a Stat error other than "not exist" the
   * FileInfo is nil, and `finfo.IsDir()` dereferences it before `fatal`
   * can be reached.
   */
  function FileExistsAsWritten(s: Stat): (r: Probe)
    ensures r.Fatal? ==> false
    ensures s.StatError? <==> r.Panic?
  {
    if s == Regular then Answer(true)
    else if s == NotExist then Answer(false)
    else if s.StatError? then Panic
    else Answer(false)
  }

  /** The `fatal` branch of fileExists can never be taken, and a Stat error panics instead. */
  lemma FatalUnreachable(msg: string)
    ensures forall s: Stat :: !FileExistsAsWritten(s).Fatal?
    ensures FileExistsAsWritten(StatError(msg)) == Panic
  {
  }

  /** fileExists as intended: a regular file exists, a missing path or a directory does not, any other Stat error is fatal. */
  function FileExists(s: Stat): (r: Probe)
    ensures r != Panic
    ensures r == Answer(true) <==> s == Regular
    ensures s.StatError? <==> r.Fatal?
    ensures s.StatError? ==> r.msg == s.msg
  {
    match s
    case Regular => Answer(true)
    case Directory => Answer(false)
    case NotExist => Answer(false)
    case StatError(m) => Fatal(m)
  }

  /** The files that may hold the version, in the order they are tried. */
  const VersionFiles: seq<string> := ["VERSION", "version/VERSION"]

  const MissingVersion := "missing `VERSION` or `version/VERSION` file"

  /** What findVersion ends in: a version, its error, or an exit from fileExists. */
  datatype Lookup = Found(version: string) | NotFound(msg: string) | Exit(msg: string)

  /** The lookup from the i-th candidate on. */
  function LookupFrom(stat: string -> Stat, content: string -> Option<string>, i: nat): Lookup
    requires i <= |VersionFiles|
    decreases |VersionFiles| - i
  {
    if i == |VersionFiles| then NotFound(MissingVersion)
    else
      match FileExists(stat(VersionFiles[i]))
      case Fatal(m) => Exit(m)
      case Answer(b) =>
        if b then Found(Promu.ReadFile(content(VersionFiles[i])))
        else LookupFrom(stat, content, i + 1)
      case Panic => assert false; Exit("")
  }

  /**
   * findVersion: "VERSION" is tried before "version/VERSION"; the first
   * that is a regular file is read and trimmed; with neither, an error.
   */
  lemma VersionOrder(stat: string -> Stat, content: string -> Option<string>)
    ensures stat("VERSION") == Regular ==>
              LookupFrom(stat, content, 0) == Found(Promu.ReadFile(content("VERSION")))
    ensures (stat("VERSION") == NotExist || stat("VERSION") == Directory) && stat("version/VERSION") == Regular ==>
              LookupFrom(stat, content, 0) == Found(Promu.ReadFile(content("version/VERSION")))
    ensures (stat("VERSION") == NotExist || stat("VERSION") == Directory) &&
            (stat("version/VERSION") == NotExist || stat("version/VERSION") == Directory) ==>
              LookupFrom(stat, content, 0) == NotFound(MissingVersion)
    ensures stat("VERSION").StatError? ==> LookupFrom(stat, content, 0) == Exit(stat("VERSION").msg)
  {
    assert VersionFiles[0] == "VERSION" && VersionFiles[1] == "version/VERSION";
    assert LookupFrom(stat, content, 2) == NotFound(MissingVersion);
  }

  /** findVersion's loop over the candidate files with early return. */
  method FindVersion(stat: string -> Stat, content: string -> Option<string>) returns (r: Lookup)
    ensures r == LookupFrom(stat, content, 0)
  {
    var i := 0;
    while i < |VersionFiles|
      invariant 0 <= i <= |VersionFiles|
      invariant LookupFrom(stat, content, 0) == LookupFrom(stat, content, i)
    {
      var file := VersionFiles[i];
      var probe := FileExists(stat(file));
      if probe.Fatal? {
        return Exit(probe.msg);
      }
      if probe.exists_ {
        return Found(Promu.ReadFile(content(file)));
      }
      i := i + 1;
    }
    return NotFound(MissingVersion);
  }

  /** The command's view of the project. */
  datatype Info = Info(branch: string, name: string, owner: string, repo: string, revision: string, version: string)

  /**
   * NewProjectInfo: the location from the origin URL, its last element as
   * the name and the one before as the owner, the branch and short
   * revision from git; a version that cannot be found ends the program
   * with "Unable to find project's version".
   */
  function NewProjectInfo(originOut: string, branchOut: string, revisionOut: string,
                          stat: string -> Stat, content: string -> Option<string>): (r: Result<Info>)
    ensures var found := LookupFrom(stat, content, 0);
            (r.Ok? <==> found.Found?) &&
            (r.Ok? ==> r.value.version == found.version) &&
            (found.NotFound? ==> r == Err("Unable to find project's version: " + MissingVersion))
    ensures r.Ok? ==> r.value.repo == RepoLocation(originOut) && ':' !in r.value.repo
    ensures r.Ok? ==> r.value.name == Base(r.value.repo) && r.value.owner == Base(Dir(r.value.repo))
  {
    var repo := RepoLocation(originOut);
    var found := LookupFrom(stat, content, 0);
    match found
    case Found(v) =>
      Ok(Info(Promu.ShellOutput(branchOut), Base(repo), Base(Dir(repo)), repo, Promu.ShellOutput(revisionOut), v))
    case NotFound(m) => Err("Unable to find project's version: " + m)
    case Exit(m) => Err(m)
  }
}
