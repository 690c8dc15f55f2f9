/**
 * Packaging of cross-built binaries (cmd/crossbuild_tarballs.go): every
 * entry of `.build` is named `<GOOS>-<GOARCH>`; for each entry, in listing
 * order, GOOS and GOARCH are set from its name and a tarball is made from
 * `.build/<entry>` into `.tarballs`. A name that does not split into exactly
 * two parts at '-' is fatal, and so is a listing that cannot be read.
 */
module CrossbuildTarballs {
  import opened Wrappers
  import opened Strs
  import opened Paths
  import Tarball

  /** The directory the cross-built binaries are in, one sub-directory per platform. */
  const BuildDir := ".build"

  /** The prefix every tarball of a cross build goes to. */
  const TarballsPrefix := ".tarballs"

  /** Splitting at a character gives one part more than the character occurs. */
  lemma {:induction false} SplitCount(s: string, c: char)
    ensures |Split(s, c)| == multiset(s)[c] + 1
    decreases |s|
  {
    var i := IndexOf(s, c);
    if i < 0 {
      assert c !in multiset(s);
    } else {
      var rest := s[i + 1..];
      SplitCount(rest, c);
      assert s == s[..i] + [c] + rest;
      assert multiset(s) == multiset(s[..i]) + multiset([c]) + multiset(rest);
      assert c !in multiset(s[..i]);
    }
  }

  /**
   * The platform named by a `.build` entry: the two parts of its name around
   * its only '-'; none when the name has no '-' or more than one.
   */
  function PlatformOf(entry: string): Option<(string, string)> {
    var parts := Split(entry, '-');
    if |parts| == 2 then Some((parts[0], parts[1])) else None
  }

  /** An entry names a platform exactly when it has one '-', and the platform is the two parts around it. */
  lemma PlatformOfSpec(entry: string)
    ensures PlatformOf(entry).Some? <==> multiset(entry)['-'] == 1
    ensures PlatformOf(entry).Some? ==>
              var p := PlatformOf(entry).value;
              entry == p.0 + "-" + p.1 && '-' !in p.0 && '-' !in p.1
  {
    var parts := Split(entry, '-');
    SplitCount(entry, '-');
    if |parts| == 2 {
      JoinSplit(entry, '-');
      assert parts[0] in parts && parts[1] in parts;
      assert Join(parts, "-") == parts[0] + "-" + Join(parts[1..], "-");
    }
  }

  /** A platform's own directory name gives the platform back. */
  lemma PlatformOfName(goos: string, goarch: string)
    requires '-' !in goos && '-' !in goarch
    ensures PlatformOf(goos + "-" + goarch) == Some((goos, goarch))
  {
    var parts := [goos, goarch];
    assert Join(parts, "-") == goos + "-" + goarch by {
      assert Join(parts[1..], "-") == goarch;
    }
    SplitJoin(parts, '-');
  }

  /** The text before the directory name in the naming error. */
  const NamingLead := "bad " + BuildDir + "/"

  /** The text after the directory name in the naming error. */
  const NamingHint := " directory naming, should be <GOOS>-<GOARCH>"

  /** The naming error for an entry, naming the entry as the message intends. */
  function BadName(entry: string): (r: string)
    ensures Contains(r, BuildDir + "/" + entry)
  {
    var r := NamingLead + (entry + NamingHint);
    var sub := BuildDir + "/" + entry;
    assert NamingLead == "bad " + (BuildDir + "/");
    AppendAssoc("bad ", BuildDir + "/", entry + NamingHint);
    AppendAssoc(BuildDir + "/", entry, NamingHint);
    AppendParts("bad ", sub + NamingHint);
    AppendParts(sub, NamingHint);
    ContainsAt(r, sub, 4);
    r
  }

  /**
   * The naming error as written: the `%s` verb is given the split parts
   * rather than the entry's name, and Go renders a slice of strings as its
   * elements between brackets, separated by spaces.
   */
  function BadNameAsWritten(entry: string): string {
    NamingLead + ("[" + Join(Split(entry, '-'), " ") + "]" + NamingHint)
  }

  /** The message as written shows the entry bracketed, with every '-' turned into a space. */
  lemma BadNameAsWrittenText(entry: string)
    ensures BadNameAsWritten(entry) == NamingLead + ("[" + ReplaceChar(entry, '-', " ") + "]" + NamingHint)
  {
    JoinSplitReplace(entry, '-', " ");
  }

  /**
   * So it differs from the intended message for every directory name (never
   * empty) that does not itself start with '['.
   */
  lemma BadNameAsWrittenDiffers(entry: string)
    requires entry != [] && entry[0] != '['
    ensures BadNameAsWritten(entry) != BadName(entry)
  {
    var n := |NamingLead|;
    var x := "[" + Join(Split(entry, '-'), " ") + "]" + NamingHint;
    IndexAfter(NamingLead, x);
    IndexAfter(NamingLead, entry + NamingHint);
  }

  /** The tarball run for one entry: where it reads from, where it writes to, and its environment. */
  datatype Job = Job(location: string, prefix: string, env: map<string, string>)

  /** The environment with the entry's platform set. */
  function PlatformEnv(env: map<string, string>, goos: string, goarch: string): map<string, string> {
    env["GOOS" := goos]["GOARCH" := goarch]
  }

  /** The job of a well-named entry, started from environment `env`. */
  function JobFor(entry: string, env: map<string, string>): Job
    requires PlatformOf(entry).Some?
  {
    var p := PlatformOf(entry).value;
    Job(Join2(BuildDir, entry), TarballsPrefix, PlatformEnv(env, p.0, p.1))
  }

  /**
   * A job packages for the platform its entry names; an empty GOOS or
   * GOARCH part (an entry such as `-amd64`) counts as unset, so the host's
   * value is used for it.
   */
  lemma JobTarget(entry: string, env: map<string, string>, hostGoos: string, hostGoarch: string)
    requires PlatformOf(entry).Some?
    ensures var p := PlatformOf(entry).value;
            var host := Tarball.Host(JobFor(entry, env).env, hostGoos, hostGoarch);
            Tarball.TargetOs(host) == (if p.0 == "" then hostGoos else p.0) &&
            Tarball.TargetArch(host) == (if p.1 == "" then hostGoarch else p.1)
  {
  }

  /**
   * runCrossbuildTarballs: a listing that cannot be read is fatal before
   * anything else; otherwise each entry in turn sets GOOS and GOARCH and
   * yields a job, until an entry that is not named `<GOOS>-<GOARCH>` ends
   * the run. A run that finishes unsets GOOS and GOARCH.
   */
  method RunCrossbuildTarballs(listing: Result<seq<string>>, env0: map<string, string>)
    returns (jobs: seq<Job>, env: map<string, string>, err: Option<string>)
    ensures listing.Err? ==> jobs == [] && err == Some(listing.msg)
    ensures listing.Ok? ==> (err.None? <==> forall k :: 0 <= k < |listing.value| ==> PlatformOf(listing.value[k]).Some?)
    ensures listing.Ok? ==> |jobs| <= |listing.value|
    ensures listing.Ok? ==> forall k :: 0 <= k < |jobs| ==>
              PlatformOf(listing.value[k]).Some? && jobs[k] == JobFor(listing.value[k], env0)
    ensures listing.Ok? && err.None? ==> |jobs| == |listing.value| && env == env0 - {"GOOS", "GOARCH"}
    ensures listing.Ok? && err.Some? ==>
              |jobs| < |listing.value| && PlatformOf(listing.value[|jobs|]).None? &&
              err == Some(BadName(listing.value[|jobs|]))
  {
    if listing.Err? {
      return [], env0, Some(listing.msg);
    }
    var dirs := listing.value;
    jobs := [];
    env := env0;
    var i := 0;
    while i < |dirs|
      invariant 0 <= i <= |dirs| && |jobs| == i
      invariant forall k :: 0 <= k < i ==> PlatformOf(dirs[k]).Some? && jobs[k] == JobFor(dirs[k], env0)
      invariant forall key :: key != "GOOS" && key != "GOARCH" ==>
                  (key in env <==> key in env0) && (key in env ==> env[key] == env0[key])
    {
      var name := dirs[i];
      var platform := Split(name, '-');
      if |platform| == 2 {
        env := env["GOOS" := platform[0]]["GOARCH" := platform[1]];
      } else {
        return jobs, env, Some(BadName(name));
      }
      assert env == PlatformEnv(env0, platform[0], platform[1]);
      jobs := jobs + [Job(Join2(BuildDir, name), TarballsPrefix, env)];
      i := i + 1;
    }
    env := env - {"GOOS", "GOARCH"};
    assert env == env0 - {"GOOS", "GOARCH"};
    err := None;
  }
}
