/**
 * Packaging of built binaries (cmd/tarball.go): the archive name made of
 * the project's name and version and the target platform, the `.exe`
 * extension of Windows binaries, the staging directory under `.release`,
 * the `.tar.gz` archive and, on Windows only, the additional `.zip` archive
 * whose entries are named relative to the staging directory's parent.
 * Commands are recorded, not run: `sh.RunCommand`'s errors are ignored by
 * this code, so every copy and the tar command are issued whatever happens.
 */
module Tarball {
  import opened Wrappers
  import opened Strs
  import opened Paths
  import Promu
  import ProjectInfo
  import Check
  import BuildCmd

  /** The staging directory the archive's contents are copied into. */
  const TmpDir := ".release"

  /** The archive's base name, `<name>-<version>.<goos>-<goarch>`. */
  function ArchiveName(name: string, version: string, goos: string, goarch: string): string {
    name + "-" + version + "." + goos + "-" + goarch
  }

  /** The platform part of an archive name: what follows its last '.'. */
  function PlatformPart(archive: string): string {
    archive[LastIndexOf(archive, '.') + 1..]
  }

  /** The name and version part of an archive name: what precedes its last '.'. */
  function ReleasePart(archive: string): string {
    archive[..if LastIndexOf(archive, '.') < 0 then 0 else LastIndexOf(archive, '.')]
  }

  /**
   * The archive name can be taken apart again at its last '.', as long as
   * the platform names have no '.' in them: the platform on the right and
   * `<name>-<version>` on the left.
   */
  lemma ArchiveNameParts(name: string, version: string, goos: string, goarch: string)
    requires '.' !in goos && '.' !in goarch
    ensures PlatformPart(ArchiveName(name, version, goos, goarch)) == goos + "-" + goarch
    ensures ReleasePart(ArchiveName(name, version, goos, goarch)) == name + "-" + version
  {
    var a := name + "-" + version;
    var b := goos + "-" + goarch;
    assert ArchiveName(name, version, goos, goarch) == a + ['.'] + b;
    assert '.' !in b by {
      forall i | 0 <= i < |b| ensures b[i] != '.' {
        if i < |goos| {
          assert b[i] == goos[i];
        } else if i > |goos| {
          assert b[i] == goarch[i - |goos| - 1];
        }
      }
    }
    LastIndexOfAppend(a, '.', b);
    assert (a + ['.'] + b)[|a| + 1..] == b;
    assert (a + ['.'] + b)[..|a|] == a;
  }

  /** The archive built for the project's own end-to-end example. */
  lemma ArchiveNameExample()
    ensures ArchiveName("promu", "0.1", "linux", "386") == "promu-0.1.linux-386"
  {
  }

  /** What runTarball does, in order. */
  datatype Action =
    | Command(args: seq<string>)
    | MakeDir(path: string)
    | CreateZip(archive: string, dir: string)

  /** Copying one file into the staging directory. */
  function Copy(src: string, dir: string): Action {
    Command(["cp", "-a", src, dir])
  }

  /** Copying each source into the staging directory, in order. */
  function Copies(srcs: seq<string>, dir: string): (r: seq<Action>)
    ensures |r| == |srcs|
    ensures forall k :: 0 <= k < |srcs| ==> r[k] == Copy(srcs[k], dir)
  {
    seq(|srcs|, k requires 0 <= k < |srcs| => Copy(srcs[k], dir))
  }

  /** Where each binary is found: the binaries' location joined with its name and extension. */
  function BinaryPaths(location: string, binaries: seq<string>, ext: string): (r: seq<string>)
    ensures |r| == |binaries|
    ensures forall k :: 0 <= k < |binaries| ==> r[k] == Join2(location, binaries[k] + ext)
  {
    seq(|binaries|, k requires 0 <= k < |binaries| => Join2(location, binaries[k] + ext))
  }

  /** The tarball section of the configuration and the names of the configured binaries. */
  datatype TarballConfig = TarballConfig(prefix: string, files: seq<string>, binaries: seq<string>)

  /** The environment and the host platform, which GOOS and GOARCH override when set. */
  datatype Host = Host(env: map<string, string>, goos: string, goarch: string)

  /**
   * What the file system answers: the staging directory's creation, the
   * stat of the prefix, and createZIP's result.
   */
  datatype Effects = Effects(mkdirErr: Option<string>, prefixStat: ProjectInfo.Stat, zipErr: Option<string>)

  /** The actions taken and the fatal error that ended them, if any. */
  datatype Outcome = Outcome(actions: seq<Action>, err: Option<string>)

  function TargetOs(host: Host): string {
    Promu.EnvOr(host.env, "GOOS", host.goos)
  }

  function TargetArch(host: Host): string {
    Promu.EnvOr(host.env, "GOARCH", host.goarch)
  }

  /** The prefix the archives go to: the flag's value when given, else the configured one. */
  function Prefix(cfg: TarballConfig, prefixFlag: Option<string>): string {
    if prefixFlag.Some? then prefixFlag.value else cfg.prefix
  }

  /** The tar command: the staging directory's archive folder packed into `<prefix>/<archive>.tar.gz`. */
  function TarCommand(prefix: string, archive: string): Action {
    Command(["tar", "zcf", Join2(prefix, archive + ".tar.gz"), "-C", TmpDir, archive])
  }

  /** The removal of the staging tree, deferred to the end of a run that does not exit. */
  const Cleanup: Action := Command(["rm", "-rf", TmpDir])

  /**
   * What follows the copies: the prefix directory is created unless
   * fileExists says it is there (a Stat error is fatal), the tarball is
   * made, on Windows also the zip archive `<prefix>/<archive>.zip` (fatal on
   * failure), and the staging tree is removed unless the run exited.
   */
  function Packaging(prefix: string, archive: string, goos: string, dir: string, fx: Effects): Outcome {
    match ProjectInfo.FileExists(fx.prefixStat)
    case Fatal(m) => Outcome([], Some(m))
    case Answer(present) =>
      var made := if present then [] else [MakeDir(prefix)];
      if goos != "windows" then Outcome(made + [TarCommand(prefix, archive), Cleanup], None)
      else
        var zip := CreateZip(Join2(prefix, archive + ".zip"), dir);
        if fx.zipErr.Some? then Outcome(made + [TarCommand(prefix, archive), zip], Some("Could not create ZIP archive: " + fx.zipErr.value))
        else Outcome(made + [TarCommand(prefix, archive), zip, Cleanup], None)
    case Panic => assert false; Outcome([], None)
  }

  /**
   * runTarball: create the staging directory `.release/<archive>` (fatal on
   * failure), copy the configured files and then the binaries into it, and
   * package it. A fatal error exits, so the deferred removal is skipped.
   */
  function TarballRun(cfg: TarballConfig, prefixFlag: Option<string>, name: string, version: string,
                      host: Host, location: string, fx: Effects): Outcome
  {
    var goos := TargetOs(host);
    var archive := ArchiveName(name, version, goos, TargetArch(host));
    var dir := Join2(TmpDir, archive);
    if fx.mkdirErr.Some? then Outcome([], Some("Failed to create directory: " + fx.mkdirErr.value))
    else
      var copies := Copies(cfg.files + BinaryPaths(location, cfg.binaries, BuildCmd.Ext(goos)), dir);
      var rest := Packaging(Prefix(cfg, prefixFlag), archive, goos, dir, fx);
      Outcome(copies + rest.actions, rest.err)
  }

  lemma TarballRunUnfold(cfg: TarballConfig, prefixFlag: Option<string>, name: string, version: string,
                         host: Host, location: string, fx: Effects)
    requires fx.mkdirErr.None?
    ensures var goos := TargetOs(host);
            var archive := ArchiveName(name, version, goos, TargetArch(host));
            var dir := Join2(TmpDir, archive);
            var rest := Packaging(Prefix(cfg, prefixFlag), archive, goos, dir, fx);
            TarballRun(cfg, prefixFlag, name, version, host, location, fx)
              == Outcome(Copies(cfg.files + BinaryPaths(location, cfg.binaries, BuildCmd.Ext(goos)), dir) + rest.actions, rest.err)
  {
  }

  /** runTarball: the staging directory, the copy loops, and the packaging. */
  method RunTarball(cfg: TarballConfig, prefixFlag: Option<string>, name: string, version: string,
                    host: Host, location: string, fx: Effects)
    returns (actions: seq<Action>, err: Option<string>)
    ensures Outcome(actions, err) == TarballRun(cfg, prefixFlag, name, version, host, location, fx)
  {
    var prefix := cfg.prefix;
    if prefixFlag.Some? {
      prefix := prefixFlag.value;
    }
    var goos := Promu.EnvOr(host.env, "GOOS", host.goos);
    var goarch := Promu.EnvOr(host.env, "GOARCH", host.goarch);
    var archive := name + "-" + version + "." + goos + "-" + goarch;
    var ext := "";
    if goos == "windows" {
      ext := ".exe";
    }
    var dir := Join2(TmpDir, archive);
    if fx.mkdirErr.Some? {
      return [], Some("Failed to create directory: " + fx.mkdirErr.value);
    }
    var copies := StageCopies(cfg.files, location, cfg.binaries, ext, dir);
    var rest, e := Package(prefix, archive, goos, dir, fx);
    assert ext == BuildCmd.Ext(goos) && goos == TargetOs(host) && prefix == Prefix(cfg, prefixFlag);
    assert archive == ArchiveName(name, version, goos, TargetArch(host));
    TarballRunUnfold(cfg, prefixFlag, name, version, host, location, fx);
    return copies + rest, e;
  }

  /** The two copy loops: the configured files, then each binary with the platform's extension. */
  method StageCopies(files: seq<string>, location: string, binaries: seq<string>, ext: string, dir: string)
    returns (actions: seq<Action>)
    ensures actions == Copies(files + BinaryPaths(location, binaries, ext), dir)
  {
    actions := [];
    var i := 0;
    while i < |files|
      invariant 0 <= i <= |files| && |actions| == i
      invariant forall k :: 0 <= k < i ==> actions[k] == Copy(files[k], dir)
    {
      actions := actions + [Copy(files[i], dir)];
      i := i + 1;
    }
    var j := 0;
    while j < |binaries|
      invariant 0 <= j <= |binaries| && |actions| == |files| + j
      invariant forall k :: 0 <= k < |files| ==> actions[k] == Copy(files[k], dir)
      invariant forall k :: 0 <= k < j ==> actions[|files| + k] == Copy(Join2(location, binaries[k] + ext), dir)
    {
      actions := actions + [Copy(Join2(location, binaries[j] + ext), dir)];
      j := j + 1;
    }
    ghost var srcs := files + BinaryPaths(location, binaries, ext);
    forall k | 0 <= k < |srcs|
      ensures actions[k] == Copy(srcs[k], dir)
    {
      if k >= |files| {
        assert actions[|files| + (k - |files|)] == Copy(Join2(location, binaries[k - |files|] + ext), dir);
      }
    }
  }

  /** The steps after the copies, up to the deferred removal. */
  method Package(prefix: string, archive: string, goos: string, dir: string, fx: Effects)
    returns (actions: seq<Action>, err: Option<string>)
    ensures Outcome(actions, err) == Packaging(prefix, archive, goos, dir, fx)
  {
    var probe := ProjectInfo.FileExists(fx.prefixStat);
    if probe.Fatal? {
      return [], Some(probe.msg);
    }
    actions := [];
    if !probe.exists_ {
      actions := [MakeDir(prefix)];
    }
    actions := actions + [TarCommand(prefix, archive)];
    if goos == "windows" {
      actions := actions + [CreateZip(Join2(prefix, archive + ".zip"), dir)];
      if fx.zipErr.Some? {
        return actions, Some("Could not create ZIP archive: " + fx.zipErr.value);
      }
    }
    actions := actions + [Cleanup];
    err := None;
  }

  /**
   * Once the prefix could be probed: the tarball is made, a zip archive is
   * made exactly when the target is Windows, the run fails exactly when that
   * zip archive cannot be made, and a run without error removes the staging
   * tree last.
   */
  lemma PackagingSpec(prefix: string, archive: string, goos: string, dir: string, fx: Effects)
    requires !fx.prefixStat.StatError?
    ensures var p := Packaging(prefix, archive, goos, dir, fx);
            TarCommand(prefix, archive) in p.actions &&
            ((exists k :: 0 <= k < |p.actions| && p.actions[k].CreateZip?) <==> goos == "windows") &&
            (p.err.None? <==> (goos != "windows" || fx.zipErr.None?)) &&
            (p.err.None? ==> p.actions[|p.actions| - 1] == Cleanup) &&
            (p.err.Some? ==> p.err.value == "Could not create ZIP archive: " + fx.zipErr.value)
  {
    var p := Packaging(prefix, archive, goos, dir, fx);
    var made := if ProjectInfo.FileExists(fx.prefixStat).exists_ then [] else [MakeDir(prefix)];
    assert p.actions[|made|] == TarCommand(prefix, archive);
    assert forall k :: 0 <= k < |p.actions| && k != |made| + 1 ==> !p.actions[k].CreateZip?;
    if goos == "windows" {
      assert p.actions[|made| + 1].CreateZip?;
    }
  }

  /**
   * Once the staging directory exists, the configured files and then the
   * binaries, each with the platform's extension, are copied into it before
   * anything else.
   */
  lemma TarballRunCopies(cfg: TarballConfig, prefixFlag: Option<string>, name: string, version: string,
                         host: Host, location: string, fx: Effects)
    requires fx.mkdirErr.None?
    ensures var o := TarballRun(cfg, prefixFlag, name, version, host, location, fx);
            var dir := Join2(TmpDir, ArchiveName(name, version, TargetOs(host), TargetArch(host)));
            |o.actions| >= |cfg.files| + |cfg.binaries| &&
            (forall k :: 0 <= k < |cfg.files| ==> o.actions[k] == Copy(cfg.files[k], dir)) &&
            (forall k :: 0 <= k < |cfg.binaries| ==>
               o.actions[|cfg.files| + k] == Copy(Join2(location, cfg.binaries[k] + BuildCmd.Ext(TargetOs(host))), dir))
  {
    var goos := TargetOs(host);
    var dir := Join2(TmpDir, ArchiveName(name, version, goos, TargetArch(host)));
    var ext := BuildCmd.Ext(goos);
    var bins := BinaryPaths(location, cfg.binaries, ext);
    var srcs := cfg.files + bins;
    TarballRunUnfold(cfg, prefixFlag, name, version, host, location, fx);
    var o := TarballRun(cfg, prefixFlag, name, version, host, location, fx);
    var copies := Copies(srcs, dir);
    assert o.actions[..|srcs|] == copies;
    forall k | 0 <= k < |cfg.files|
      ensures o.actions[k] == Copy(cfg.files[k], dir)
    {
      assert o.actions[k] == copies[k] && srcs[k] == cfg.files[k];
    }
    forall k | 0 <= k < |cfg.binaries|
      ensures o.actions[|cfg.files| + k] == Copy(Join2(location, cfg.binaries[k] + ext), dir)
    {
      assert o.actions[|cfg.files| + k] == copies[|cfg.files| + k] && srcs[|cfg.files| + k] == bins[k];
    }
  }

  /** After the copies, the run continues with the packaging and ends as it does. */
  lemma TarballRunPackaging(cfg: TarballConfig, prefixFlag: Option<string>, name: string, version: string,
                            host: Host, location: string, fx: Effects)
    requires fx.mkdirErr.None?
    ensures var o := TarballRun(cfg, prefixFlag, name, version, host, location, fx);
            var archive := ArchiveName(name, version, TargetOs(host), TargetArch(host));
            var n := |cfg.files| + |cfg.binaries|;
            |o.actions| >= n &&
            Outcome(o.actions[n..], o.err) == Packaging(Prefix(cfg, prefixFlag), archive, TargetOs(host), Join2(TmpDir, archive), fx)
  {
    var goos := TargetOs(host);
    var dir := Join2(TmpDir, ArchiveName(name, version, goos, TargetArch(host)));
    TarballRunUnfold(cfg, prefixFlag, name, version, host, location, fx);
    var copies := Copies(cfg.files + BinaryPaths(location, cfg.binaries, BuildCmd.Ext(goos)), dir);
    var o := TarballRun(cfg, prefixFlag, name, version, host, location, fx);
    assert o.actions[|copies|..] == (copies + (o.actions[|copies|..]))[|copies|..];
  }

  /** A failure to create the staging directory ends the run before anything is copied. */
  lemma StagingFailure(cfg: TarballConfig, prefixFlag: Option<string>, name: string, version: string,
                       host: Host, location: string, fx: Effects)
    requires fx.mkdirErr.Some?
    ensures TarballRun(cfg, prefixFlag, name, version, host, location, fx).actions == []
    ensures TarballRun(cfg, prefixFlag, name, version, host, location, fx).err == Some("Failed to create directory: " + fx.mkdirErr.value)
  {
  }

  /**
   * The name createZIP gives a walked file: the path with `prefix`, the
   * staging directory's parent, cut from its front and the leading slashes
   * removed.
   */
  function ZipEntryName(path: string, prefix: string): (r: string)
    ensures r == [] || r[0] != '/'
  {
    TrimLeft(TrimPrefix(path, prefix), {'/'})
  }

  /**
   * A file at `rel` inside the staging directory of `archive` is stored as
   * `<archive>/<rel>`: unpacking the zip recreates the archive's directory.
   */
  lemma ZipEntryStaged(archive: string, rel: string)
    requires Plain(archive)
    ensures ZipEntryName(Join2(TmpDir, archive) + "/" + rel, Dir(Join2(TmpDir, archive))) == archive + "/" + rel
  {
    var dir := TmpDir + "/" + archive;
    StagingDir(archive);
    StagingParent(archive);
    var path := dir + "/" + rel;
    var a1 := "/" + archive;
    var tail := archive + "/" + rel;
    var t := "/" + archive + "/" + rel;
    AppendAssoc(TmpDir, "/", archive);
    AppendAssoc(TmpDir + a1, "/", rel);
    AppendAssoc(TmpDir, a1, "/" + rel);
    AppendAssoc(a1, "/", rel);
    assert path == TmpDir + t;
    AppendParts(TmpDir, t);
    assert TrimPrefix(path, TmpDir) == t;
    AppendAssoc("/", archive, "/" + rel);
    AppendAssoc(archive, "/", rel);
    AppendParts("/", tail);
    assert t[0] == '/' && t[1..] == tail;
    assert TrimLeft(t, {'/'}) == TrimLeft(t[1..], {'/'});
    assert t[1] == archive[0];
  }

  /** The staging directory of a plain archive name is `.release/<archive>`. */
  lemma StagingDir(archive: string)
    requires Plain(archive)
    ensures Join2(TmpDir, archive) == TmpDir + "/" + archive
  {
    var elems := [TmpDir, archive];
    assert Plain(TmpDir);
    assert Join(elems, "/") == TmpDir + "/" + archive;
    CleanOfPlainJoin(elems);
  }

  /** The parent of the staging directory is `.release`. */
  lemma StagingParent(archive: string)
    requires Plain(archive)
    ensures Dir(TmpDir + "/" + archive) == TmpDir
  {
    DirOfSuffix(TmpDir, archive);
    assert Plain(TmpDir);
    assert Join([TmpDir], "/") == TmpDir;
    CleanTrailingSlash([TmpDir]);
  }

  /**
   * What the walk of the staging directory visits: a path, whether it is a
   * directory, the walk's own error for it, and the error of opening,
   * creating the entry or copying, for a file.
   */
  datatype WalkItem = WalkItem(path: string, isDir: bool, walkErr: Option<string>, copyErr: Option<string>)

  /** The walk callback over the visited items: the first error ends the walk; directories get no entry. */
  function ZipEntries(items: seq<WalkItem>, prefix: string): Result<seq<string>>
    decreases |items|
  {
    if items == [] then Ok([])
    else
      var it := items[0];
      if it.walkErr.Some? then Err(it.walkErr.value)
      else if it.isDir then ZipEntries(items[1..], prefix)
      else if it.copyErr.Some? then Err(it.copyErr.value)
      else Check.Then([ZipEntryName(it.path, prefix)], ZipEntries(items[1..], prefix))
  }

  /** A walked item that fails the walk. */
  predicate Broken(it: WalkItem) {
    it.walkErr.Some? || (!it.isDir && it.copyErr.Some?)
  }

  /**
   * The zip archive is complete unless some item fails, and then it holds
   * exactly one entry per walked file, named by ZipEntryName, and nothing
   * for directories.
   */
  lemma {:induction false} ZipEntriesSpec(items: seq<WalkItem>, prefix: string)
    ensures ZipEntries(items, prefix).Ok? <==> forall k :: 0 <= k < |items| ==> !Broken(items[k])
    ensures ZipEntries(items, prefix).Ok? ==>
              forall k :: 0 <= k < |items| && !items[k].isDir ==> ZipEntryName(items[k].path, prefix) in ZipEntries(items, prefix).value
    ensures ZipEntries(items, prefix).Ok? ==>
              forall e :: e in ZipEntries(items, prefix).value ==>
                exists k :: 0 <= k < |items| && !items[k].isDir && e == ZipEntryName(items[k].path, prefix)
    decreases |items|
  {
    if items != [] {
      ZipEntriesSpec(items[1..], prefix);
      assert forall k :: 1 <= k < |items| ==> items[k] == items[1..][k - 1];
      var r := ZipEntries(items, prefix);
      var it := items[0];
      if !Broken(it) && !it.isDir && ZipEntries(items[1..], prefix).Ok? {
        var rest := ZipEntries(items[1..], prefix).value;
        assert r.value == [ZipEntryName(it.path, prefix)] + rest;
        forall e | e in r.value
          ensures exists k :: 0 <= k < |items| && !items[k].isDir && e == ZipEntryName(items[k].path, prefix)
        {
          if e != ZipEntryName(it.path, prefix) {
            assert e in rest;
            var k :| 0 <= k < |items[1..]| && !items[1..][k].isDir && e == ZipEntryName(items[1..][k].path, prefix);
            assert items[k + 1] == items[1..][k];
          }
        }
      }
    }
  }

  /** createZIP: creating the archive file may fail; otherwise the walk of the staging directory. */
  method CreateZipEntries(createErr: Option<string>, dir: string, items: seq<WalkItem>) returns (r: Result<seq<string>>)
    ensures createErr.Some? ==> r == Err(createErr.value)
    ensures createErr.None? ==> r == ZipEntries(items, Dir(dir))
  {
    if createErr.Some? {
      return Err(createErr.value);
    }
    r := ZipWalk(items, Dir(dir));
  }

  /** The walk callback applied to each visited item in turn. */
  method ZipWalk(items: seq<WalkItem>, prefix: string) returns (r: Result<seq<string>>)
    ensures r == ZipEntries(items, prefix)
  {
    var entries: seq<string> := [];
    var i := 0;
    Check.ThenNil(ZipEntries(items, prefix));
    assert items[0..] == items;
    while i < |items|
      invariant 0 <= i <= |items|
      invariant ZipEntries(items, prefix) == Check.Then(entries, ZipEntries(items[i..], prefix))
    {
      var it := items[i];
      assert items[i..][1..] == items[i + 1..];
      if it.walkErr.Some? {
        return Err(it.walkErr.value);
      }
      i := i + 1;
      if it.isDir {
        continue;
      }
      if it.copyErr.Some? {
        return Err(it.copyErr.value);
      }
      Check.ThenAppend(entries, [ZipEntryName(it.path, prefix)], ZipEntries(items[i..], prefix));
      entries := entries + [ZipEntryName(it.path, prefix)];
    }
    assert items[i..] == [] && entries + [] == entries;
    return Ok(entries);
  }
}
