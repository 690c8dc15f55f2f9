/**
 * The crossbuild command (cmd/crossbuild.go): sorting the requested
 * platforms into builder-image families, planning one container per
 * platform, the concurrency limit, and the docker command sequence of one
 * container.
 */
module Crossbuild {
  import opened Wrappers
  import opened Strs
  import opened Platforms
  import opened Strconv
  import Promu
  import Sh
  import Paths

  /** Which branch of the classification switch a platform takes. */
  datatype Family = Main | ARM | PowerPC | MIPS | S390X | Alias | Unknown

  /** The switch of the classification loop: the first table that lists the platform wins. */
  function FamilyOf(p: string): Family {
    if p in MainPlatforms then Main
    else if p in ARMPlatforms then ARM
    else if p in PowerPCPlatforms then PowerPC
    else if p in MIPSPlatforms then MIPS
    else if p in S390Platforms then S390X
    else if p in ARMAliases then Alias
    else Unknown
  }

  /** The six platform lists the classification loop fills. */
  datatype Buckets = Buckets(
    main: seq<string>, arm: seq<string>, powerpc: seq<string>,
    mips: seq<string>, s390x: seq<string>, unknown: seq<string>)

  /** What one requested platform adds: itself to its family, or an alias's ARM variants. */
  function Add(b: Buckets, p: string): Buckets {
    match FamilyOf(p)
    case Main => b.(main := b.main + [p])
    case ARM => b.(arm := b.arm + [p])
    case PowerPC => b.(powerpc := b.powerpc + [p])
    case MIPS => b.(mips := b.mips + [p])
    case S390X => b.(s390x := b.s390x + [p])
    case Alias => b.(arm := b.arm + ARMAliases[p])
    case Unknown => b.(unknown := b.unknown + [p])
  }

  /** The buckets after the loop has seen `ps`, in order. */
  function Classified(ps: seq<string>): Buckets
    decreases |ps|
  {
    if ps == [] then Buckets([], [], [], [], [], [])
    else Add(Classified(ps[..|ps| - 1]), ps[|ps| - 1])
  }

  /** The classification loop of runCrossbuild. */
  method Classify(platforms: seq<string>) returns (b: Buckets)
    ensures b == Classified(platforms)
  {
    b := Buckets([], [], [], [], [], []);
    for i := 0 to |platforms|
      invariant b == Classified(platforms[..i])
    {
      var p := platforms[i];
      assert platforms[..i + 1][..i] == platforms[..i];
      var hit := Promu.StringInSlice(p, MainPlatforms);
      if hit {
        b := b.(main := b.main + [p]);
        continue;
      }
      hit := Promu.StringInSlice(p, ARMPlatforms);
      if hit {
        b := b.(arm := b.arm + [p]);
        continue;
      }
      hit := Promu.StringInSlice(p, PowerPCPlatforms);
      if hit {
        b := b.(powerpc := b.powerpc + [p]);
        continue;
      }
      hit := Promu.StringInSlice(p, MIPSPlatforms);
      if hit {
        b := b.(mips := b.mips + [p]);
        continue;
      }
      hit := Promu.StringInSlice(p, S390Platforms);
      if hit {
        b := b.(s390x := b.s390x + [p]);
        continue;
      }
      if Promu.StringInMapKeys(p, ARMAliases) {
        b := b.(arm := b.arm + ARMAliases[p]);
        continue;
      }
      b := b.(unknown := b.unknown + [p]);
    }
    assert platforms[..|platforms|] == platforms;
  }

  /** Every ARM variant an alias stands for is itself a listed ARM platform. */
  lemma AliasTargetsAreARM(k: string, x: string)
    requires k in ARMAliases && x in ARMAliases[k]
    ensures FamilyOf(x) == ARM
  {
  }

  /**
   * Each bucket holds only platforms of its own family, so no platform is in
   * two buckets; every entry comes from the request, an ARM entry possibly
   * through an alias.
   */
  lemma {:induction false} ClassifiedSound(ps: seq<string>)
    ensures forall x :: x in Classified(ps).main ==> FamilyOf(x) == Main && x in ps
    ensures forall x :: x in Classified(ps).powerpc ==> FamilyOf(x) == PowerPC && x in ps
    ensures forall x :: x in Classified(ps).mips ==> FamilyOf(x) == MIPS && x in ps
    ensures forall x :: x in Classified(ps).s390x ==> FamilyOf(x) == S390X && x in ps
    ensures forall x :: x in Classified(ps).unknown ==> FamilyOf(x) == Unknown && x in ps
    ensures forall x :: x in Classified(ps).arm ==>
              FamilyOf(x) == ARM && (x in ps || exists k :: k in ps && FamilyOf(k) == Alias && x in ARMAliases[k])
    decreases |ps|
  {
    if ps != [] {
      var init := ps[..|ps| - 1];
      var p := ps[|ps| - 1];
      ClassifiedSound(init);
      assert ps == init + [p];
      if FamilyOf(p) == Alias {
        forall x | x in ARMAliases[p] ensures FamilyOf(x) == ARM {
          AliasTargetsAreARM(p, x);
        }
      }
    }
  }

  /** Every requested platform reaches its family's bucket; an alias brings all its ARM variants. */
  lemma {:induction false} ClassifiedComplete(ps: seq<string>)
    ensures forall p :: p in ps && FamilyOf(p) == Main ==> p in Classified(ps).main
    ensures forall p :: p in ps && FamilyOf(p) == ARM ==> p in Classified(ps).arm
    ensures forall p :: p in ps && FamilyOf(p) == PowerPC ==> p in Classified(ps).powerpc
    ensures forall p :: p in ps && FamilyOf(p) == MIPS ==> p in Classified(ps).mips
    ensures forall p :: p in ps && FamilyOf(p) == S390X ==> p in Classified(ps).s390x
    ensures forall p :: p in ps && FamilyOf(p) == Unknown ==> p in Classified(ps).unknown
    ensures forall p, x :: p in ps && FamilyOf(p) == Alias && x in ARMAliases[p] ==> x in Classified(ps).arm
    decreases |ps|
  {
    if ps != [] {
      var init := ps[..|ps| - 1];
      ClassifiedComplete(init);
      assert ps == init + [ps[|ps| - 1]];
      AddKeeps(Classified(init), ps[|ps| - 1]);
    }
  }

  /** Adding a platform keeps every bucket's entries and puts the platform, or its alias's variants, in place. */
  lemma AddKeeps(b: Buckets, p: string)
    ensures var a := Add(b, p);
            (forall x :: x in b.main ==> x in a.main) && (forall x :: x in b.arm ==> x in a.arm) &&
            (forall x :: x in b.powerpc ==> x in a.powerpc) && (forall x :: x in b.mips ==> x in a.mips) &&
            (forall x :: x in b.s390x ==> x in a.s390x) && (forall x :: x in b.unknown ==> x in a.unknown)
    ensures var a := Add(b, p);
            (FamilyOf(p) == Main ==> p in a.main) && (FamilyOf(p) == ARM ==> p in a.arm) &&
            (FamilyOf(p) == PowerPC ==> p in a.powerpc) && (FamilyOf(p) == MIPS ==> p in a.mips) &&
            (FamilyOf(p) == S390X ==> p in a.s390x) && (FamilyOf(p) == Unknown ==> p in a.unknown) &&
            (FamilyOf(p) == Alias ==> forall x :: x in ARMAliases[p] ==> x in a.arm)
  {
  }

  /** The bucket a plain (non-ARM) family fills. */
  function Bucket(b: Buckets, f: Family): seq<string>
    requires f != ARM && f != Alias
  {
    match f
    case Main => b.main
    case PowerPC => b.powerpc
    case MIPS => b.mips
    case S390X => b.s390x
    case Unknown => b.unknown
  }

  lemma BucketAdd(b: Buckets, p: string, f: Family)
    requires f != ARM && f != Alias
    ensures Bucket(Add(b, p), f) == Bucket(b, f) + (if FamilyOf(p) == f then [p] else [])
  {
  }

  /**
   * Requests are not de-duplicated: a platform of a family other than ARM
   * appears in its family's bucket exactly as often as it was requested,
   * and in no other bucket.
   */
  lemma {:induction false} ClassifiedCounts(ps: seq<string>, f: Family, x: string)
    requires f != ARM && f != Alias
    ensures multiset(Bucket(Classified(ps), f))[x] == (if FamilyOf(x) == f then multiset(ps)[x] else 0)
    decreases |ps|
  {
    if ps != [] {
      var init := ps[..|ps| - 1];
      var p := ps[|ps| - 1];
      ClassifiedCounts(init, f, x);
      BucketAdd(Classified(init), p, f);
      assert ps == init + [p];
    }
  }

  /** `linux/arm` stands for the three 32-bit Linux ARM variants. */
  lemma LinuxArmAlias()
    ensures Classified(["linux/arm"]).arm == ["linux/armv5", "linux/armv6", "linux/armv7"]
    ensures Classified(["linux/arm"]).main == [] && Classified(["linux/arm"]).unknown == []
  {
    assert FamilyOf("linux/arm") == Alias;
  }

  /** The warning printed for unknown platforms, in Go's %s rendering of a string slice. */
  function UnknownWarning(unknown: seq<string>): Option<string> {
    if |unknown| > 0 then Some("unknown/unhandled platforms: [" + Join(unknown, " ") + "]") else None
  }

  /** One container to run: a name, the builder image, and one platform. */
  datatype PlatformGroup = PlatformGroup(name: string, image: string, platform: string)

  /** The builder image tag for a Go version and an image flavour (base, main, arm, …). */
  function BuilderImage(goVersion: string, flavour: string): string {
    BuilderImageName + ":" + goVersion + "-" + flavour
  }

  /** A group name: the family prefix, then the platform with its slashes turned into dashes. */
  function GroupName(prefix: string, platform: string): (r: string)
    ensures HasPrefix(r, prefix + "-")
    ensures '/' !in r[|prefix| + 1..]
  {
    var r := prefix + "-" + ReplaceChar(platform, '/', "-");
    assert r[|prefix| + 1..] == ReplaceChar(platform, '/', "-");
    r
  }

  /** For an `os/arch` platform the group name is `<prefix>-<os>-<arch>`. */
  lemma GroupNameOsArch(prefix: string, os: string, arch: string)
    requires '/' !in os && '/' !in arch
    ensures GroupName(prefix, os + "/" + arch) == prefix + "-" + os + "-" + arch
  {
    assert os + "/" + arch == os + ("/" + arch);
    ReplaceCharAppend(os, "/" + arch, '/', "-");
    ReplaceCharAppend("/", arch, '/', "-");
    ReplaceCharAbsent(os, '/', "-");
    ReplaceCharAbsent(arch, '/', "-");
    assert ReplaceChar("/", '/', "-") == "-";
  }

  /** One group per platform, in order, all on one image. */
  function GroupsFor(prefix: string, image: string, ps: seq<string>): seq<PlatformGroup>
    decreases |ps|
  {
    if ps == [] then [] else GroupsFor(prefix, image, ps[..|ps| - 1]) + [PlatformGroup(GroupName(prefix, ps[|ps| - 1]), image, ps[|ps| - 1])]
  }

  /** The i-th group builds the i-th platform on the given image, named after its family prefix and platform. */
  lemma {:induction false} GroupsForSpec(prefix: string, image: string, ps: seq<string>)
    ensures |GroupsFor(prefix, image, ps)| == |ps|
    ensures forall i :: 0 <= i < |ps| ==>
              GroupsFor(prefix, image, ps)[i] == PlatformGroup(GroupName(prefix, ps[i]), image, ps[i])
    decreases |ps|
  {
    if ps != [] {
      GroupsForSpec(prefix, image, ps[..|ps| - 1]);
    }
  }

  /** The loop that appends one group per platform. */
  method AppendGroups(groups: seq<PlatformGroup>, prefix: string, image: string, ps: seq<string>)
    returns (r: seq<PlatformGroup>)
    ensures r == groups + GroupsFor(prefix, image, ps)
  {
    r := groups;
    for i := 0 to |ps|
      invariant r == groups + GroupsFor(prefix, image, ps[..i])
    {
      assert ps[..i + 1][..i] == ps[..i];
      r := r + [PlatformGroup(GroupName(prefix, ps[i]), image, ps[i])];
    }
    assert ps[..|ps|] == ps;
  }

  /** All platforms the buckets resolved to, families in their fixed order. */
  function AllPlatforms(b: Buckets): seq<string> {
    b.main + b.arm + b.powerpc + b.mips + b.s390x
  }

  /** The groups of the cgo build: one image per non-empty family, main platforms keeping the `base` prefix. */
  function CgoGroups(b: Buckets, goVersion: string): seq<PlatformGroup> {
    var g0: seq<PlatformGroup> := [];
    var g1 := g0 + GroupsFor("base", BuilderImage(goVersion, "main"), b.main);
    var g2 := g1 + GroupsFor("arm", BuilderImage(goVersion, "arm"), b.arm);
    var g3 := g2 + GroupsFor("powerpc", BuilderImage(goVersion, "powerpc"), b.powerpc);
    var g4 := g3 + GroupsFor("mips", BuilderImage(goVersion, "mips"), b.mips);
    g4 + GroupsFor("s390x", BuilderImage(goVersion, "s390x"), b.s390x)
  }

  /** The images the cgo build pulls: one per non-empty family. */
  function CgoPulls(b: Buckets, goVersion: string): seq<string> {
    var p0: seq<string> := [];
    var p1 := p0 + (if |b.main| > 0 then [BuilderImage(goVersion, "main")] else []);
    var p2 := p1 + (if |b.arm| > 0 then [BuilderImage(goVersion, "arm")] else []);
    var p3 := p2 + (if |b.powerpc| > 0 then [BuilderImage(goVersion, "powerpc")] else []);
    var p4 := p3 + (if |b.mips| > 0 then [BuilderImage(goVersion, "mips")] else []);
    p4 + (if |b.s390x| > 0 then [BuilderImage(goVersion, "s390x")] else [])
  }

  /** One cgo family block: its groups and, when it has platforms, its image pull. */
  method AppendFamily(groups: seq<PlatformGroup>, pulls: seq<string>, prefix: string, image: string, ps: seq<string>)
    returns (groups': seq<PlatformGroup>, pulls': seq<string>)
    ensures groups' == groups + GroupsFor(prefix, image, ps)
    ensures pulls' == pulls + (if |ps| > 0 then [image] else [])
  {
    groups', pulls' := groups, pulls;
    if |ps| > 0 {
      groups' := AppendGroups(groups, prefix, image, ps);
      pulls' := pulls + [image];
    }
  }

  /**
   * The group planning of runCrossbuild: without cgo every platform runs on
   * the base image; with cgo each family runs on its own image, and only
   * the images of non-empty families are pulled.
   */
  method PlanGroups(b: Buckets, cgo: bool, goVersion: string) returns (groups: seq<PlatformGroup>, pulls: seq<string>)
    ensures !cgo ==> groups == GroupsFor("base", BuilderImage(goVersion, "base"), AllPlatforms(b))
    ensures !cgo ==> pulls == [BuilderImage(goVersion, "base")]
    ensures cgo ==> groups == CgoGroups(b, goVersion)
    ensures cgo ==> pulls == CgoPulls(b, goVersion)
  {
    groups := [];
    pulls := [];
    if !cgo {
      var all := b.main + b.arm + b.powerpc + b.mips + b.s390x;
      groups := AppendGroups(groups, "base", BuilderImage(goVersion, "base"), all);
      assert groups == GroupsFor("base", BuilderImage(goVersion, "base"), AllPlatforms(b));
      pulls := pulls + [BuilderImage(goVersion, "base")];
    } else {
      groups, pulls := AppendFamily(groups, pulls, "base", BuilderImage(goVersion, "main"), b.main);
      groups, pulls := AppendFamily(groups, pulls, "arm", BuilderImage(goVersion, "arm"), b.arm);
      groups, pulls := AppendFamily(groups, pulls, "powerpc", BuilderImage(goVersion, "powerpc"), b.powerpc);
      groups, pulls := AppendFamily(groups, pulls, "mips", BuilderImage(goVersion, "mips"), b.mips);
      groups, pulls := AppendFamily(groups, pulls, "s390x", BuilderImage(goVersion, "s390x"), b.s390x);
    }
  }

  function GroupPlatforms(groups: seq<PlatformGroup>): (r: seq<string>)
    ensures |r| == |groups|
    ensures forall i :: 0 <= i < |groups| ==> r[i] == groups[i].platform
  {
    seq(|groups|, i requires 0 <= i < |groups| => groups[i].platform)
  }

  lemma GroupsForPlatforms(prefix: string, image: string, ps: seq<string>)
    ensures GroupPlatforms(GroupsFor(prefix, image, ps)) == ps
  {
    GroupsForSpec(prefix, image, ps);
  }

  lemma PlatformsAppend(a: seq<PlatformGroup>, b: seq<PlatformGroup>)
    ensures GroupPlatforms(a + b) == GroupPlatforms(a) + GroupPlatforms(b)
  {
  }

  /**
   * With or without cgo, the planned containers build exactly the resolved
   * platforms, one container each, families in order main, ARM, PowerPC,
   * MIPS, s390x; unknown platforms get no container.
   */
  lemma CgoGroupsCover(b: Buckets, goVersion: string)
    ensures GroupPlatforms(CgoGroups(b, goVersion)) == AllPlatforms(b)
  {
    var m := GroupsFor("base", BuilderImage(goVersion, "main"), b.main);
    var a := GroupsFor("arm", BuilderImage(goVersion, "arm"), b.arm);
    var p := GroupsFor("powerpc", BuilderImage(goVersion, "powerpc"), b.powerpc);
    var mi := GroupsFor("mips", BuilderImage(goVersion, "mips"), b.mips);
    var s := GroupsFor("s390x", BuilderImage(goVersion, "s390x"), b.s390x);
    assert CgoGroups(b, goVersion) == m + a + p + mi + s;
    PlatformsFive(m, a, p, mi, s);
    GroupsForPlatforms("base", BuilderImage(goVersion, "main"), b.main);
    GroupsForPlatforms("arm", BuilderImage(goVersion, "arm"), b.arm);
    GroupsForPlatforms("powerpc", BuilderImage(goVersion, "powerpc"), b.powerpc);
    GroupsForPlatforms("mips", BuilderImage(goVersion, "mips"), b.mips);
    GroupsForPlatforms("s390x", BuilderImage(goVersion, "s390x"), b.s390x);
  }

  /** The platforms of five consecutive runs of groups are those of each run, in order. */
  lemma PlatformsFive(m: seq<PlatformGroup>, a: seq<PlatformGroup>, p: seq<PlatformGroup>,
                      mi: seq<PlatformGroup>, s: seq<PlatformGroup>)
    ensures GroupPlatforms(m + a + p + mi + s) ==
            GroupPlatforms(m) + GroupPlatforms(a) + GroupPlatforms(p) + GroupPlatforms(mi) + GroupPlatforms(s)
  {
    PlatformsAppend(m, a);
    PlatformsAppend(m + a, p);
    PlatformsAppend(m + a + p, mi);
    PlatformsAppend(m + a + p + mi, s);
  }

  /**
   * The number of concurrent builds: CROSSBUILDN when it is set and reads as
   * a non-zero integer, otherwise one less than the CPU count but at least 1.
   */
  function ConcurrencyLimit(env: map<string, string>, numCPU: int): (n: int)
    ensures var v := Promu.Getenv(env, "CROSSBUILDN"); |v| > 0 && Atoi(v) != 0 ==> n == Atoi(v)
    ensures var v := Promu.Getenv(env, "CROSSBUILDN"); (|v| == 0 || Atoi(v) == 0) ==> n == (if numCPU - 1 > 1 then numCPU - 1 else 1)
  {
    var v := Promu.Getenv(env, "CROSSBUILDN");
    var fromEnv := if |v| > 0 then Atoi(v) else 0;
    if fromEnv == 0 then (if numCPU - 1 > 1 then numCPU - 1 else 1) else fromEnv
  }

  /** The limit is a positive number unless CROSSBUILDN is set to a negative number. */
  lemma ConcurrencyLimitPositive(env: map<string, string>, numCPU: int)
    ensures ConcurrencyLimit(env, numCPU) >= 1 <==> !(|Promu.Getenv(env, "CROSSBUILDN")| > 0 && Atoi(Promu.Getenv(env, "CROSSBUILDN")) < 0)
  {
  }

  /** A CROSSBUILDN written as a positive decimal number is used as it is. */
  lemma ConcurrencyLimitFromEnv(env: map<string, string>, numCPU: int, k: int)
    requires 0 < k <= MaxInt64
    requires "CROSSBUILDN" in env && env["CROSSBUILDN"] == FormatInt(k)
    ensures ConcurrencyLimit(env, numCPU) == k
  {
    AtoiFormatInt(k);
  }

  /**
   * The run-time panic of creating the build semaphore, a channel whose
   * capacity is the limit, when the limit is negative.
   */
  const MakeChanPanic := "makechan: size out of range"

  /** The builder images the planning pulls, in order: the base image without cgo, one per non-empty family with cgo. */
  function PlannedGroups(b: Buckets, cgo: bool, goVersion: string): seq<PlatformGroup> {
    if cgo then CgoGroups(b, goVersion) else GroupsFor("base", BuilderImage(goVersion, "base"), AllPlatforms(b))
  }

  function PlannedPulls(b: Buckets, cgo: bool, goVersion: string): seq<string> {
    if cgo then CgoPulls(b, goVersion) else [BuilderImage(goVersion, "base")]
  }

  /**
   * The error of the first `docker pull` that fails, `pullErr` giving the
   * outcome of pulling each image; None when every pull succeeds.
   */
  function FirstPullError(pulls: seq<string>, pullErr: string -> Option<string>): Option<string>
    decreases |pulls|
  {
    if pulls == [] then None
    else if pullErr(pulls[0]).Some? then pullErr(pulls[0])
    else FirstPullError(pulls[1..], pullErr)
  }

  /**
   * There is a pull error exactly when some pull fails, and it is the error
   * of a pull all of whose predecessors succeeded.
   */
  lemma {:induction false} FirstPullErrorIsFirst(pulls: seq<string>, pullErr: string -> Option<string>)
    ensures FirstPullError(pulls, pullErr).None? <==> forall i :: 0 <= i < |pulls| ==> pullErr(pulls[i]).None?
    ensures FirstPullError(pulls, pullErr).Some? ==>
              exists i :: 0 <= i < |pulls| && FirstPullError(pulls, pullErr) == pullErr(pulls[i]) &&
                          forall j :: 0 <= j < i ==> pullErr(pulls[j]).None?
    decreases |pulls|
  {
    if pulls != [] {
      if pullErr(pulls[0]).Some? {
        assert FirstPullError(pulls, pullErr) == pullErr(pulls[0]);
      } else {
        var tail := pulls[1..];
        FirstPullErrorIsFirst(tail, pullErr);
        assert forall i :: 1 <= i < |pulls| ==> pulls[i] == tail[i - 1];
        if FirstPullError(tail, pullErr).Some? {
          var k :| 0 <= k < |tail| && FirstPullError(tail, pullErr) == pullErr(tail[k]) &&
                   forall j :: 0 <= j < k ==> pullErr(tail[j]).None?;
          assert FirstPullError(pulls, pullErr) == pullErr(pulls[k + 1]);
          assert forall j :: 0 <= j < k + 1 ==> pullErr(pulls[j]).None? by {
            forall j | 0 < j < k + 1 ensures pullErr(pulls[j]).None? {
              assert pulls[j] == tail[j - 1];
            }
          }
        }
      }
    }
  }

  /** The dockerPull calls, in order, stopping at the first one that fails. */
  method PullImages(pulls: seq<string>, pullErr: string -> Option<string>) returns (err: Option<string>)
    ensures err == FirstPullError(pulls, pullErr)
  {
    for i := 0 to |pulls|
      invariant FirstPullError(pulls, pullErr) == FirstPullError(pulls[i..], pullErr)
    {
      assert pulls[i..][0] == pulls[i] && pulls[i..][1..] == pulls[i + 1..];
      if pullErr(pulls[i]).Some? {
        return pullErr(pulls[i]);
      }
    }
    assert pulls[|pulls|..] == [];
    return None;
  }

  /** firstGoPath: the first entry of the colon-separated GOPATH. */
  function FirstGoPath(gopath: string): (r: string)
    ensures ':' !in r && HasPrefix(gopath, r)
    ensures |r| < |gopath| ==> gopath[|r|] == ':'
  {
    var i := IndexOf(gopath, ':');
    if i >= 0 then gopath[..i] else gopath
  }

  /** An entry of the working directory listing. */
  datatype FileInfo = FileInfo(name: string, isDir: bool)

  /** The container of one group: its name and the second it was created. */
  function ContainerName(groupName: string, unixNow: int): string {
    "promu-crossbuild-" + groupName + "-" + FormatInt(unixNow)
  }

  /** The arguments of `docker create`; a local docker daemon gets the module cache and the working directory mounted. */
  function CreateArgs(ctr: string, image: string, repoPath: string, platform: string, local: bool, gopath: string, cwd: string): (r: seq<string>)
    ensures |r| == if local then 13 else 9
    ensures r[..4] == ["create", "-t", "--name", ctr]
    ensures r[|r| - 5..] == [image, "-i", repoPath, "-p", platform]
    ensures local ==> r[4..8] == ["-v", FirstGoPath(gopath) + "/pkg/:/go/pkg/", "-v", cwd + "/.:/app/"]
  {
    ["create", "-t", "--name", ctr]
    + (if local then ["-v", FirstGoPath(gopath) + "/pkg/:/go/pkg/", "-v", cwd + "/.:/app/"] else [])
    + [image, "-i", repoPath, "-p", platform]
  }

  /** The `docker cp` of one directory entry into the container's /app. */
  function CopyInCommand(f: FileInfo, cwd: string, ctr: string): seq<string> {
    var src := Paths.Join2(cwd, f.name);
    var dst := ctr + ":" + Paths.Join2("/app", f.name);
    if f.isDir then ["docker", "cp", src + "/", dst + "/"] else ["docker", "cp", src, dst]
  }

  /** The copy-in commands for the listed entries whose names are not excluded, in listing order. */
  function CopyInCommands(files: seq<FileInfo>, cwd: string, ctr: string, excludes: seq<string>): (r: seq<seq<string>>)
    ensures |r| <= |files|
    decreases |files|
  {
    if files == [] then []
    else
      var f := files[|files| - 1];
      CopyInCommands(files[..|files| - 1], cwd, ctr, excludes)
      + (if f.name in excludes then [] else [CopyInCommand(f, cwd, ctr)])
  }

  /** Excluded entries are never copied; every other entry is copied once. */
  lemma {:induction false} CopyInCommandsSkipExcluded(files: seq<FileInfo>, cwd: string, ctr: string, excludes: seq<string>)
    ensures |CopyInCommands(files, cwd, ctr, excludes)| == |set i | 0 <= i < |files| && files[i].name !in excludes|
    decreases |files|
  {
    if files != [] {
      var n := |files| - 1;
      var init := files[..n];
      CopyInCommandsSkipExcluded(init, cwd, ctr, excludes);
      var k := if files[n].name in excludes then 0 else 1;
      assert |CopyInCommands(files, cwd, ctr, excludes)| == |CopyInCommands(init, cwd, ctr, excludes)| + k;
      KeptSnoc(files, excludes);
    }
  }

  /** Every listed entry whose name is not excluded is copied. */
  lemma CopyInCommandsCopyKept(files: seq<FileInfo>, cwd: string, ctr: string, excludes: seq<string>)
    ensures forall i :: 0 <= i < |files| && files[i].name !in excludes ==>
              CopyInCommand(files[i], cwd, ctr) in CopyInCommands(files, cwd, ctr, excludes)
  {
    forall i | 0 <= i < |files| && files[i].name !in excludes
      ensures CopyInCommand(files[i], cwd, ctr) in CopyInCommands(files, cwd, ctr, excludes)
    {
      CopyInCommandsHas(files, i, cwd, ctr, excludes);
    }
  }

  lemma {:induction false} CopyInCommandsHas(files: seq<FileInfo>, i: nat, cwd: string, ctr: string, excludes: seq<string>)
    requires i < |files| && files[i].name !in excludes
    ensures CopyInCommand(files[i], cwd, ctr) in CopyInCommands(files, cwd, ctr, excludes)
    decreases |files|
  {
    var n := |files| - 1;
    var init := files[..n];
    var r0 := CopyInCommands(init, cwd, ctr, excludes);
    var c := CopyInCommand(files[i], cwd, ctr);
    if i == n {
      assert CopyInCommands(files, cwd, ctr, excludes) == r0 + [c];
      assert (r0 + [c])[|r0|] == c;
    } else {
      assert init[i] == files[i];
      CopyInCommandsHas(init, i, cwd, ctr, excludes);
      var k :| 0 <= k < |r0| && r0[k] == c;
      var extra := if files[n].name in excludes then [] else [CopyInCommand(files[n], cwd, ctr)];
      assert CopyInCommands(files, cwd, ctr, excludes) == r0 + extra;
      assert (r0 + extra)[k] == c;
    }
  }

  /** Every copy is that of a listed entry whose name is not excluded. */
  lemma {:induction false} CopyInCommandsOnlyKept(files: seq<FileInfo>, cwd: string, ctr: string, excludes: seq<string>)
    ensures forall c :: c in CopyInCommands(files, cwd, ctr, excludes) ==>
              exists i :: 0 <= i < |files| && files[i].name !in excludes && c == CopyInCommand(files[i], cwd, ctr)
    decreases |files|
  {
    if files != [] {
      var n := |files| - 1;
      var init := files[..n];
      CopyInCommandsOnlyKept(init, cwd, ctr, excludes);
      var r0 := CopyInCommands(init, cwd, ctr, excludes);
      var extra := if files[n].name in excludes then [] else [CopyInCommand(files[n], cwd, ctr)];
      assert CopyInCommands(files, cwd, ctr, excludes) == r0 + extra;
      forall c | c in r0 + extra
        ensures exists i :: 0 <= i < |files| && files[i].name !in excludes && c == CopyInCommand(files[i], cwd, ctr)
      {
        if c in r0 {
          var i :| 0 <= i < |init| && init[i].name !in excludes && c == CopyInCommand(init[i], cwd, ctr);
          assert files[i] == init[i];
        } else {
          assert c == CopyInCommand(files[n], cwd, ctr);
        }
      }
    }
  }

  /** The indices of files not excluded: those of all but the last file, and the last one unless it is excluded. */
  lemma KeptSnoc(files: seq<FileInfo>, excludes: seq<string>)
    requires files != []
    ensures var n := |files| - 1;
            |set i | 0 <= i < |files| && files[i].name !in excludes|
            == |set i | 0 <= i < n && files[..n][i].name !in excludes| + (if files[n].name in excludes then 0 else 1)
  {
    var n := |files| - 1;
    var init := files[..n];
    var s0 := set i | 0 <= i < n && init[i].name !in excludes;
    var s1 := set i | 0 <= i < |files| && files[i].name !in excludes;
    var s2 := if files[n].name in excludes then s0 else s0 + {n};
    forall i
      ensures i in s1 <==> i in s2
    {
      if 0 <= i < n {
        assert init[i] == files[i];
      }
    }
    assert s1 == s2;
    assert n !in s0;
  }

  /** Every command the build of one group runs, in order, when all of them succeed. */
  function BuildPlan(pg: PlatformGroup, repoPath: string, env: map<string, string>, cwd: string,
                     unixNow: int, files: seq<FileInfo>): seq<seq<string>>
  {
    var ctr := ContainerName(pg.name, unixNow);
    var local := Promu.Getenv(env, "DOCKER_HOST") == "";
    var gopath := Promu.Getenv(env, "GOPATH");
    [["docker"] + CreateArgs(ctr, pg.image, repoPath, pg.platform, local, gopath, cwd)]
    + (Sources(local, files, cwd, ctr, [".build"]) + (PkgCopy(local, ctr, gopath) + ContainerRun(ctr, cwd, true)))
  }

  predicate AllSucceed(cmds: seq<seq<string>>, fails: seq<string> -> bool) {
    forall k :: 0 <= k < |cmds| ==> !fails(cmds[k])
  }

  /** The commands a run of `cmds` executes: all of them, or up to and including the first that fails. */
  function RunSeq(cmds: seq<seq<string>>, fails: seq<string> -> bool): (r: seq<seq<string>>)
    ensures r <= cmds
    decreases |cmds|
  {
    if cmds == [] then []
    else if fails(cmds[0]) then [cmds[0]]
    else [cmds[0]] + RunSeq(cmds[1..], fails)
  }

  /**
   * A run executes commands in order until one fails: each command before
   * the last succeeded, it stops early only at a failure, and it succeeds
   * throughout exactly when every command succeeds.
   */
  lemma {:induction false} RunSeqShape(cmds: seq<seq<string>>, fails: seq<string> -> bool)
    ensures forall k :: 0 <= k < |RunSeq(cmds, fails)| - 1 ==> !fails(RunSeq(cmds, fails)[k])
    ensures RunSeq(cmds, fails) == cmds || fails(RunSeq(cmds, fails)[|RunSeq(cmds, fails)| - 1])
    ensures AllSucceed(RunSeq(cmds, fails), fails) <==> AllSucceed(cmds, fails)
    ensures AllSucceed(cmds, fails) ==> RunSeq(cmds, fails) == cmds
    decreases |cmds|
  {
    if cmds != [] && !fails(cmds[0]) {
      RunSeqShape(cmds[1..], fails);
      assert forall k :: 1 <= k < |cmds| ==> cmds[k] == cmds[1..][k - 1];
    }
  }

  /** After a block that succeeded throughout, the run goes on with the next block. */
  lemma {:induction false} RunSeqAppend(a: seq<seq<string>>, b: seq<seq<string>>, fails: seq<string> -> bool)
    ensures AllSucceed(a, fails) ==> RunSeq(a + b, fails) == a + RunSeq(b, fails)
    ensures !AllSucceed(a, fails) ==> RunSeq(a + b, fails) == RunSeq(a, fails)
    decreases |a|
  {
    if a == [] {
      assert a + b == b;
    } else {
      assert (a + b)[0] == a[0];
      assert (a + b)[1..] == a[1..] + b;
      RunSeqAppend(a[1..], b, fails);
      if !fails(a[0]) {
        assert AllSucceed(a, fails) <==> AllSucceed(a[1..], fails) by {
          assert forall k :: 1 <= k < |a| ==> a[k] == a[1..][k - 1];
        }
      }
    }
  }

  /**
   * The error of a docker command line that fails: the command runner's
   * message, then the cause `cause` gives for it.
   */
  function DockerError(verbose: bool, cmd: seq<string>, cause: seq<string> -> string): string
    requires |cmd| >= 1
  {
    "command failed: " + Sh.CommandText(verbose, cmd[0], cmd[1..]) + ": " + cause(cmd)
  }

  /** `msg` is the error of the last command line in `ran`. */
  predicate LastFailed(ran: seq<seq<string>>, verbose: bool, cause: seq<string> -> string, msg: string) {
    ran != [] && |ran[|ran| - 1]| >= 1 && msg == DockerError(verbose, ran[|ran| - 1], cause)
  }

  /** Runs one docker command line, recording it. */
  method Docker(ran: seq<seq<string>>, cmd: seq<string>, verbose: bool, fails: seq<string> -> bool, cause: seq<string> -> string)
    returns (ran': seq<seq<string>>, err: Option<string>)
    requires |cmd| >= 1 && cmd[0] == "docker"
    ensures ran' == ran + [cmd]
    ensures err.Some? <==> fails(cmd)
    ensures err.Some? ==> err.value == DockerError(verbose, cmd, cause)
  {
    assert [cmd[0]] + cmd[1..] == cmd;
    err := Sh.RunCommand(verbose, cmd[0], cmd[1..], fails, cause);
    ran' := ran + [cmd];
  }

  lemma CopyInCommandsSnoc(files: seq<FileInfo>, i: nat, cwd: string, ctr: string, excludes: seq<string>)
    requires i < |files|
    ensures CopyInCommands(files[..i + 1], cwd, ctr, excludes)
            == CopyInCommands(files[..i], cwd, ctr, excludes)
               + (if files[i].name in excludes then [] else [CopyInCommand(files[i], cwd, ctr)])
  {
    var next := files[..i + 1];
    assert next[..|next| - 1] == files[..i];
  }

  /** The commands that run the container, copy its .build directory out (when asked) and remove it. */
  function ContainerRun(ctr: string, cwd: string, copyOut: bool): seq<seq<string>> {
    [["docker", "start", "-a", ctr]]
    + (if copyOut then [["docker", "cp", "-a", ctr + ":/app/.build/.", cwd + "/.build"]] else [])
    + [["docker", "rm", "-f", ctr]]
  }

  /** The FILES loop: copies each listed entry whose name is not excluded into the container, stopping at the first failure. */
  method CopySources(fs: seq<FileInfo>, dir: string, ctr: string, excludes: seq<string>,
                     verbose: bool, fails: seq<string> -> bool, cause: seq<string> -> string)
    returns (ran: seq<seq<string>>, err: Option<string>)
    ensures ran == RunSeq(CopyInCommands(fs, dir, ctr, excludes), fails)
    ensures err.None? <==> AllSucceed(CopyInCommands(fs, dir, ctr, excludes), fails)
    ensures err.Some? ==> LastFailed(ran, verbose, cause, err.value)
  {
    ghost var all := CopyInCommands(fs, dir, ctr, excludes);
    ran := [];
    label entries:
    for i := 0 to |fs|
      invariant ran == CopyInCommands(fs[..i], dir, ctr, excludes)
      invariant AllSucceed(ran, fails)
    {
      CopyInCommandsSnoc(fs, i, dir, ctr, excludes);
      var excluded := Excluded(fs[i].name, excludes);
      if excluded {
        continue entries;
      }
      ghost var before := ran;
      ran, err := Docker(ran, CopyInCommand(fs[i], dir, ctr), verbose, fails, cause);
      if err.Some? {
        CopyFailureStops(fs, i, dir, ctr, excludes, fails);
        return ran, err;
      }
      AllSucceedAppend(before, [CopyInCommand(fs[i], dir, ctr)], fails);
    }
    assert fs[..|fs|] == fs;
    RunSeqShape(all, fails);
    err := None;
  }

  /** The inner loop over the excluded names: whether the entry's name is one of them. */
  method Excluded(name: string, excludes: seq<string>) returns (b: bool)
    ensures b <==> name in excludes
  {
    for j := 0 to |excludes|
      invariant name !in excludes[..j]
    {
      if name == excludes[j] {
        return true;
      }
    }
    assert excludes[..|excludes|] == excludes;
    return false;
  }

  /** Starts the container, copies its .build directory out when asked, and removes it, stopping at the first failure. */
  method RunContainer(ctr: string, dir: string, copyOut: bool,
                      verbose: bool, fails: seq<string> -> bool, cause: seq<string> -> string)
    returns (ran: seq<seq<string>>, err: Option<string>)
    ensures ran == RunSeq(ContainerRun(ctr, dir, copyOut), fails)
    ensures err.None? <==> AllSucceed(ContainerRun(ctr, dir, copyOut), fails)
    ensures err.Some? ==> LastFailed(ran, verbose, cause, err.value)
  {
    ghost var all := ContainerRun(ctr, dir, copyOut);
    RunSeqShape(all, fails);
    assert AllSucceed(all, fails) <==> forall c :: c in all ==> !fails(c);
    ran, err := Docker([], ["docker", "start", "-a", ctr], verbose, fails, cause);
    if err.Some? {
      return ran, err;
    }
    if copyOut {
      ran, err := Docker(ran, ["docker", "cp", "-a", ctr + ":/app/.build/.", dir + "/.build"], verbose, fails, cause);
      if err.Some? {
        return ran, err;
      }
    }
    ran, err := Docker(ran, ["docker", "rm", "-f", ctr], verbose, fails, cause);
  }

  /** A copy that fails ends the run of the copy-in commands, which then do not all succeed. */
  lemma CopyFailureStops(fs: seq<FileInfo>, i: nat, dir: string, ctr: string, excludes: seq<string>,
                         fails: seq<string> -> bool)
    requires i < |fs| && fs[i].name !in excludes
    requires AllSucceed(CopyInCommands(fs[..i], dir, ctr, excludes), fails)
    requires fails(CopyInCommand(fs[i], dir, ctr))
    ensures RunSeq(CopyInCommands(fs, dir, ctr, excludes), fails)
            == CopyInCommands(fs[..i], dir, ctr, excludes) + [CopyInCommand(fs[i], dir, ctr)]
    ensures !AllSucceed(CopyInCommands(fs, dir, ctr, excludes), fails)
  {
    var all := CopyInCommands(fs, dir, ctr, excludes);
    var pre := CopyInCommands(fs[..i], dir, ctr, excludes);
    var cmd := CopyInCommand(fs[i], dir, ctr);
    var ran := pre + [cmd];
    assert ran <= all by {
      CopyInCommandsSnoc(fs, i, dir, ctr, excludes);
      CopyInCommandsPrefix(fs, i + 1, dir, ctr, excludes);
      assert fs[..|fs|] == fs;
    }
    assert forall k :: 0 <= k < |ran| - 1 ==> ran[k] == pre[k];
    RunSeqStops(all, ran, fails);
    assert all[|ran| - 1] == cmd;
  }

  lemma {:induction false} RunSeqStops(cmds: seq<seq<string>>, ran: seq<seq<string>>, fails: seq<string> -> bool)
    requires ran <= cmds && ran != []
    requires forall k :: 0 <= k < |ran| - 1 ==> !fails(ran[k])
    requires fails(ran[|ran| - 1])
    ensures RunSeq(cmds, fails) == ran
    decreases |ran|
  {
    if |ran| > 1 {
      RunSeqStops(cmds[1..], ran[1..], fails);
    }
  }

  lemma {:induction false} CopyInCommandsPrefix(files: seq<FileInfo>, i: nat, cwd: string, ctr: string, excludes: seq<string>)
    requires i <= |files|
    ensures CopyInCommands(files[..i], cwd, ctr, excludes) <= CopyInCommands(files, cwd, ctr, excludes)
    decreases |files| - i
  {
    if i < |files| {
      CopyInCommandsPrefix(files, i + 1, cwd, ctr, excludes);
      var next := files[..i + 1];
      assert next[..|next| - 1] == files[..i];
      var head := CopyInCommands(files[..i], cwd, ctr, excludes);
      assert CopyInCommands(next, cwd, ctr, excludes)[..|head|] == head;
    } else {
      assert files[..i] == files;
    }
  }

  lemma AllSucceedAppend(a: seq<seq<string>>, b: seq<seq<string>>, fails: seq<string> -> bool)
    ensures AllSucceed(a + b, fails) <==> AllSucceed(a, fails) && AllSucceed(b, fails)
  {
    if AllSucceed(a, fails) && AllSucceed(b, fails) {
      forall k | 0 <= k < |a + b| ensures !fails((a + b)[k]) {
        if k >= |a| {
          assert (a + b)[k] == b[k - |a|];
        }
      }
    }
    if AllSucceed(a + b, fails) {
      forall k | 0 <= k < |a| ensures !fails(a[k]) {
        assert (a + b)[k] == a[k];
      }
      forall k | 0 <= k < |b| ensures !fails(b[k]) {
        assert (a + b)[|a| + k] == b[k];
      }
    }
  }

  /** Running `done` and then a block that succeeds throughout: the run goes on after the block. */
  lemma RunBlockOk(done: seq<seq<string>>, block: seq<seq<string>>, rest: seq<seq<string>>, fails: seq<string> -> bool)
    requires AllSucceed(done, fails) && AllSucceed(block, fails)
    ensures done + RunSeq(block + rest, fails) == (done + block) + RunSeq(rest, fails)
    ensures AllSucceed(done + block, fails)
    ensures RunSeq(block, fails) == block
  {
    var r := RunSeq(rest, fails);
    assert RunSeq(block + rest, fails) == block + r by {
      RunSeqAppend(block, rest, fails);
    }
    assert done + (block + r) == (done + block) + r;
    assert RunSeq(block, fails) == block by {
      RunSeqShape(block, fails);
    }
    AllSucceedAppend(done, block, fails);
  }

  /** Running `done` and then a block in which some command fails: the run ends inside the block. */
  lemma RunBlockFails(done: seq<seq<string>>, block: seq<seq<string>>, rest: seq<seq<string>>, fails: seq<string> -> bool)
    requires !AllSucceed(block, fails)
    ensures done + RunSeq(block + rest, fails) == done + RunSeq(block, fails)
    ensures !AllSucceed(done + RunSeq(block, fails), fails)
  {
    RunSeqAppend(block, rest, fails);
    RunSeqShape(block, fails);
    AllSucceedAppend(done, RunSeq(block, fails), fails);
  }

  /** The source copies a remote daemon needs, in listing order, none for a local daemon. */
  function Sources(local: bool, fs: seq<FileInfo>, dir: string, ctr: string, excludes: seq<string>): seq<seq<string>> {
    if local then [] else CopyInCommands(fs, dir, ctr, excludes)
  }

  /** The module cache copy a remote daemon needs, none for a local daemon. */
  function PkgCopy(local: bool, ctr: string, gopath: string): seq<seq<string>> {
    if local then [] else [["docker", "cp", FirstGoPath(gopath) + "/pkg/", ctr + ":/go/pkg/"]]
  }

  /**
   * What a remote daemon needs before the container starts: the copies of
   * the sources, then of the module cache, stopping at the first failure;
   * `tail` is what the plan runs after them.
   */
  method CopyToRemote(fs: seq<FileInfo>, dir: string, ctr: string, gopath: string, excludes: seq<string>,
                      ghost tail: seq<seq<string>>,
                      verbose: bool, fails: seq<string> -> bool, cause: seq<string> -> string)
    returns (ran: seq<seq<string>>, err: Option<string>)
    ensures var plan := CopyInCommands(fs, dir, ctr, excludes) + (PkgCopy(false, ctr, gopath) + tail);
            err.None? ==> AllSucceed(ran, fails) && RunSeq(plan, fails) == ran + RunSeq(tail, fails)
    ensures var plan := CopyInCommands(fs, dir, ctr, excludes) + (PkgCopy(false, ctr, gopath) + tail);
            err.Some? ==> ran == RunSeq(plan, fails) && !AllSucceed(ran, fails) && LastFailed(ran, verbose, cause, err.value)
  {
    ghost var sources := CopyInCommands(fs, dir, ctr, excludes);
    ghost var pkg := PkgCopy(false, ctr, gopath);
    ghost var goal := RunSeq(sources + (pkg + tail), fails);
    var more;
    more, err := CopySources(fs, dir, ctr, excludes, verbose, fails, cause);
    if err.Some? {
      RunBlockFails([], sources, pkg + tail, fails);
      assert [] + more == more;
      return more, err;
    }
    RunBlockOk([], sources, pkg + tail, fails);
    ran := [] + more;
    assert goal == ran + RunSeq(pkg + tail, fails);
    ghost var before := ran;
    ran, err := Docker(ran, ["docker", "cp", FirstGoPath(gopath) + "/pkg/", ctr + ":/go/pkg/"], verbose, fails, cause);
    assert AllSucceed(pkg, fails) <==> !fails(pkg[0]);
    if err.Some? {
      RunBlockFails(before, pkg, tail, fails);
      assert RunSeq(pkg, fails) == pkg;
      return ran, err;
    }
    RunBlockOk(before, pkg, tail, fails);
  }

  /** What platformGroup.Build runs once the container is created and the directory listed. */
  method FeedAndRun(local: bool, fs: seq<FileInfo>, dir: string, ctr: string, gopath: string,
                    excludes: seq<string>, copyOut: bool,
                    verbose: bool, fails: seq<string> -> bool, cause: seq<string> -> string)
    returns (ran: seq<seq<string>>, err: Option<string>)
    ensures ran == RunSeq(Sources(local, fs, dir, ctr, excludes) + (PkgCopy(local, ctr, gopath) + ContainerRun(ctr, dir, copyOut)), fails)
    ensures err.None? <==> AllSucceed(ran, fails)
    ensures err.Some? ==> LastFailed(ran, verbose, cause, err.value)
  {
    ghost var sources := Sources(local, fs, dir, ctr, excludes);
    ghost var pkg := PkgCopy(local, ctr, gopath);
    ghost var tail := ContainerRun(ctr, dir, copyOut);
    ghost var goal := RunSeq(sources + (pkg + tail), fails);
    ran := [];
    if !local {
      ran, err := CopyToRemote(fs, dir, ctr, gopath, excludes, tail, verbose, fails, cause);
      if err.Some? {
        return;
      }
    } else {
      assert sources + (pkg + tail) == tail;
    }
    assert goal == ran + RunSeq(tail, fails) && AllSucceed(ran, fails);
    var more;
    more, err := RunContainer(ctr, dir, copyOut, verbose, fails, cause);
    assert tail + [] == tail;
    if err.Some? {
      RunBlockFails(ran, tail, [], fails);
      LastOfAppend(ran, more);
    } else {
      RunBlockOk(ran, tail, [], fails);
    }
    ran := ran + more;
  }

  /**
   * platformGroup.Build: the docker commands of one group, run in order and
   * stopping at the first failure. `cwd` is the working directory lookup,
   * `files` the listing of the working directory, `fails` which command
   * lines fail and `cause` the error each failing one reports; `ran` is the
   * commands run.
   */
  method BuildGroup(pg: PlatformGroup, repoPath: string, env: map<string, string>, cwd: Result<string>,
                    unixNow: int, files: Result<seq<FileInfo>>,
                    verbose: bool, fails: seq<string> -> bool, cause: seq<string> -> string)
    returns (ran: seq<seq<string>>, out: Outcome)
    ensures |pg.platform| == 0 ==> ran == [] && out == Pass
    ensures |pg.platform| > 0 && cwd.Err? ==> ran == [] && out == Fail("couldn't get current working directory: " + cwd.msg)
    ensures |pg.platform| > 0 && cwd.Ok? && files.Err? && !fails(BuildPlan(pg, repoPath, env, cwd.value, unixNow, [])[0]) ==>
              out == Fail(files.msg)
    ensures |pg.platform| > 0 && cwd.Ok? && out.Fail? && (files.Ok? || fails(BuildPlan(pg, repoPath, env, cwd.value, unixNow, [])[0])) ==>
              LastFailed(ran, verbose, cause, out.msg)
    ensures |pg.platform| > 0 && cwd.Ok? && files.Err? ==>
              ran == RunSeq(BuildPlan(pg, repoPath, env, cwd.value, unixNow, [])[..1], fails) && out.Fail?
    ensures |pg.platform| > 0 && cwd.Ok? && files.Ok? ==>
              ran == RunSeq(BuildPlan(pg, repoPath, env, cwd.value, unixNow, files.value), fails) &&
              (out.Pass? <==> AllSucceed(ran, fails))
  {
    if |pg.platform| == 0 {
      return [], Pass;
    }
    if cwd.Err? {
      return [], Fail("couldn't get current working directory: " + cwd.msg);
    }
    var dir := cwd.value;
    var ctr := ContainerName(pg.name, unixNow);
    var local := Promu.Getenv(env, "DOCKER_HOST") == "";
    var gopath := Promu.Getenv(env, "GOPATH");
    var create := ["docker"] + CreateArgs(ctr, pg.image, repoPath, pg.platform, local, gopath, dir);
    assert BuildPlan(pg, repoPath, env, dir, unixNow, [])[..1] == [create];
    ran, out := CreateAndRun(create, local, files, dir, ctr, gopath, [".build"], true, verbose, fails, cause);
  }

  /**
   * The part of platformGroup.Build after the container's name is known:
   * `docker create`, then, when the working directory could be listed, the
   * copies and the run of the container, stopping at the first failure.
   */
  method CreateAndRun(create: seq<string>, local: bool, files: Result<seq<FileInfo>>, dir: string, ctr: string,
                      gopath: string, excludes: seq<string>, copyOut: bool,
                      verbose: bool, fails: seq<string> -> bool, cause: seq<string> -> string)
    returns (ran: seq<seq<string>>, out: Outcome)
    requires |create| >= 1 && create[0] == "docker"
    ensures files.Err? ==> ran == RunSeq([create], fails) && out.Fail?
    ensures files.Err? && !fails(create) ==> out == Fail(files.msg)
    ensures out.Fail? && (files.Ok? || fails(create)) ==> LastFailed(ran, verbose, cause, out.msg)
    ensures files.Ok? ==>
              ran == RunSeq([create] + (Sources(local, files.value, dir, ctr, excludes) +
                                        (PkgCopy(local, ctr, gopath) + ContainerRun(ctr, dir, copyOut))), fails) &&
              (out.Pass? <==> AllSucceed(ran, fails))
  {
    var fs := if files.Ok? then files.value else [];
    ghost var rest := Sources(local, fs, dir, ctr, excludes) + (PkgCopy(local, ctr, gopath) + ContainerRun(ctr, dir, copyOut));
    var err;
    ran, err := Docker([], create, verbose, fails, cause);
    CreateFirst(create, rest, fails);
    if err.Some? {
      return ran, Fail(err.value);
    }
    if files.Err? {
      return ran, Fail(files.msg);
    }
    var more;
    more, err := FeedAndRun(local, fs, dir, ctr, gopath, excludes, copyOut, verbose, fails, cause);
    AllSucceedAppend(ran, more, fails);
    if err.Some? {
      LastOfAppend(ran, more);
    }
    ran := ran + more;
    if err.Some? {

      return ran, Fail(err.value);
    }
    return ran, Pass;
  }

  lemma LastOfAppend(done: seq<seq<string>>, more: seq<seq<string>>)
    requires more != []
    ensures done + more != [] && (done + more)[|done + more| - 1] == more[|more| - 1]
  {
  }

  /** The run of a plan that starts with `docker create`: it stops there when that fails. */
  lemma CreateFirst(create: seq<string>, rest: seq<seq<string>>, fails: seq<string> -> bool)
    ensures [] + [create] == [create] && RunSeq([create], fails) == [create]
    ensures fails(create) ==> RunSeq([create] + rest, fails) == [create]
    ensures !fails(create) ==> RunSeq([create] + rest, fails) == [create] + RunSeq(rest, fails) && AllSucceed([create], fails)
  {
    assert ([create] + rest)[0] == create && ([create] + rest)[1..] == rest;
    assert [create][1..] == [];
  }

  /** The error reported for each group whose build failed, in group order; `names` are the group names. */
  function GroupErrors(names: seq<string>, outcomes: seq<Outcome>): (errs: seq<string>)
    requires |outcomes| == |names|
    ensures |errs| <= |names|
    ensures |errs| == 0 <==> forall i :: 0 <= i < |names| ==> outcomes[i].Pass?
    decreases |names|
  {
    if names == [] then []
    else
      var n := |names| - 1;
      GroupErrors(names[..n], outcomes[..n])
      + (match outcomes[n]
         case Pass => []
         case Fail(msg) => ["The " + names[n] + " builder docker image exited unexpectedly: " + msg])
  }

  /**
   * The end of runCrossbuild: the outcome of every group's build is
   * collected; the command fails, after reporting each error, when any
   * group failed.
   */
  method CollectErrors(names: seq<string>, outcomes: seq<Outcome>) returns (errs: seq<string>, out: Outcome)
    requires |outcomes| == |names|
    ensures errs == GroupErrors(names, outcomes)
    ensures out.Fail? <==> exists i :: 0 <= i < |names| && outcomes[i].Fail?
    ensures out.Fail? ==> out.msg == "Crossbuild failed"
  {
    errs := [];
    for i := 0 to |names|
      invariant errs == GroupErrors(names[..i], outcomes[..i])
    {
      assert names[..i + 1][..i] == names[..i] && outcomes[..i + 1][..i] == outcomes[..i];
      if outcomes[i].Fail? {
        errs := errs + ["The " + names[i] + " builder docker image exited unexpectedly: " + outcomes[i].msg];
      }
    }
    assert names[..|names|] == names && outcomes[..|outcomes|] == outcomes;
    if |errs| > 0 {
      out := Fail("Crossbuild failed");
    } else {
      out := Pass;
    }
  }

  /** What runCrossbuild decides before any container runs. */
  datatype Plan =
    | Tarballs
    | Containers(groups: seq<PlatformGroup>, pulls: seq<string>, limit: int)

  /**
   * runCrossbuild up to launching the builds: the repository path is
   * required, the `tarballs` argument switches to packaging, otherwise the
   * platforms are classified, the groups planned and their builder images
   * pulled, `pullErr` giving the outcome of each pull; a failed pull ends
   * the command, and so does a negative limit, whose semaphore cannot be
   * created. `warning` is the unknown-platforms warning, printed right
   * after classification and so before any pull or failure.
   */
  method RunCrossbuild(repoPath: string, tarballsArg: string, platforms: seq<string>, cgo: bool, goVersion: string,
                       env: map<string, string>, numCPU: int, pullErr: string -> Option<string>)
    returns (r: Result<Plan>, warning: Option<string>)
    ensures TrimSpace(repoPath) == "" || tarballsArg == "tarballs" ==> warning == None
    ensures TrimSpace(repoPath) != "" && tarballsArg != "tarballs" ==> warning == UnknownWarning(Classified(platforms).unknown)
    ensures TrimSpace(repoPath) == "" ==> r == Err("missing required 'repository.path' configuration")
    ensures TrimSpace(repoPath) != "" && tarballsArg == "tarballs" ==> r == Ok(Tarballs)
    ensures TrimSpace(repoPath) != "" && tarballsArg != "tarballs" ==>
              var pullFailure := FirstPullError(PlannedPulls(Classified(platforms), cgo, goVersion), pullErr);
              var limit := ConcurrencyLimit(env, numCPU);
              (pullFailure.Some? ==> r == Err(pullFailure.value)) &&
              (pullFailure.None? && limit < 1 ==> r == Err(MakeChanPanic)) &&
              (pullFailure.None? && limit >= 1 ==>
                 r.Ok? && r.value.Containers? &&
                 r.value.groups == PlannedGroups(Classified(platforms), cgo, goVersion) &&
                 GroupPlatforms(r.value.groups) == AllPlatforms(Classified(platforms)) &&
                 r.value.pulls == PlannedPulls(Classified(platforms), cgo, goVersion) &&
                 r.value.limit == limit)
  {
    if |TrimSpace(repoPath)| == 0 {
      return Err("missing required 'repository.path' configuration"), None;
    }
    if tarballsArg == "tarballs" {
      return Ok(Tarballs), None;
    }
    var b := Classify(platforms);
    warning := UnknownWarning(b.unknown);
    var groups, pulls := PlanGroups(b, cgo, goVersion);
    if cgo {
      CgoGroupsCover(b, goVersion);
    } else {
      GroupsForPlatforms("base", BuilderImage(goVersion, "base"), AllPlatforms(b));
    }
    var pullFailure := PullImages(pulls, pullErr);
    if pullFailure.Some? {
      return Err(pullFailure.value), warning;
    }
    var limit := ConcurrencyLimit(env, numCPU);
    if limit < 1 {
      return Err(MakeChanPanic), warning;
    }
    return Ok(Containers(groups, pulls, limit)), warning;
  }
}
