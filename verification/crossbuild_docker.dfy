/**
 * The docker-only variant of the crossbuild command
 * (cmd/crossbuild_docker.go): one container per image family rather than
 * per platform, a Go build cache mounted into local containers, and the
 * build output copied back only from a remote daemon.
 */
module CrossbuildDocker {
  import opened Wrappers
  import opened Strs
  import opened Crossbuild
  import Promu

  /** One container to run: a name, the builder image, and all the platforms it builds. */
  datatype FamilyGroup = FamilyGroup(name: string, image: string, platforms: seq<string>)

  /** The five family groups of the non-cgo build, all on the base image, empty ones included. */
  function BaseGroups(b: Buckets, goVersion: string): seq<FamilyGroup> {
    var base := BuilderImage(goVersion, "base");
    [FamilyGroup("base-main", base, b.main), FamilyGroup("base-arm", base, b.arm),
     FamilyGroup("base-powerpc", base, b.powerpc), FamilyGroup("base-mips", base, b.mips),
     FamilyGroup("base-s390x", base, b.s390x)]
  }

  /** The family group of a cgo build when the family has platforms, none otherwise. */
  function FamilyIf(name: string, image: string, ps: seq<string>): seq<FamilyGroup> {
    if |ps| > 0 then [FamilyGroup(name, image, ps)] else []
  }

  /** The groups of the cgo build: one per non-empty family, each on its own image. */
  function CgoFamilyGroups(b: Buckets, goVersion: string): seq<FamilyGroup> {
    var g0: seq<FamilyGroup> := [];
    var g1 := g0 + FamilyIf("main", BuilderImage(goVersion, "main"), b.main);
    var g2 := g1 + FamilyIf("arm", BuilderImage(goVersion, "arm"), b.arm);
    var g3 := g2 + FamilyIf("powerpc", BuilderImage(goVersion, "powerpc"), b.powerpc);
    var g4 := g3 + FamilyIf("mips", BuilderImage(goVersion, "mips"), b.mips);
    g4 + FamilyIf("s390x", BuilderImage(goVersion, "s390x"), b.s390x)
  }

  /** One cgo family block: the group and the image pull, both only when the family has platforms. */
  method AppendFamilyGroup(groups: seq<FamilyGroup>, pulls: seq<string>, name: string, image: string, ps: seq<string>)
    returns (groups': seq<FamilyGroup>, pulls': seq<string>)
    ensures groups' == groups + FamilyIf(name, image, ps)
    ensures pulls' == pulls + (if |ps| > 0 then [image] else [])
  {
    groups', pulls' := groups, pulls;
    if |ps| > 0 {
      groups' := groups + [FamilyGroup(name, image, ps)];
      pulls' := pulls + [image];
    }
  }

  /**
   * The group planning of runCrossbuildDocker: without cgo five groups on
   * the base image; with cgo one group per non-empty family on that
   * family's image, pulling only those images.
   */
  /** The groups runCrossbuild plans: five base groups without cgo, one per non-empty family with it. */
  function PlannedFamilyGroups(b: Buckets, cgo: bool, goVersion: string): seq<FamilyGroup> {
    if cgo then CgoFamilyGroups(b, goVersion) else BaseGroups(b, goVersion)
  }

  method PlanFamilyGroups(b: Buckets, cgo: bool, goVersion: string) returns (groups: seq<FamilyGroup>, pulls: seq<string>)
    ensures !cgo ==> groups == BaseGroups(b, goVersion) && pulls == [BuilderImage(goVersion, "base")]
    ensures cgo ==> groups == CgoFamilyGroups(b, goVersion) && pulls == CgoPulls(b, goVersion)
  {
    groups := [];
    pulls := [];
    if !cgo {
      var base := BuilderImage(goVersion, "base");
      groups := groups + [FamilyGroup("base-main", base, b.main)];
      groups := groups + [FamilyGroup("base-arm", base, b.arm)];
      groups := groups + [FamilyGroup("base-powerpc", base, b.powerpc)];
      groups := groups + [FamilyGroup("base-mips", base, b.mips)];
      groups := groups + [FamilyGroup("base-s390x", base, b.s390x)];
      pulls := pulls + [base];
    } else {
      groups, pulls := AppendFamilyGroup(groups, pulls, "main", BuilderImage(goVersion, "main"), b.main);
      groups, pulls := AppendFamilyGroup(groups, pulls, "arm", BuilderImage(goVersion, "arm"), b.arm);
      groups, pulls := AppendFamilyGroup(groups, pulls, "powerpc", BuilderImage(goVersion, "powerpc"), b.powerpc);
      groups, pulls := AppendFamilyGroup(groups, pulls, "mips", BuilderImage(goVersion, "mips"), b.mips);
      groups, pulls := AppendFamilyGroup(groups, pulls, "s390x", BuilderImage(goVersion, "s390x"), b.s390x);
    }
  }

  /** The platforms of all groups, group after group. */
  function Flatten(groups: seq<FamilyGroup>): seq<string>
    decreases |groups|
  {
    if groups == [] then [] else Flatten(groups[..|groups| - 1]) + groups[|groups| - 1].platforms
  }

  lemma {:induction false} FlattenAppend(a: seq<FamilyGroup>, b: seq<FamilyGroup>)
    ensures Flatten(a + b) == Flatten(a) + Flatten(b)
    decreases |b|
  {
    if b == [] {
      assert a + b == a;
    } else {
      var n := |b| - 1;
      FlattenAppend(a, b[..n]);
      assert (a + b)[..|a + b| - 1] == a + b[..n];
      assert (a + b)[|a + b| - 1] == b[n];
      AppendAssoc(Flatten(a), Flatten(b[..n]), b[n].platforms);
    }
  }

  lemma FlattenFamilyIf(name: string, image: string, ps: seq<string>)
    ensures Flatten(FamilyIf(name, image, ps)) == ps
  {
    if |ps| > 0 {
      var g := FamilyIf(name, image, ps);
      assert g[..0] == [];
    }
  }

  /**
   * With or without cgo, the groups together build exactly the resolved
   * platforms, families in order main, ARM, PowerPC, MIPS, s390x.
   */
  lemma FamilyGroupsCover(b: Buckets, goVersion: string)
    ensures Flatten(BaseGroups(b, goVersion)) == AllPlatforms(b)
    ensures Flatten(CgoFamilyGroups(b, goVersion)) == AllPlatforms(b)
  {
    var base := BuilderImage(goVersion, "base");
    var g1, g2, g3 := [FamilyGroup("base-main", base, b.main)], [FamilyGroup("base-arm", base, b.arm)], [FamilyGroup("base-powerpc", base, b.powerpc)];
    var g4, g5 := [FamilyGroup("base-mips", base, b.mips)], [FamilyGroup("base-s390x", base, b.s390x)];
    assert BaseGroups(b, goVersion) == g1 + g2 + g3 + g4 + g5;
    FlattenAppend(g1, g2);
    FlattenAppend(g1 + g2, g3);
    FlattenAppend(g1 + g2 + g3, g4);
    FlattenAppend(g1 + g2 + g3 + g4, g5);
    assert Flatten(g1) == b.main by { assert g1[..0] == []; }
    assert Flatten(g2) == b.arm by { assert g2[..0] == []; }
    assert Flatten(g3) == b.powerpc by { assert g3[..0] == []; }
    assert Flatten(g4) == b.mips by { assert g4[..0] == []; }
    assert Flatten(g5) == b.s390x by { assert g5[..0] == []; }
    var m := FamilyIf("main", BuilderImage(goVersion, "main"), b.main);
    var a := FamilyIf("arm", BuilderImage(goVersion, "arm"), b.arm);
    var p := FamilyIf("powerpc", BuilderImage(goVersion, "powerpc"), b.powerpc);
    var mi := FamilyIf("mips", BuilderImage(goVersion, "mips"), b.mips);
    var s := FamilyIf("s390x", BuilderImage(goVersion, "s390x"), b.s390x);
    assert CgoFamilyGroups(b, goVersion) == m + a + p + mi + s;
    FlattenAppend(m, a);
    FlattenAppend(m + a, p);
    FlattenAppend(m + a + p, mi);
    FlattenAppend(m + a + p + mi, s);
    FlattenFamilyIf("main", BuilderImage(goVersion, "main"), b.main);
    FlattenFamilyIf("arm", BuilderImage(goVersion, "arm"), b.arm);
    FlattenFamilyIf("powerpc", BuilderImage(goVersion, "powerpc"), b.powerpc);
    FlattenFamilyIf("mips", BuilderImage(goVersion, "mips"), b.mips);
    FlattenFamilyIf("s390x", BuilderImage(goVersion, "s390x"), b.s390x);
  }

  /** Every group of a cgo build has at least one platform. */
  lemma CgoFamilyGroupsNonEmpty(b: Buckets, goVersion: string)
    ensures forall g :: g in CgoFamilyGroups(b, goVersion) ==> |g.platforms| > 0
  {
  }

  const LocalGoCacheDir: string := ".cache/go-build"
  const ContainerGoCacheDir: string := "/go/.cache/go-build"

  /**
   * The arguments of `docker create`: a local daemon also gets the build
   * cache mounted and GOCACHE pointed at it; the platforms are passed as one
   * space-separated argument.
   */
  function CreateArgs(ctr: string, image: string, repoPath: string, platforms: seq<string>,
                      local: bool, gopath: string, cwd: string): (r: seq<string>)
    ensures |r| == if local then 17 else 9
    ensures r[..4] == ["create", "-t", "--name", ctr]
    ensures r[|r| - 5..] == [image, "-i", repoPath, "-p", Join(platforms, " ")]
    ensures local ==> r[4..12] == ["-v", FirstGoPath(gopath) + "/pkg/:/go/pkg/", "-v", cwd + "/.:/app/",
                                   "-v", cwd + "/" + LocalGoCacheDir + "/:" + ContainerGoCacheDir + "/",
                                   "--env", "GOCACHE=" + ContainerGoCacheDir]
  {
    ["create", "-t", "--name", ctr]
    + (if local then ["-v", FirstGoPath(gopath) + "/pkg/:/go/pkg/", "-v", cwd + "/.:/app/",
                      "-v", cwd + "/" + LocalGoCacheDir + "/:" + ContainerGoCacheDir + "/",
                      "--env", "GOCACHE=" + ContainerGoCacheDir] else [])
    + [image, "-i", repoPath, "-p", Join(platforms, " ")]
  }

  /** The entries never copied into a remote container. */
  const Excludes: seq<string> := [".build", ".cache"]

  /** Every command the build of one family group runs, in order, when all of them succeed. */
  function BuildPlan(pg: FamilyGroup, repoPath: string, env: map<string, string>, cwd: string,
                     unixNow: int, files: seq<FileInfo>): seq<seq<string>>
  {
    var ctr := ContainerName(pg.name, unixNow);
    var local := Promu.Getenv(env, "DOCKER_HOST") == "";
    var gopath := Promu.Getenv(env, "GOPATH");
    [["docker"] + CreateArgs(ctr, pg.image, repoPath, pg.platforms, local, gopath, cwd)]
    + (Sources(local, files, cwd, ctr, Excludes) + (PkgCopy(local, ctr, gopath) + ContainerRun(ctr, cwd, !local)))
  }

  /** A local daemon's build never copies anything in or out: create, start, remove. */
  lemma LocalPlan(pg: FamilyGroup, repoPath: string, env: map<string, string>, cwd: string, unixNow: int, files: seq<FileInfo>)
    requires Promu.Getenv(env, "DOCKER_HOST") == ""
    ensures |BuildPlan(pg, repoPath, env, cwd, unixNow, files)| == 3
    ensures BuildPlan(pg, repoPath, env, cwd, unixNow, files)[1] == ["docker", "start", "-a", ContainerName(pg.name, unixNow)]
  {
  }

  /**
   * platformGroup.Build of the docker variant: a group without platforms
   * runs nothing; otherwise its docker commands run in order, stopping at
   * the first failure.
   */
  method BuildFamilyGroup(pg: FamilyGroup, repoPath: string, env: map<string, string>, cwd: Result<string>,
                          unixNow: int, files: Result<seq<FileInfo>>,
                          verbose: bool, fails: seq<string> -> bool, cause: seq<string> -> string)
    returns (ran: seq<seq<string>>, out: Outcome)
    ensures |pg.platforms| == 0 ==> ran == [] && out == Pass
    ensures |pg.platforms| > 0 && cwd.Err? ==> ran == [] && out == Fail("couldn't get current working directory: " + cwd.msg)
    ensures |pg.platforms| > 0 && cwd.Ok? && files.Err? && !fails(BuildPlan(pg, repoPath, env, cwd.value, unixNow, [])[0]) ==>
              out == Fail(files.msg)
    ensures |pg.platforms| > 0 && cwd.Ok? && out.Fail? && (files.Ok? || fails(BuildPlan(pg, repoPath, env, cwd.value, unixNow, [])[0])) ==>
              LastFailed(ran, verbose, cause, out.msg)
    ensures |pg.platforms| > 0 && cwd.Ok? && files.Err? ==>
              ran == RunSeq(BuildPlan(pg, repoPath, env, cwd.value, unixNow, [])[..1], fails) && out.Fail?
    ensures |pg.platforms| > 0 && cwd.Ok? && files.Ok? ==>
              ran == RunSeq(BuildPlan(pg, repoPath, env, cwd.value, unixNow, files.value), fails) &&
              (out.Pass? <==> AllSucceed(ran, fails))
  {
    if |pg.platforms| == 0 {
      return [], Pass;
    }
    if cwd.Err? {
      return [], Fail("couldn't get current working directory: " + cwd.msg);
    }
    var dir := cwd.value;
    var ctr := ContainerName(pg.name, unixNow);
    var local := Promu.Getenv(env, "DOCKER_HOST") == "";
    var gopath := Promu.Getenv(env, "GOPATH");
    var create := ["docker"] + CreateArgs(ctr, pg.image, repoPath, pg.platforms, local, gopath, dir);
    assert BuildPlan(pg, repoPath, env, dir, unixNow, [])[..1] == [create];
    ran, out := CreateAndRun(create, local, files, dir, ctr, gopath, Excludes, !local, verbose, fails, cause);
  }

  /** The names of the groups, for error reporting. */
  function Names(groups: seq<FamilyGroup>): (r: seq<string>)
    ensures |r| == |groups|
    ensures forall i :: 0 <= i < |groups| ==> r[i] == groups[i].name
  {
    seq(|groups|, i requires 0 <= i < |groups| => groups[i].name)
  }

  /** What runCrossbuildDocker decides before any container runs. */
  datatype DockerPlan =
    | Tarballs
    | Containers(groups: seq<FamilyGroup>, pulls: seq<string>, limit: int)

  /**
   * runCrossbuildDocker up to launching the builds: as runCrossbuild, but
   * with one group per image family; a failed pull and a negative limit
   * end the command in the same way, after the same `warning`.
   */
  method RunCrossbuildDocker(repoPath: string, tarballsArg: string, platforms: seq<string>, cgo: bool, goVersion: string,
                             env: map<string, string>, numCPU: int, pullErr: string -> Option<string>)
    returns (r: Result<DockerPlan>, warning: Option<string>)
    ensures TrimSpace(repoPath) == "" || tarballsArg == "tarballs" ==> warning == None
    ensures TrimSpace(repoPath) != "" && tarballsArg != "tarballs" ==> warning == UnknownWarning(Classified(platforms).unknown)
    ensures TrimSpace(repoPath) == "" ==> r == Err("missing required 'repository.path' configuration")
    ensures TrimSpace(repoPath) != "" && tarballsArg == "tarballs" ==> r == Ok(DockerPlan.Tarballs)
    ensures TrimSpace(repoPath) != "" && tarballsArg != "tarballs" ==>
              var pullFailure := FirstPullError(PlannedPulls(Classified(platforms), cgo, goVersion), pullErr);
              var limit := ConcurrencyLimit(env, numCPU);
              (pullFailure.Some? ==> r == Err(pullFailure.value)) &&
              (pullFailure.None? && limit < 1 ==> r == Err(MakeChanPanic)) &&
              (pullFailure.None? && limit >= 1 ==>
                 r.Ok? && r.value.Containers? &&
                 r.value.groups == PlannedFamilyGroups(Classified(platforms), cgo, goVersion) &&
                 Flatten(r.value.groups) == AllPlatforms(Classified(platforms)) &&
                 r.value.pulls == PlannedPulls(Classified(platforms), cgo, goVersion) &&
                 r.value.limit == limit)
  {
    if |TrimSpace(repoPath)| == 0 {
      return Err("missing required 'repository.path' configuration"), None;
    }
    if tarballsArg == "tarballs" {
      return Ok(DockerPlan.Tarballs), None;
    }
    var b := Classify(platforms);
    warning := UnknownWarning(b.unknown);
    var groups, pulls := PlanFamilyGroups(b, cgo, goVersion);
    FamilyGroupsCover(b, goVersion);
    var pullFailure := PullImages(pulls, pullErr);
    if pullFailure.Some? {
      return Err(pullFailure.value), warning;
    }
    var limit := ConcurrencyLimit(env, numCPU);
    if limit < 1 {
      return Err(MakeChanPanic), warning;
    }
    return Ok(DockerPlan.Containers(groups, pulls, limit)), warning;
  }
}
