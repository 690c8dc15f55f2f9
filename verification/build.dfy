/**
 * The local build command (cmd/build.go): choosing the binaries to build,
 * naming their output, composing the `go build` argument list and the
 * linker flags, and collecting the errors of the individual builds.
 */
module BuildCmd {
  import opened Wrappers
  import opened Strs
  import Paths
  import Sh
  import Promu
  import Crossbuild

  /** A binary of the configuration: its name and its package path inside the repository. */
  datatype Binary = Binary(name: string, path: string)

  /** The first configured binary with the given name, if any. */
  function FirstNamed(name: string, cfg: seq<Binary>): (r: Option<Binary>)
    ensures r.None? <==> forall k :: 0 <= k < |cfg| ==> cfg[k].name != name
    ensures r.Some? ==> exists k :: 0 <= k < |cfg| && cfg[k] == r.value && r.value.name == name &&
                                   forall l :: 0 <= l < k ==> cfg[l].name != name
    decreases |cfg|
  {
    if cfg == [] then None
    else if cfg[0].name == name then Some(cfg[0])
    else
      var r := FirstNamed(name, cfg[1..]);
      assert r.Some? ==> exists k :: 1 <= k < |cfg| && cfg[k] == r.value && r.value.name == name &&
                                     forall l :: 0 <= l < k ==> cfg[l].name != name
      by {
        if r.Some? {
          var k :| 0 <= k < |cfg| - 1 && cfg[1..][k] == r.value && r.value.name == name &&
                   forall l :: 0 <= l < k ==> cfg[1..][l].name != name;
          assert cfg[k + 1] == r.value;
          assert forall l :: 0 <= l < k + 1 ==> cfg[l].name != name by {
            forall l | 0 <= l < k + 1 ensures cfg[l].name != name {
              if l > 0 {
                assert cfg[l] == cfg[1..][l - 1];
              }
            }
          }
        }
      }
      r
  }

  /** Every requested name names a configured binary. */
  predicate AllKnown(names: seq<string>, cfg: seq<Binary>) {
    forall i :: 0 <= i < |names| ==> FirstNamed(names[i], cfg).Some?
  }

  /** The first requested name that no configured binary has. */
  function FirstUnknown(names: seq<string>, cfg: seq<Binary>): (n: string)
    requires !AllKnown(names, cfg)
    ensures n in names && FirstNamed(n, cfg).None?
    decreases |names|
  {
    if FirstNamed(names[0], cfg).None? then names[0]
    else
      assert !AllKnown(names[1..], cfg) by {
        var i :| 0 <= i < |names| && FirstNamed(names[i], cfg).None?;
        assert names[1..][i - 1] == names[i];
      }
      FirstUnknown(names[1..], cfg)
  }

  lemma {:induction false} FirstUnknownAt(names: seq<string>, cfg: seq<Binary>, i: nat)
    requires i < |names| && AllKnown(names[..i], cfg) && FirstNamed(names[i], cfg).None?
    ensures !AllKnown(names, cfg) && FirstUnknown(names, cfg) == names[i]
    decreases i
  {
    if i > 0 {
      assert names[..i][0] == names[0];
      assert names[1..][..i - 1] == names[..i][1..];
      var m := names[1..][..i - 1];
      assert AllKnown(m, cfg) by {
        forall j | 0 <= j < |m| ensures FirstNamed(m[j], cfg).Some? {
          assert m[j] == names[..i][j + 1];
        }
      }
      FirstUnknownAt(names[1..], cfg, i - 1);
    }
  }

  /**
   * validateBinaryNames: for every requested name, in request order, the
   * first configured binary of that name; an unknown name fails the whole
   * call with no partial result.
   */
  method ValidateBinaryNames(names: seq<string>, cfg: seq<Binary>) returns (r: Result<seq<Binary>>)
    ensures r.Ok? <==> AllKnown(names, cfg)
    ensures r.Ok? ==> |r.value| == |names| &&
                      forall i :: 0 <= i < |names| ==> Some(r.value[i]) == FirstNamed(names[i], cfg)
    ensures r.Err? ==> r.msg == "binary " + FirstUnknown(names, cfg) + " not found in config"
  {
    var binaries: seq<Binary> := [];
    label outer: for i := 0 to |names|
      invariant |binaries| == i
      invariant AllKnown(names[..i], cfg)
      invariant forall k :: 0 <= k < i ==> Some(binaries[k]) == FirstNamed(names[k], cfg)
    {
      for j := 0 to |cfg|
        invariant forall l :: 0 <= l < j ==> cfg[l].name != names[i]
      {
        if names[i] == cfg[j].name {
          assert FirstNamed(names[i], cfg) == Some(cfg[j]);
          binaries := binaries + [cfg[j]];
          assert AllKnown(names[..i + 1], cfg) by {
            assert forall k :: 0 <= k < i ==> names[..i + 1][k] == names[..i][k];
          }
          continue outer;
        }
      }
      FirstUnknownAt(names, cfg, i);
      return Err("binary " + names[i] + " not found in config");
    }
    assert names[..|names|] == names;
    return Ok(binaries);
  }

  /** The error runBuild reports for the first name in `arg` that no configured binary has. */
  function UnknownBinaryError(arg: string, cfg: seq<Binary>): string
    requires !AllKnown(Split(arg, ','), cfg)
  {
    "validation of given binary names for build command failed: binary "
      + FirstUnknown(Split(arg, ','), cfg) + " not found in config"
  }

  /**
   * The binary selection of runBuild: "all" is every configured binary,
   * anything else a comma-separated list of names to validate.
   */
  method SelectBinaries(arg: string, cfg: seq<Binary>) returns (r: Result<seq<Binary>>)
    ensures arg == "all" ==> r == Ok(cfg)
    ensures arg != "all" ==> (r.Ok? <==> AllKnown(Split(arg, ','), cfg))
    ensures arg != "all" && r.Ok? ==>
              |r.value| == |Split(arg, ',')| &&
              forall i :: 0 <= i < |r.value| ==> Some(r.value[i]) == FirstNamed(Split(arg, ',')[i], cfg)
    ensures r.Err? ==> r.msg == UnknownBinaryError(arg, cfg)
  {
    if arg == "all" {
      return Ok(cfg);
    }
    var names := Split(arg, ',');
    r := ValidateBinaryNames(names, cfg);
    if r.Err? {
      r := Err("validation of given binary names for build command failed: " + r.msg);
    }
  }

  /** The file extension of executables for the target system. */
  function Ext(goos: string): (r: string)
    ensures r == ".exe" <==> goos == "windows"
    ensures r != ".exe" ==> r == ""
  {
    if goos == "windows" then ".exe" else ""
  }

  /**
   * The arguments of `go build` for one binary: output path, linker flags,
   * the configured flags split as a shell would, and the package path.
   */
  function BuildParams(prefix: string, binary: Binary, ext: string, ldflags: string, flags: string,
                       repoPath: string): (r: seq<string>)
    ensures |r| == 6 + |Sh.SplitParameters(flags)|
    ensures r[..5] == ["build", "-o", Paths.Join2(prefix, binary.name + ext), "-ldflags", ldflags]
    ensures r[5..|r| - 1] == Sh.SplitParameters(flags)
    ensures r[|r| - 1] == Paths.Join2(repoPath, binary.path)
  {
    ["build", "-o", Paths.Join2(prefix, binary.name + ext), "-ldflags", ldflags]
    + Sh.SplitParameters(flags)
    + [Paths.Join2(repoPath, binary.path)]
  }

  /** Flags written as space-separated plain words reach `go build` word for word, between the linker flags and the package. */
  lemma BuildParamsWords(prefix: string, binary: Binary, ext: string, ldflags: string, ws: seq<string>,
                         repoPath: string)
    requires forall w :: w in ws ==> Sh.Word(w)
    ensures |BuildParams(prefix, binary, ext, ldflags, Join(ws, " "), repoPath)| == 6 + |ws| &&
            BuildParams(prefix, binary, ext, ldflags, Join(ws, " "), repoPath)[5..5 + |ws|] == ws
  {
    Sh.SplitParametersJoin(ws);
  }

  /** The environment additions of one build: the target system and architecture. */
  function TargetEnv(goos: string, goarch: string): seq<string> {
    ["GOOS=" + goos, "GOARCH=" + goarch]
  }

  /**
   * The error of a failed `go build`: the parameter list, then the command
   * runner's own message, which ends in the process's error.
   */
  function BuildFailure(verbose: bool, env: seq<string>, params: seq<string>, cause: (seq<string>, seq<string>) -> string): string {
    "command failed: " + Join(params, " ") + ": "
    + ("command failed: " + Sh.CommandWithEnvText(verbose, "go", "", env, params) + ": " + cause(env, ["go"] + params))
  }

  /**
   * buildBinary: runs `go build` with the target in the environment; a
   * failure is reported with the full parameter list in front of the
   * command runner's own message.
   */
  method BuildBinary(verbose: bool, goos: string, goarch: string, ext: string, prefix: string, ldflags: string,
                     binary: Binary, repoPath: string, flags: string, fails: (seq<string>, seq<string>) -> bool,
                     cause: (seq<string>, seq<string>) -> string)
    returns (err: Option<string>)
    ensures var params := BuildParams(prefix, binary, ext, ldflags, flags, repoPath);
            (err.Some? <==> fails(TargetEnv(goos, goarch), ["go"] + params)) &&
            (err.Some? ==> err.value == BuildFailure(verbose, TargetEnv(goos, goarch), params, cause))
  {
    var params := BuildParams(prefix, binary, ext, ldflags, flags, repoPath);
    var env := TargetEnv(goos, goarch);
    err := Sh.RunCommandWithEnv(verbose, "go", "", env, params, fails, cause);
    if err.Some? {
      err := Some("command failed: " + Join(params, " ") + ": " + err.value);
    }
  }

  /** What rendering the ldflags template produced: its text, or the error of one of its two stages. */
  datatype Rendering = Rendered(output: string) | ParseFailed(msg: string) | ExecFailed(msg: string)

  /**
   * The external linker flags: "-static" is added when static linking is
   * asked for, the host system is neither darwin nor solaris, and it is not
   * already there.
   */
  function StaticExtFlags(extFlags: seq<string>, isStatic: bool, hostGoos: string): (r: seq<string>)
    ensures r == extFlags || r == extFlags + ["-static"]
    ensures r != extFlags <==> isStatic && hostGoos != "darwin" && hostGoos != "solaris" && "-static" !in extFlags
    ensures multiset(extFlags)["-static"] <= 1 ==> multiset(r)["-static"] <= 1
  {
    if isStatic && hostGoos != "darwin" && hostGoos != "solaris" && !("-static" in extFlags) then
      extFlags + ["-static"]
    else extFlags
  }

  /** The linker flags before the external ones: the template's lines, or the version stamp when there is no template. */
  function LdflagsHead(tmpl: string, rendering: Rendering, version: string): (r: Result<seq<string>>)
    ensures r.Err? <==> |TrimSpace(tmpl)| > 0 && !rendering.Rendered?
    ensures r.Ok? ==> |r.value| >= 1
  {
    if |TrimSpace(tmpl)| > 0 then
      match rendering
      case Rendered(out) => Ok(Split(out, '\n'))
      case ParseFailed(m) => Err("Failed to parse ldflags text/template: " + m)
      case ExecFailed(m) => Err("Failed to execute ldflags text/template: " + m)
    else Ok(["-X main.Version=" + version])
  }

  /** The `-extldflags` argument quoting the external flags. */
  function ExtArgText(ext: seq<string>): string {
    "-extldflags '" + Join(ext, " ") + "'"
  }

  /** The `-extldflags` argument, present only when there are external flags. */
  function ExtLdflagsArg(ext: seq<string>): seq<string> {
    if |ext| > 0 then [ExtArgText(ext)] else []
  }

  /**
   * getLdflags: the template lines or version stamp, then the external
   * flags, all joined by single spaces. `hostGoos` is the package-level
   * target system, which the static rule consults.
   */
  function Ldflags(tmpl: string, rendering: Rendering, version: string, extFlags: seq<string>, isStatic: bool,
                   hostGoos: string): (r: Result<string>)
    ensures r.Err? <==> |TrimSpace(tmpl)| > 0 && !rendering.Rendered?
  {
    var head := LdflagsHead(tmpl, rendering, version);
    if head.Err? then Err(head.msg)
    else Ok(Join(head.value + ExtLdflagsArg(StaticExtFlags(extFlags, isStatic, hostGoos)), " "))
  }

  lemma JoinFirst(v: string, more: seq<string>)
    requires |more| <= 1
    ensures HasPrefix(Join([v] + more, " "), v)
    ensures more == [] ==> Join([v] + more, " ") == v
  {
    if more != [] {
      assert ([v] + more)[1..] == more;
      assert Join([v] + more, " ") == v + " " + more[0];
      assert (v + " " + more[0])[..|v|] == v;
    } else {
      assert [v] + more == [v];
    }
  }

  lemma JoinAppendOne(head: seq<string>, arg: string, sep: string)
    requires |head| >= 1
    ensures Join(head + [arg], sep) == Join(head, sep) + (sep + arg)
  {
    var parts := head + [arg];
    assert parts[..|parts| - 1] == head && parts[|parts| - 1] == arg;
    Paths.JoinSnoc(parts, sep);
  }

  lemma JoinLast(head: seq<string>, arg: string)
    requires |head| >= 1
    ensures HasSuffix(Join(head + [arg], " "), " " + arg)
  {
    JoinAppendOne(head, arg, " ");
    SuffixOfAppend(Join(head, " "), " " + arg);
  }

  /** Without a template the flags are the version stamp, followed by the external flags if there are any. */
  lemma LdflagsDefault(tmpl: string, rendering: Rendering, version: string, extFlags: seq<string>, isStatic: bool,
                       hostGoos: string)
    requires TrimSpace(tmpl) == ""
    ensures var r := Ldflags(tmpl, rendering, version, extFlags, isStatic, hostGoos);
            r.Ok? && HasPrefix(r.value, "-X main.Version=" + version) &&
            (StaticExtFlags(extFlags, isStatic, hostGoos) == [] ==> r.value == "-X main.Version=" + version)
  {
    var v := "-X main.Version=" + version;
    var ext := ExtLdflagsArg(StaticExtFlags(extFlags, isStatic, hostGoos));
    assert LdflagsHead(tmpl, rendering, version) == Ok([v]);
    JoinFirst(v, ext);
  }

  /** A rendered template contributes its text with every newline turned into a space. */
  lemma LdflagsTemplateLines(tmpl: string, out: string, version: string, extFlags: seq<string>, isStatic: bool,
                             hostGoos: string)
    requires |TrimSpace(tmpl)| > 0 && StaticExtFlags(extFlags, isStatic, hostGoos) == []
    ensures Ldflags(tmpl, Rendered(out), version, extFlags, isStatic, hostGoos) == Ok(ReplaceChar(out, '\n', " "))
  {
    assert Split(out, '\n') + [] == Split(out, '\n');
    JoinSplitReplace(out, '\n', " ");
  }

  /** When there are external flags, the linker flags end with one `-extldflags` argument quoting all of them. */
  lemma LdflagsExtSuffix(tmpl: string, rendering: Rendering, version: string, extFlags: seq<string>, isStatic: bool,
                         hostGoos: string)
    requires Ldflags(tmpl, rendering, version, extFlags, isStatic, hostGoos).Ok?
    requires StaticExtFlags(extFlags, isStatic, hostGoos) != []
    ensures HasSuffix(Ldflags(tmpl, rendering, version, extFlags, isStatic, hostGoos).value,
                      " " + ExtArgText(StaticExtFlags(extFlags, isStatic, hostGoos)))
  {
    var head := LdflagsHead(tmpl, rendering, version).value;
    var arg := ExtArgText(StaticExtFlags(extFlags, isStatic, hostGoos));
    assert Ldflags(tmpl, rendering, version, extFlags, isStatic, hostGoos).value == Join(head + [arg], " ");
    JoinLast(head, arg);
  }

  /** The configuration of the extldflags example: configured flags come before the added "-static". */
  lemma LdflagsExtExample(tmpl: string, rendering: Rendering, version: string)
    requires TrimSpace(tmpl) == "" || rendering.Rendered?
    ensures var r := Ldflags(tmpl, rendering, version, ["-ltesting", "-ltesting01"], true, "linux");
            r.Ok? && Contains(r.value, "-extldflags '-ltesting -ltesting01 -static'")
  {
    ExtExampleFlags();
    LdflagsExtSuffix(tmpl, rendering, version, ["-ltesting", "-ltesting01"], true, "linux");
    var r := Ldflags(tmpl, rendering, version, ["-ltesting", "-ltesting01"], true, "linux").value;
    SuffixContains(r, " ", "-extldflags '-ltesting -ltesting01 -static'");
  }

  lemma ExtExampleFlags()
    ensures StaticExtFlags(["-ltesting", "-ltesting01"], true, "linux") == ["-ltesting", "-ltesting01", "-static"]
    ensures ExtArgText(["-ltesting", "-ltesting01", "-static"]) == "-extldflags '-ltesting -ltesting01 -static'"
  {
    ExtExampleJoin();
    ExtExampleLiteral();
  }

  lemma ExtExampleLiteral()
    ensures "-extldflags '" + "-ltesting -ltesting01 -static" + "'" == "-extldflags '-ltesting -ltesting01 -static'"
  {
  }

  lemma ExtExampleJoin()
    ensures Join(["-ltesting", "-ltesting01", "-static"], " ") == "-ltesting -ltesting01 -static"
  {
    var parts := ["-ltesting", "-ltesting01", "-static"];
    assert parts[1..][1..] == ["-static"];
    assert Join(parts[1..], " ") == "-ltesting01 -static";
  }

  /** The build section of the configuration, and the repository path. */
  datatype BuildConfig = BuildConfig(repoPath: string, cgo: bool, prefix: string, binaries: seq<Binary>,
                                     flags: string, ldflags: string, extLdflags: seq<string>, isStatic: bool)

  /** The errors of the builds that failed, in build order. */
  function BuildErrors(verbose: bool, goos: string, goarch: string, ext: string, prefix: string, ldflags: string,
                       bins: seq<Binary>, cfg: BuildConfig, fails: (seq<string>, seq<string>) -> bool,
                       cause: (seq<string>, seq<string>) -> string): (errs: seq<string>)
    ensures |errs| <= |bins|
    ensures |errs| == 0 <==>
              forall i :: 0 <= i < |bins| ==>
                !fails(TargetEnv(goos, goarch), ["go"] + BuildParams(prefix, bins[i], ext, ldflags, cfg.flags, cfg.repoPath))
    decreases |bins|
  {
    if bins == [] then []
    else
      var n := |bins| - 1;
      var params := BuildParams(prefix, bins[n], ext, ldflags, cfg.flags, cfg.repoPath);
      var e := if fails(TargetEnv(goos, goarch), ["go"] + params) then
                 [BuildFailure(verbose, TargetEnv(goos, goarch), params, cause)]
               else [];
      var env := TargetEnv(goos, goarch);
      assert forall i :: 0 <= i < n ==> bins[..n][i] == bins[i];
      assert (forall i :: 0 <= i < |bins| ==> !fails(env, ["go"] + BuildParams(prefix, bins[i], ext, ldflags, cfg.flags, cfg.repoPath)))
         <==> (forall i :: 0 <= i < n ==> !fails(env, ["go"] + BuildParams(prefix, bins[i], ext, ldflags, cfg.flags, cfg.repoPath)))
              && !fails(env, ["go"] + params);
      BuildErrors(verbose, goos, goarch, ext, prefix, ldflags, bins[..n], cfg, fails, cause) + e
  }

  /** The build loop of runBuild, one binary after another: the errors of the failed builds, in order. */
  method BuildAll(verbose: bool, goos: string, goarch: string, ext: string, prefix: string, ldflags: string,
                  bins: seq<Binary>, cfg: BuildConfig, fails: (seq<string>, seq<string>) -> bool,
                  cause: (seq<string>, seq<string>) -> string)
    returns (errs: seq<string>)
    ensures errs == BuildErrors(verbose, goos, goarch, ext, prefix, ldflags, bins, cfg, fails, cause)
  {
    errs := [];
    for i := 0 to |bins|
      invariant errs == BuildErrors(verbose, goos, goarch, ext, prefix, ldflags, bins[..i], cfg, fails, cause)
    {
      var err := BuildBinary(verbose, goos, goarch, ext, prefix, ldflags, bins[i], cfg.repoPath, cfg.flags, fails, cause);
      BuildErrorsSnoc(verbose, goos, goarch, ext, prefix, ldflags, bins, i, cfg, fails, cause);
      if err.Some? {
        errs := errs + [err.value];
      }
    }
    assert bins[..|bins|] == bins;
  }

  lemma BuildErrorsSnoc(verbose: bool, goos: string, goarch: string, ext: string, prefix: string, ldflags: string,
                        bins: seq<Binary>, i: nat, cfg: BuildConfig, fails: (seq<string>, seq<string>) -> bool,
                        cause: (seq<string>, seq<string>) -> string)
    requires i < |bins|
    ensures var params := BuildParams(prefix, bins[i], ext, ldflags, cfg.flags, cfg.repoPath);
            BuildErrors(verbose, goos, goarch, ext, prefix, ldflags, bins[..i + 1], cfg, fails, cause)
            == BuildErrors(verbose, goos, goarch, ext, prefix, ldflags, bins[..i], cfg, fails, cause)
               + (if fails(TargetEnv(goos, goarch), ["go"] + params) then [BuildFailure(verbose, TargetEnv(goos, goarch), params, cause)] else [])
  {
    assert bins[..i + 1][..i] == bins[..i];
  }

  /** What runBuild settles on and what its builds reported. */
  datatype BuildReport = BuildReport(cgoEnabled: string, limit: int, built: seq<Binary>, errs: seq<string>)

  /**
   * runBuild: check the repository path, apply the flag overrides, work out
   * the extension and linker flags, select the binaries, then build each of
   * them; any failed build makes the command fail after its error is
   * reported.
   */
  method RunBuild(cfg: BuildConfig, cgoFlag: Option<bool>, prefixFlag: Option<string>, goos: string, goarch: string,
                  hostGoos: string, binariesArg: string, version: string, rendering: Rendering,
                  env: map<string, string>, numCPU: int, verbose: bool, fails: (seq<string>, seq<string>) -> bool,
                  cause: (seq<string>, seq<string>) -> string)
    returns (report: Option<BuildReport>, r: Outcome)
    ensures TrimSpace(cfg.repoPath) == "" ==> report == None && r == Fail("missing required 'repository.path' configuration")
    ensures TrimSpace(cfg.repoPath) != "" && |TrimSpace(cfg.ldflags)| > 0 && !rendering.Rendered? ==>
              report == None &&
              r == Fail(if rendering.ParseFailed? then "Failed to parse ldflags text/template: " + rendering.msg
                        else "Failed to execute ldflags text/template: " + rendering.msg)
    ensures TrimSpace(cfg.repoPath) != "" && (|TrimSpace(cfg.ldflags)| == 0 || rendering.Rendered?) &&
            binariesArg != "all" && !AllKnown(Split(binariesArg, ','), cfg.binaries) ==>
              report == None && r == Fail(UnknownBinaryError(binariesArg, cfg.binaries))
    ensures report.Some? ==>
              var cgo := if cgoFlag.Some? then cgoFlag.value else cfg.cgo;
              var prefix := if prefixFlag.Some? then prefixFlag.value else cfg.prefix;
              var ld := Ldflags(cfg.ldflags, rendering, version, cfg.extLdflags, cfg.isStatic, hostGoos);
              ld.Ok? &&
              report.value.cgoEnabled == (if cgo then "1" else "0") &&
              report.value.limit == Crossbuild.ConcurrencyLimit(env, numCPU) && report.value.limit >= 1 &&
              report.value.errs == BuildErrors(verbose, goos, goarch, Ext(goos), prefix, ld.value,
                                               report.value.built, cfg, fails, cause) &&
              (r == Pass <==> report.value.errs == []) &&
              (r.Fail? ==> r.msg == "Crossbuild failed")
    ensures report.Some? && binariesArg == "all" ==> report.value.built == cfg.binaries
    ensures report.Some? && binariesArg != "all" ==>
              AllKnown(Split(binariesArg, ','), cfg.binaries) && |report.value.built| == |Split(binariesArg, ',')| &&
              forall i :: 0 <= i < |report.value.built| ==>
                Some(report.value.built[i]) == FirstNamed(Split(binariesArg, ',')[i], cfg.binaries)
    ensures (TrimSpace(cfg.repoPath) != "" && Ldflags(cfg.ldflags, rendering, version, cfg.extLdflags, cfg.isStatic, hostGoos).Ok? &&
             (binariesArg == "all" || AllKnown(Split(binariesArg, ','), cfg.binaries))) ==>
              (report.Some? <==> Crossbuild.ConcurrencyLimit(env, numCPU) >= 1) &&
              (report.None? ==> r == Fail(Crossbuild.MakeChanPanic))
  {
    if TrimSpace(cfg.repoPath) == "" {
      return None, Fail("missing required 'repository.path' configuration");
    }
    var cgo := if cgoFlag.Some? then cgoFlag.value else cfg.cgo;
    var prefix := if prefixFlag.Some? then prefixFlag.value else cfg.prefix;
    var ld := Ldflags(cfg.ldflags, rendering, version, cfg.extLdflags, cfg.isStatic, hostGoos);
    if ld.Err? {
      return None, Fail(ld.msg);
    }
    var cgoEnabled := if cgo then "1" else "0";
    report, r := BuildSelected(cfg, cgoEnabled, prefix, goos, goarch, binariesArg, ld.value, env, numCPU, verbose, fails, cause);
  }

  /**
   * The second half of runBuild, once the flags are settled: the binaries
   * are selected, a negative CROSSBUILDN makes the semaphore's creation
   * panic, and otherwise each binary is built; the run fails when some
   * build did.
   */
  method BuildSelected(cfg: BuildConfig, cgoEnabled: string, prefix: string, goos: string, goarch: string,
                       binariesArg: string, ldflags: string, env: map<string, string>, numCPU: int, verbose: bool,
                       fails: (seq<string>, seq<string>) -> bool, cause: (seq<string>, seq<string>) -> string)
    returns (report: Option<BuildReport>, r: Outcome)
    ensures report.None? ==> r.Fail?
    ensures report.Some? ==>
              report.value.cgoEnabled == cgoEnabled &&
              report.value.limit == Crossbuild.ConcurrencyLimit(env, numCPU) && report.value.limit >= 1 &&
              report.value.errs == BuildErrors(verbose, goos, goarch, Ext(goos), prefix, ldflags,
                                               report.value.built, cfg, fails, cause) &&
              (r == Pass <==> report.value.errs == []) &&
              (r.Fail? ==> r.msg == "Crossbuild failed")
    ensures report.Some? && binariesArg == "all" ==> report.value.built == cfg.binaries
    ensures report.Some? && binariesArg != "all" ==>
              |report.value.built| == |Split(binariesArg, ',')| &&
              forall i :: 0 <= i < |report.value.built| ==>
                Some(report.value.built[i]) == FirstNamed(Split(binariesArg, ',')[i], cfg.binaries)
    ensures var selected := binariesArg == "all" || AllKnown(Split(binariesArg, ','), cfg.binaries);
            (report.Some? <==> selected && Crossbuild.ConcurrencyLimit(env, numCPU) >= 1) &&
            (selected && Crossbuild.ConcurrencyLimit(env, numCPU) < 1 ==> r == Fail(Crossbuild.MakeChanPanic))
    ensures binariesArg != "all" && !AllKnown(Split(binariesArg, ','), cfg.binaries) ==>
              r == Fail(UnknownBinaryError(binariesArg, cfg.binaries))
  {
    var bins := SelectBinaries(binariesArg, cfg.binaries);
    if bins.Err? {
      return None, Fail(bins.msg);
    }
    var limit := Crossbuild.ConcurrencyLimit(env, numCPU);
    if limit < 1 {
      return None, Fail(Crossbuild.MakeChanPanic);
    }
    var errs := BuildAll(verbose, goos, goarch, Ext(goos), prefix, ldflags, bins.value, cfg, fails, cause);
    report := Some(BuildReport(cgoEnabled, limit, bins.value, errs));
    r := if |errs| > 0 then Fail("Crossbuild failed") else Pass;
  }
}
