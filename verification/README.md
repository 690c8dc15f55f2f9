# promu in Dafny

promu is the Prometheus project's build and release tool for Go
repositories. It drives `go build`, `docker`, `git`, `tar` and the GitHub
API. This project models the deterministic logic at its centre and proves
what that logic promises:

- planning a cross build: sorting requested platforms into builder-image
  families, one container per platform (`crossbuild`) or one per family
  (the docker variant), the container argument lists, the concurrency
  limit and the docker command sequence of one container;
- planning a local build: selecting and validating binaries, output names,
  the `go build` argument order and the linker flags;
- configuration defaults and the small lookup helpers of the command line;
- the changelog model: change kinds, their order, the `Sorted` check, the
  line scanner that reads one version's entry, and the draft that
  `bump` writes from merged pull requests, with the version bump itself;
- the shell parameter splitter and the display quoter;
- the license-header check and the changelog check;
- repository location normalisation and version discovery (both the
  cobra-era `cmd/info.go` and `pkg/repository/info.go`);
- artifact naming and packaging steps: the archive name, binary
  extensions, the tar and zip steps, zip entry names, and the `.build`
  directory-name parsing of the cross-build tarballs.

Each core source file has its own module. Shared lexical helpers stand in
for the Go standard library: `Strs` for `strings`, `Paths` for the lexical
`path`/`filepath` functions, `Strconv` for `Atoi`/`FormatInt`, and
`Wrappers` for `Option`/`Result`. `Platforms` holds the fixed platform
tables. `Semver` models the few semantic-version operations that are used.

Effects are inputs. This covers the environment (a map), the CPU count,
directory listings and walks (sequences in the order Go visits them), file
contents and `os.Stat` results, and command outcomes (a predicate saying
which command lines fail, and the cause the runner's error wraps). It also
covers the outcome of each `docker pull`, the clock (a Unix second or a
date string), the rendered ldflags template, the GitHub answers, and the
semver library's verdict on a non-empty pre-release string. A `fatal` exit, which
prints `!! <error>` and ends the process, is modelled as an error result
(`Err`, `Fail` or `Some(message)`). Where the source mutates slices, maps or
a store, the model uses methods with loops or a class. Each such method is
proved equal to a specification function, and the properties are proved
about that function.

## Model

| member | source | states |
|---|---|---|
| Promu.StringInSlice | cmd/promu.go:205-212 | the search loop returns true exactly when the needle is an element of the haystack |
| Promu.StringInMapKeys | cmd/promu.go:214-217 | true exactly when the key is present in the map |
| Promu.OptArg | cmd/promu.go:190-195 | `args[i]` when `i` is inside the argument list, the default otherwise |
| Promu.EnvOr | cmd/promu.go:197-203 | the default exactly when the variable is unset or empty; otherwise the variable's (non-empty) value |
| Promu.ReadFile | cmd/promu.go:182-188 | an unreadable file reads as ""; otherwise the content with `\n`, `\r` and space removed from both ends: the result starts and ends with no such character and only such characters were removed |
| Promu.ShellOutput | cmd/promu.go:160-164 | command output trimmed of space, `\n` and `\r` at both ends, in the same sense |
| Promu.TrimIsTrimmed | cmd/promu.go:182-188 | trimming a cut set removes only cut characters from each end and leaves a middle untouched |
| Promu.ReadFileIdempotent | cmd/promu.go:182-188 | reading back an already trimmed text gives it unchanged |
| Promu.SetIfUnsetSpec | cmd/promu.go:111-113 | one `IsSet`/`Set` pair: the key ends up set, an existing value is kept, a missing one gets the default, every other key is untouched |
| Promu.ApplyDefaultsSpec | cmd/promu.go:106-133 | after the defaults pass every key that was set keeps its value, the keys are the old keys plus the defaulted ones, and each unset defaulted key holds its default |
| Promu.DefaultEntriesDistinct | cmd/promu.go:106-133 | the seven defaulted keys are distinct, so the pass writes each default at most once |
| Promu.ConfigStore.IsSet | cmd/promu.go:107 | true exactly when the store holds the key |
| Promu.ConfigStore.Set | cmd/promu.go:109 | the store afterwards is the old store with the key bound to the value |
| Promu.ConfigStore.SetDefault | cmd/promu.go:111-113 | the store afterwards is `SetIfUnset` of the old store |
| Promu.ConfigStore.SetDefaultConfigValues | cmd/promu.go:106-133 | the store afterwards is the old store with the defaults applied: binaries `[{name, "."}]`, prefixes ".", platforms main, ARM, PowerPC, MIPS (no s390x), Go 1.8.3, cgo off, repository path = the project's repository |
| Sh.SplitParameters | util/sh/sh.go:78-81 | every parameter is non-empty and does not start with a space, and a parameter holds a space only when it is a single-quoted run with no inner quote |
| Sh.NonSpaceRun | util/sh/sh.go:79 | the unquoted alternative of the pattern: the longest run without a space at the front of the text |
| Sh.TokenLength | util/sh/sh.go:79 | the leftmost-first match at a non-space position is non-empty, and it holds a space only when it is a single-quoted run |
| Sh.SplitParametersBlank | util/sh/sh.go:78-81 | empty or all-space input yields no parameters |
| Sh.SplitParametersJoin | util/sh/sh.go:78-81 | splitting plain words joined by single spaces gives the words back, in order |
| Sh.SplitParametersExample | util/sh/sh_test.go:21-30 | `-a -tags 'netgo static_build'` splits into `-a`, `-tags`, `'netgo static_build'` |
| Sh.Quote | util/sh/sh.go:88-92 | a parameter is unchanged exactly when it has no space or starts with `'` or `"`; otherwise it is wrapped in double quotes |
| Sh.QuoteUnescape | util/sh/sh.go:88-92 | between the added quotes each `"` of the parameter became `\\"` and nothing else changed: turning every `\\"` back into `"` gives the parameter |
| Sh.QuoteParams | util/sh/sh.go:84-96 | the result has the input's length and each element is the quoted form of the element at the same index |
| Sh.RunCommand | util/sh/sh.go:31-47 | the command fails exactly when the command line fails, and its error is "command failed: ", the verbose command text (empty when not verbose), ": " and the cause, as the wrapping renders it |
| Sh.RunCommandWithEnv | util/sh/sh.go:50-75 | the same for a command with an added environment and directory, whose verbose text shows `PWD=`, the environment, the name and the quoted arguments, followed by ": " and the cause; `fails` and `cause` see the environment and the command line but not `dir` |
| ProjectInfo.RepoLocation | cmd/info.go:75-82 | the location never contains `:` |
| ProjectInfo.ScpOriginLocation | cmd/info.go:75-82 | an origin `git@host:path.git` becomes `host/path` |
| ProjectInfo.HttpsOriginLocation | cmd/info.go:75-82 | an origin `https://rest.git` without a port becomes `rest` |
| ProjectInfo.PromuOriginExample | cmd/info.go:76-81 | `git@github.com:prometheus/promu.git` becomes `github.com/prometheus/promu` |
| ProjectInfo.PromuNameOwnerExample | cmd/info.go:56-60 | that location names the project `promu`, owned by `prometheus` |
| ProjectInfo.FileExistsAsWritten | cmd/promu.go:167-179 | as written, the function never reaches `fatal`, and it panics exactly on a Stat error other than "not exist" |
| ProjectInfo.FatalUnreachable | cmd/promu.go:172-177 | no Stat result leads to `fatal`; a Stat error leads to a panic |
| ProjectInfo.FileExists | cmd/promu.go:167-179 | as intended: never panics; true exactly for a regular file; a Stat error is fatal with that error's message |
| ProjectInfo.VersionOrder | cmd/info.go:84-92 | `VERSION` is tried before `version/VERSION`; the first regular file is read and trimmed; with neither, the missing-version error; a Stat error on `VERSION` other than not-exist exits with its message, the intended FileExists reading where the code as written panics (see "## Findings") |
| ProjectInfo.FindVersion | cmd/info.go:84-92 | the loop with early return computes the lookup that VersionOrder describes |
| ProjectInfo.NewProjectInfo | cmd/info.go:50-64 | succeeds exactly when a version is found; the repository is the origin's location (no `:`), the name its last element, the owner the one before, the version the one found; a missing version ends with "Unable to find project's version: …" |
| Repository.ScpHostPath | pkg/repository/info.go:127 | a match has a non-empty, colon-free host before the first `:` and a non-empty path |
| Repository.ScpMatch | pkg/repository/info.go:127 | a match is an optional `user@`, a non-empty colon-free host, `:`, and a non-empty path |
| Repository.Rewrite | pkg/repository/info.go:129-136 | text with a scheme, or not SCP-like, is unchanged; SCP-like text becomes `ssh://[user@]host/path` |
| Repository.Before | pkg/repository/info.go:143 | the text before the first occurrence of the character, or all of it |
| Repository.AuthorityHost | pkg/repository/info.go:138-141 | the host (with port) of an authority is a suffix of it after the last `@` |
| Repository.UrlParse | pkg/repository/info.go:138-141 | a parse failure carries url.Parse's `parse "…"` message |
| Repository.RepoLocation | pkg/repository/info.go:129-146 | fails exactly when the rewritten remote does not parse, with the parser's message |
| Repository.SchemeLocation | pkg/repository/info.go:138-145 | `scheme://[user@]host[:port]path` gives the host without port or user, then the path, with one trailing `.git` removed |
| Repository.LocationOfParsed | pkg/repository/info.go:138-145 | for any remote that parses, the location is the host up to its first `:`, then the path, minus one trailing `.git` |
| Repository.SchemeKept | pkg/repository/info.go:130 | a remote with a scheme is not rewritten |
| Repository.ScpRewrite | pkg/repository/info.go:130-136 | `[user@]host:path` is rewritten to `ssh://[user@]host/path` |
| Repository.ScpLocation | pkg/repository/info.go:129-146 | an SCP-like remote `[user@]host:path` has location `host/path`, minus one trailing `.git` |
| Repository.TrimGitSuffix | pkg/repository/info.go:144 | exactly one trailing `.git` is removed |
| Repository.ScpGitLocation | pkg/repository/info.go:129-146 | `[user@]host:repo.git` has location `host/repo` |
| Repository.SchemeGitLocation | pkg/repository/info.go:129-146 | `scheme://[user@]host[:port]/repo.git` has location `host/repo` |
| Repository.ScpRemoteExample | pkg/repository/info_test.go:58-78 | `git@github.com:prometheus/promu.git` gives `github.com/prometheus/promu` |
| Repository.HttpsRemoteExample | pkg/repository/info_test.go:58-78 | `https://github.com/prometheus/promu.git` gives `github.com/prometheus/promu` |
| Repository.SshPortRemoteExample | pkg/repository/info_test.go:58-78 | `ssh://git@gitlab.fr:22443/prometheus/promu.git` gives `gitlab.fr/prometheus/promu` |
| Repository.HttpsUserRemoteExample | pkg/repository/info_test.go:58-78 | `https://sdurrheimer@gitlab.fr/prometheus/promu.git` gives `gitlab.fr/prometheus/promu` |
| Repository.ToSemver | pkg/repository/info.go:161-170 | succeeds exactly when the version does not start with `v` and parses; a leading `v` gives "version %q shouldn't start with 'v'"; a parse error is wrapped as "invalid semver version: …" |
| Repository.FirstReadable | pkg/repository/info.go:149-155 | none exactly when no candidate can be read; otherwise the content of the first readable candidate |
| Repository.ProjectVersion | pkg/repository/info.go:148-158 | `VERSION`'s trimmed content if readable, else `version/VERSION`'s, else git describe's output trimmed with one leading `v` removed |
| Repository.FindVersion | pkg/repository/info.go:148-158 | the loop over the candidate files computes ProjectVersion |
| Repository.NewInfo | pkg/repository/info.go:54-121 | outside git: the repository is the working directory with the GOPATH and then "/src/" trimmed from its front, branch and revision `non-git`, owner the user, and a missing working directory or user is an error with its own text; inside git: the branch and revision are git's trimmed answers and a failed branch lookup is "unable to get the current branch: …", the run succeeds exactly when the branch remote's URL (origin by default) has a location, which is then the repository; otherwise the error is "couldn't parse repository location: " followed by the quoted URL, ": " and the parse error, name and owner its last two elements, and a warning naming the remote appears exactly when its URL lookup fails; the version is ProjectVersion in both cases |
| Repository.RemoteOf | pkg/repository/info.go:93-97 | when git has no remote configured for the branch, the remote is `origin` |
| Repository.OwnerAndName | pkg/repository/info.go:109-110 | for a location of plain elements the name is the last element and the owner the one before it |
| Semver.VersionString | cmd/bump.go:155 | a version prints as at least `M.m.p` and never starts with `v` |
| Semver.IncMajor | cmd/bump.go:130-131 | major + 1, minor and patch 0, no pre-release or metadata |
| Semver.IncMinor | cmd/bump.go:132-133 | same major, minor + 1, patch 0, no pre-release or metadata |
| Semver.IncPatch | cmd/bump.go:134-135 | a pre-release becomes its own release and any other version gets patch + 1, dropping pre-release and metadata: the result comes after the version in precedence and is the first release with the same major and minor numbers that does |
| Semver.SetPrerelease | cmd/bump.go:137-140 | succeeds exactly when the identifier is empty or valid, setting only the pre-release; otherwise "Invalid Prerelease string" |
| Strconv.AtoiFormatInt | cmd/crossbuild.go:245-247 | every 64-bit integer written in decimal reads back as itself |
| Strconv.AtoiSyntaxError | cmd/crossbuild.go:245-247 | text that does not start with a digit or sign reads as 0, the value Atoi leaves on error |
| Crossbuild.Classify | cmd/crossbuild.go:136-153 | the classification loop computes the bucket function `Classified` |
| Crossbuild.AliasTargetsAreARM | cmd/crossbuild.go:59-64 | every variant an alias stands for is itself a listed ARM platform |
| Crossbuild.ClassifiedSound | cmd/crossbuild.go:136-153 | every bucket holds only platforms of its own family (first match in the order main, ARM, PowerPC, MIPS, s390x, alias, unknown) that were requested, ARM entries possibly through an alias; so no platform lands in two buckets |
| Crossbuild.ClassifiedComplete | cmd/crossbuild.go:136-153 | every requested platform reaches its family's bucket, and an alias brings all its ARM variants |
| Crossbuild.ClassifiedCounts | cmd/crossbuild.go:136-153 | no deduplication: a non-ARM platform appears in its bucket exactly as often as it was requested, and in no other bucket |
| Crossbuild.LinuxArmAlias | cmd/crossbuild.go:59-64 | `linux/arm` expands to `linux/armv5`, `linux/armv6`, `linux/armv7` in the ARM bucket and nothing else |
| Crossbuild.GroupName | cmd/crossbuild.go:171 | a group name is the family prefix and `-`, followed by text without `/` |
| Crossbuild.GroupNameOsArch | cmd/crossbuild.go:171 | the group of `os/arch` is named `<prefix>-<os>-<arch>` |
| Crossbuild.GroupsForSpec | cmd/crossbuild.go:170-173 | one group per platform, in order, each on the given image and named after its platform |
| Crossbuild.AppendGroups | cmd/crossbuild.go:170-173 | the append loop adds exactly GroupsFor's groups |
| Crossbuild.AppendFamily | cmd/crossbuild.go:181-191 | one cgo family block adds its groups and pulls its image only when the family has platforms |
| Crossbuild.PlanGroups | cmd/crossbuild.go:161-240 | without cgo, one `base-` group per resolved platform on the base image and one pull of it; with cgo, each family on its own image (main platforms keeping the `base-` prefix) and pulls of the non-empty families' images only |
| Crossbuild.CgoGroupsCover | cmd/crossbuild.go:161-240 | with cgo the containers build exactly the resolved platforms, one each, families in order main, ARM, PowerPC, MIPS, s390x; unknown platforms get none |
| Crossbuild.GroupsForPlatforms | cmd/crossbuild.go:170-173 | the platforms of GroupsFor's groups are its input platforms |
| Crossbuild.ConcurrencyLimit | cmd/crossbuild.go:242-252 | `CROSSBUILDN` when it is set and reads as a non-zero integer, otherwise the larger of 1 and CPUs − 1 |
| Crossbuild.ConcurrencyLimitPositive | cmd/crossbuild.go:242-252 | the limit is at least 1 unless `CROSSBUILDN` is set to a negative number |
| Crossbuild.ConcurrencyLimitFromEnv | cmd/crossbuild.go:245-247 | a positive decimal `CROSSBUILDN` is used as it is |
| Crossbuild.FirstGoPath | cmd/crossbuild.go:399-407 | the result has no `:`, is a prefix of GOPATH, and is followed by `:` when shorter: the part before the first `:` or all of it |
| Crossbuild.CreateArgs | cmd/crossbuild.go:317-326 | `create -t --name <ctr>`, then for a local daemon the module cache and working directory mounts, then `<image> -i <repoPath> -p <platform>` |
| Crossbuild.CopyInCommands | cmd/crossbuild.go:345-369 | at most one copy per listed entry |
| Crossbuild.CopyInCommandsSkipExcluded | cmd/crossbuild.go:345-369 | there are as many copies as listed entries whose name is not excluded |
| Crossbuild.CopyInCommandsCopyKept | cmd/crossbuild.go:345-369 | every listed entry whose name is not excluded has its copy among the commands |
| Crossbuild.CopyInCommandsOnlyKept | cmd/crossbuild.go:345-369 | every copy among the commands is that of a listed entry whose name is not excluded |
| Crossbuild.RunSeq | cmd/crossbuild.go:328-396 | the commands run are a prefix of the planned ones |
| Crossbuild.RunSeqShape | cmd/crossbuild.go:328-396 | commands run in order until one fails: all before the last succeeded, the run stops early only at a failure, and it succeeds throughout exactly when every planned command does |
| Crossbuild.RunSeqAppend | cmd/crossbuild.go:328-396 | after a block that succeeded throughout the run goes on with the next block; otherwise it ends inside the block |
| Crossbuild.Docker | cmd/crossbuild.go:328 | one docker command is recorded; it fails exactly when that command line fails, and the error is the runner's: "command failed: ", the command text, ": " and the cause |
| Crossbuild.Excluded | cmd/crossbuild.go:348-352 | the inner loop over the excluded names answers true exactly when the entry's name is one of them |
| Crossbuild.CopySources | cmd/crossbuild.go:345-369 | the labelled copy loop runs the copy-in commands up to the first failure, succeeds exactly when all of them do, and a failure carries the error of the last command run |
| Crossbuild.RunContainer | cmd/crossbuild.go:379-396 | start, copy out and remove run in order up to the first failure, whose error is that of the last command run |
| Crossbuild.CopyToRemote | cmd/crossbuild.go:345-375 | for a remote daemon the source copies and then the module cache copy run up to the first failure, whose error is that of the last command run; when they all succeed the rest of the plan runs after them |
| Crossbuild.FeedAndRun | cmd/crossbuild.go:345-396 | after `docker create`: the source copies and module cache copy for a remote daemon, then start, copy out and remove, stopping at the first failure, whose error is that of the last command run |
| Crossbuild.CreateAndRun | cmd/crossbuild.go:328-396 | `docker create` runs first; a failed listing fails right after it, with the listing's error when the create succeeded; otherwise the copies and the container run follow, stopping at the first failure, and the outcome passes exactly when every command that ran succeeded; any other failure carries the error of the last command run |
| Crossbuild.BuildGroup | cmd/crossbuild.go:305-397 | a group without platform runs nothing and succeeds; a failed working-directory lookup runs nothing and fails with "couldn't get current working directory: " and its error; a failed listing fails after `docker create`, with the listing's error when the create succeeded; otherwise the planned commands run up to the first failure and the build succeeds exactly when all that ran succeeded; any other failure carries the error of the last command run |
| Crossbuild.GroupErrors | cmd/crossbuild.go:260-268 | one error per failed group, in group order; none exactly when every group passed |
| Crossbuild.CollectErrors | cmd/crossbuild.go:283-289 | the run fails with "Crossbuild failed" exactly when some group failed, after reporting each group's error |
| Crossbuild.RunCrossbuild | cmd/crossbuild.go:95-254 | a blank repository path is an error; `tarballs` switches to packaging; otherwise the first failing `docker pull` of the planned images is fatal with its error; then a `CROSSBUILDN` below 1 fails as `make(chan)` panics; the warning naming the unknown platforms comes with every outcome after the classification, failures included; otherwise the groups are the planned ones (one base-image group without cgo, one per cgo image with it) and build exactly the resolved platforms, the pulls are the planned ones and the limit is ConcurrencyLimit |
| Crossbuild.FirstPullErrorIsFirst | cmd/crossbuild.go:175-238 | no pull error exactly when every planned pull succeeds; otherwise the error is that of a pull whose predecessors all succeeded, the first failing one |
| Crossbuild.PullImages | cmd/crossbuild.go:298-303 | the pulls run in plan order until one fails, and its error is the first pull error |
| CrossbuildDocker.AppendFamilyGroup | cmd/crossbuild_docker.go:123-130 | a cgo family block adds its group and pulls its image only when the family has platforms |
| CrossbuildDocker.PlanFamilyGroups | cmd/crossbuild_docker.go:110-166 | without cgo the five groups `base-main` … `base-s390x` on the base image, empty ones included; with cgo one group per non-empty family, named after it, on its own image, pulling only those images |
| CrossbuildDocker.FamilyGroupsCover | cmd/crossbuild_docker.go:110-166 | with or without cgo the groups together build exactly the resolved platforms, families in order |
| CrossbuildDocker.CgoFamilyGroupsNonEmpty | cmd/crossbuild_docker.go:123-166 | every cgo group has at least one platform |
| CrossbuildDocker.CreateArgs | cmd/crossbuild_docker.go:247-263 | `create -t --name <ctr>`, then for a local daemon the module cache, working directory and build cache mounts and `GOCACHE`, then `<image> -i <repoPath> -p <platforms joined by spaces>` |
| CrossbuildDocker.LocalPlan | cmd/crossbuild_docker.go:282-337 | with a local daemon the build is create, start, remove: nothing is copied in or out |
| CrossbuildDocker.BuildFamilyGroup | cmd/crossbuild_docker.go:235-338 | a group without platforms runs nothing and succeeds; a failed working-directory lookup runs nothing and fails with its wrapped error; otherwise as for one platform, skipping `.build` and `.cache` on copy-in and copying out only for a remote daemon, a failed listing giving its own error after a successful create and any other failure the error of the last command run |
| CrossbuildDocker.Names | cmd/crossbuild_docker.go:193 | the group names, in group order |
| CrossbuildDocker.RunCrossbuildDocker | cmd/crossbuild_docker.go:44-181 | as RunCrossbuild, with one group per family: a blank repository path is an error, the first failing pull is fatal, a `CROSSBUILDN` below 1 panics, the unknown-platforms warning comes with every outcome after the classification, otherwise the groups are the planned ones (five base groups without cgo, one per non-empty family with it) and together build exactly the resolved platforms |
| BuildCmd.FirstNamed | cmd/build.go:61-66 | the first configured binary with the name, or none exactly when no binary has it |
| BuildCmd.FirstUnknown | cmd/build.go:67 | the first requested name that no configured binary has |
| BuildCmd.FirstUnknownAt | cmd/build.go:59-68 | when every name before position i is configured and the i-th is not, validation fails and the first unknown name is the i-th |
| BuildCmd.ValidateBinaryNames | cmd/build.go:56-70 | succeeds exactly when every name is configured, with one configured binary per requested name, in request order; otherwise "binary <first unknown> not found in config" and no partial result |
| BuildCmd.SelectBinaries | cmd/build.go:136-146 | `all` selects every configured binary; any other value is split at `,` and validated, a failure wrapped as "validation of given binary names for build command failed: binary X not found in config" for the first unknown name X |
| BuildCmd.Ext | cmd/build.go:122-124 | `.exe` exactly when the target system is windows, "" otherwise |
| BuildCmd.BuildParams | cmd/build.go:80-86 | `build -o join(prefix, name+ext) -ldflags <ldflags>`, then the split user flags, then `join(repoPath, binary path)` |
| BuildCmd.BuildParamsWords | cmd/build.go:80-86 | user flags written as plain words reach `go build` word for word, between the linker flags and the package |
| BuildCmd.BuildBinary | cmd/build.go:72-99 | the build fails exactly when `go build` with the target's GOOS and GOARCH fails, with the parameter list in front of the runner's message, which ends with the cause |
| BuildCmd.StaticExtFlags | cmd/build.go:224-227 | `-static` is appended exactly when static linking is asked, the system is neither darwin nor solaris, and it is not already there; so it never appears twice |
| BuildCmd.LdflagsHead | cmd/build.go:198-222 | a template that fails to parse or execute is fatal; otherwise at least one flag |
| BuildCmd.Ldflags | cmd/build.go:195-234 | fails exactly when a non-blank template fails to render |
| BuildCmd.LdflagsDefault | cmd/build.go:220-233 | without a template the flags are `-X main.Version=<version>`, followed by the `-extldflags` argument when there is one |
| BuildCmd.LdflagsTemplateLines | cmd/build.go:219 | a rendered template contributes its text with each newline turned into a space |
| BuildCmd.LdflagsExtSuffix | cmd/build.go:229-233 | with external flags the linker flags end in one `-extldflags '<flags joined by spaces>'` |
| BuildCmd.LdflagsExtExample | main_test.go:138 | configured flags `-ltesting -ltesting01` with static linking give `-extldflags '-ltesting -ltesting01 -static'`, configured flags first |
| BuildCmd.ExtExampleFlags | cmd/build.go:224-231 | `-static` is added after the configured flags `-ltesting -ltesting01` on linux, and the argument quotes the three joined by spaces |
| BuildCmd.BuildErrors | cmd/build.go:165-175 | at most one error per binary, in build order; none exactly when every build succeeded |
| BuildCmd.BuildAll | cmd/build.go:165-175 | the build loop collects BuildErrors |
| BuildCmd.BuildErrorsSnoc | cmd/build.go:165-175 | one more binary adds its failure, if any, after the errors of those before it |
| BuildCmd.BuildSelected | cmd/build.go:134-192 | `all` builds every configured binary, other names only when every one is configured, each requested name building the first binary of that name (else no report and the run fails with the validation error naming the first unknown name); a `CROSSBUILDN` below 1 fails as `make(chan)` panics, building nothing; otherwise up to ConcurrencyLimit builds at once, and the run fails with "Crossbuild failed" exactly when some build failed |
| BuildCmd.RunBuild | cmd/build.go:101-193 | a blank repository path ends the run with its error; a failing template ends it with "Failed to parse ldflags text/template: …" or "Failed to execute ldflags text/template: …"; an unknown binary name ends it with the validation error; a `CROSSBUILDN` below 1 fails as `make(chan)` panics; otherwise CGO_ENABLED follows the cgo setting, the limit is ConcurrencyLimit, `all` builds every binary and other names only when all are configured, each building the first binary of that name, and the run fails with "Crossbuild failed" exactly when some build failed |
| Changelog.KindString | pkg/changelog/changelog.go:39-51 | the four kinds print as CHANGE, FEATURE, ENHANCEMENT, BUGFIX; any other value as ""; no name contains `/` |
| Changelog.KindOf | pkg/changelog/changelog.go:60-69 | a recognised string names a kind whose name it is |
| Changelog.KindOfString | pkg/changelog/changelog.go:60-69 | each kind is recognised by its own name and by no other string |
| Changelog.KindStringInjective | pkg/changelog/changelog.go:39-51 | two kinds with the same name are the same kind |
| Changelog.CollectKinds | pkg/changelog/changelog.go:58-70 | the map filled by the switch holds exactly the kinds the strings name |
| Changelog.ParseKinds | pkg/changelog/changelog.go:57-78 | the collected kinds, sorted, are ParsedKinds |
| Changelog.ParsedKindsSpec | pkg/changelog/changelog.go:57-78 | the result is strictly ascending (so free of duplicates) and holds exactly the kinds that some string names; unknown strings are ignored |
| Changelog.KindsString | pkg/changelog/changelog.go:80-86 | the kind names joined by `/` |
| Changelog.ParseKindsString | pkg/changelog/changelog.go:57-86 | round trip: for strictly ascending kinds, parsing the `/`-split of their string gives them back |
| Changelog.ParseKindsExamples | pkg/changelog/changelog_test.go:248-280 | `BUGFIX/CHANGE` gives CHANGE, BUGFIX; `BUGFIX/BUGFIX` gives BUGFIX; `BUGFIX/INVALID` gives BUGFIX; `INVALID` gives nothing |
| Changelog.Before | pkg/changelog/changelog.go:89-107 | the index loop decides Precedes: an empty other list gives true, else an empty receiver false, else the first differing kind, else shorter-or-equal length |
| Changelog.PrecedesTotalOrder | pkg/changelog/changelog.go:89-107 | Before is reflexive, total, antisymmetric and transitive |
| Changelog.Sorted | pkg/changelog/changelog.go:117-124 | no error exactly when every adjacent pair is in Before order; otherwise the error quotes the first pair that is not, as "X should be after Y" |
| Changelog.AdjacentSortedPairwise | pkg/changelog/changelog.go:117-124 | adjacent order is enough: every earlier change is in Before order with every later one |
| Changelog.SortedExamples | pkg/changelog/changelog_test.go:282-449 | the sorted and unsorted orders of the test cases, kinds-less changes last |
| Changelog.FormatDate | pkg/changelog/changelog.go:134-139 | a valid date prints as `dddd-dd-dd` |
| Changelog.ParseDate | pkg/changelog/changelog.go:163-166 | a `dddd-dd-dd` text parses exactly when it names a real date (month 1–12, day within the month, leap years counted) |
| Changelog.ParseFormatDate | pkg/changelog/changelog.go:134-139 | printing a valid date and parsing it gives it back |
| Changelog.FormatParseDate | pkg/changelog/changelog.go:136-139 | a parsed date prints back as the very text it was read from |
| Changelog.ParseDateExample | pkg/changelog/changelog_test.go:42-59 | `2016-01-02` parses as 2 January 2016 |
| Changelog.ParseDateBadMonth | pkg/changelog/changelog_test.go:221-227 | `2006-19-02` does not parse |
| Changelog.ParseDateLeapDay | pkg/changelog/changelog.go:163-166 | 29 February 2016 exists |
| Changelog.ParseDateNoLeapDay | pkg/changelog/changelog.go:163-166 | 29 February 2015 does not |
| Changelog.HeaderDate | pkg/changelog/changelog.go:144-161 | a header match is a line starting `# ` or `## `, the version, ` / `, then a `dddd-dd-dd` date |
| Changelog.ChangeLabel | pkg/changelog/changelog.go:148-176 | a change line starts `* [`, a non-empty text without `]`, then `]` |
| Changelog.ReadEntry | pkg/changelog/changelog.go:143-192 | the scanner loop computes ReadEntryOf |
| Changelog.StepKeeps | pkg/changelog/changelog.go:157-181 | one scanner step keeps the scan invariant |
| Changelog.ScanKeeps | pkg/changelog/changelog.go:157-181 | the whole scan keeps it: kept lines come from the input, are neither `## ` lines nor headers for the version, the first is not blank, and the changes are those of the kept `* [..]` lines |
| Changelog.ScanDate | pkg/changelog/changelog.go:161-167 | the date the scan ends with is the initial one or that of a header line for the version |
| Changelog.ScanNoHeader | pkg/changelog/changelog.go:157-181 | without a header for the version the scan cannot fail and keeps its date |
| Changelog.ReadEntryNotFound | pkg/changelog/changelog.go:183-188 | a changelog without a dated header for the version gives the "unable to locate release information" error |
| Changelog.ReadEntryFound | pkg/changelog/changelog.go:136-191 | a found entry has the version, a valid non-zero date that a header line for the version spells as `Name` prints it, and text and changes from kept lines as ScanKeeps describes |
| Changelog.ReadEntryStructure | pkg/changelog/changelog.go:156-191 | lines without a header for the version, a header dated d (not the zero date), blank lines, a body whose first line is not blank and that holds no `## ` or header line, then nothing or a `## ` line: the entry has date d, the changes of the body's change lines, and the body joined by newlines as its text |
| Changelog.ReadEntryExampleNextEntry | pkg/changelog/changelog_test.go:99-126 | a line of tabs after the header is skipped, and the text ends at the older entry's header, keeping the body's trailing empty line |
| Changelog.ReadEntryExampleHeading | pkg/changelog/changelog_test.go:183-219 | a `### ` heading and the empty line after it are kept in the text, and the heading is not a change |
| Bump.PartitionSpec | cmd/bump.go:85-91 | every pull request is in exactly one part: visible exactly when it has a kind, hidden otherwise |
| Bump.ContributorsSpec | cmd/bump.go:82-97 | each non-empty contributor appears once; the pre-seeded empty login never does |
| Bump.Gather | cmd/bump.go:79-97 | the loop fills visible, hidden and contributors as the specification functions say |
| Bump.InsertionSortSpec | cmd/bump.go:98-100 | the sort leaves its input ordered by a total comparison, as a permutation |
| Bump.SortSlice | cmd/bump.go:98-99 | the in-place insertion passes compute InsertionSort |
| Bump.ByKindsTotal | cmd/bump.go:98-99 | Kinds.Before on pull requests is total, so the draft sort applies |
| Bump.StrLessEqTotal | cmd/bump.go:100 | string order is total |
| Bump.MakeSentence | cmd/bump.go:104-107 | the result ends in exactly one `.` and is the input without its trailing dots, plus one |
| Bump.MakeSentenceIdempotent | cmd/bump.go:104-107 | making a sentence of a sentence changes nothing |
| Bump.WriteChangelogData | cmd/bump.go:79-119 | the draft data: the version, the date, visible and hidden sorted by Before, the contributors sorted |
| Bump.DraftVisibleSpec | cmd/bump.go:85-98 | the draft lists exactly the pull requests with kinds, sorted by Before, as a permutation of the visible part |
| Bump.DraftHiddenSpec | cmd/bump.go:85-99 | the unclassified part lists exactly the pull requests without kinds, sorted, as a permutation |
| Bump.DraftContributorsSpec | cmd/bump.go:82-100 | the contributors are the distinct non-empty logins in strictly ascending order |
| Bump.NextVersion | cmd/bump.go:128-140 | major and minor increment their component and reset the lower ones; patch increments a release's patch and keeps a pre-release's numbers; any other level keeps the numbers; the pre-release is always set, and only a non-empty invalid one is an error |
| Bump.NextVersionIncreases | cmd/bump.go:128-136 | major, minor and the patch of a release move the numbers strictly up; patch on a pre-release and `pre` keep them; with no new pre-release, major, minor and patch always give a version of higher precedence |
| Bump.FilterPullRequests | cmd/bump.go:176-192 | the filter loop computes SinceTag |
| Bump.SinceTagSpec | cmd/bump.go:176-192 | a pull request is taken exactly when it is on the base branch, merged, not before the tag, not the tag's own merge commit, and neither it nor any earlier one was updated before the tag; listing order is kept |
| Bump.LabelKinds | cmd/bump.go:207-212 | every kind comes from a label; when every label names a kind there is one kind per label |
| Bump.LabelKindsNone | cmd/bump.go:207-212 | labels that name no kind leave the pull request without kinds |
| Bump.ToPullRequest | cmd/bump.go:213-221 | number and title are kept; a missing user gives the empty login |
| Bump.PullRequests | cmd/bump.go:201-222 | one draft entry per GitHub pull request, in order |
| Bump.ConvertPullRequests | cmd/bump.go:201-222 | the extraction loop builds exactly the PullRequests list: one draft entry per GitHub pull request, in listing order |
| Bump.RunBumpVersion | cmd/bump.go:122-226 | ToSemver's error, a non-empty invalid pre-release and a failed tag lookup are the errors, in that order; otherwise the next version is NextVersion and the draft is built from the pull requests taken since the tag |
| Check.StringContainedInSlice | cmd/check.go:115-125 | true exactly when some haystack element occurs in the needle (the copy at cmd/check_licenses.go:140-150 is the same function) |
| Check.SuffixInSlice | cmd/check.go:127-137 | true exactly when the needle ends with some haystack element (the copy at cmd/check_licenses.go:152-162 is the same function) |
| Check.HeaderPasses | cmd/check.go:86-98 | a file passes exactly when one of its first n lines, lower-cased, contains `copyright` or `generated` |
| Check.CheckEntriesSpec | cmd/check.go:60-113 | the check succeeds exactly when no visit fails, and then reports exactly the eligible files missing a header, in walk order (the cobra-era walk at cmd/check_licenses.go:85-138 is the same) |
| Check.CheckEntriesFirstError | cmd/check.go:62-83 | the first failing visit decides the error |
| Check.NoLinesReportsAll | cmd/check.go:86-102 | with n ≤ 0 every eligible file is reported (likewise at cmd/check_licenses.go:111-127) |
| Check.MissingPathsSound | cmd/check.go:67-102 | every reported path is a file, not under `vendor/`, with a listed extension, whose first lines lack a header word |
| Check.CheckLicenses | cmd/check.go:60-113 | the walk callback over the visited entries computes CheckEntries |
| Check.WalkRoot | cmd/check.go:48 | the walk root is the cleaned path with one `/` appended |
| Check.RunCheckLicenses | cmd/check.go:47-58 | the files missing a header, or the walk's error wrapped as "Failed to check files for license header: …" |
| Check.RunCheckChangelog | cmd/check.go:139-167 | passes exactly when the version (or a valid project version) has an entry whose changes are in order; otherwise the semver, open or read error (the last prefixed by the path), or "invalid changelog entry: " followed by the order error for the first pair out of order |
| LicensesCommand.Run | cmd/check_licenses.go:56-83 | the location is the first argument or `.`, the extensions `[".go"]` and the length 10 unless given; the result is the check from that root, its error wrapped |
| LicensesCommand.DefaultRoot | cmd/check_licenses.go:58 | without arguments the walk starts at `./` |
| LicensesCommand.DefaultLengthTenLines | cmd/check_licenses.go:64-66 | under the defaults a file passes exactly when one of its first ten lines names a header word |
| Tarball.ArchiveNameParts | cmd/tarball.go:55 | the archive name `<name>-<version>.<goos>-<goarch>` splits at its last `.` back into `<name>-<version>` and `<goos>-<goarch>` |
| Tarball.ArchiveNameExample | main_test.go:165 | version 0.1 of promu for linux/386 is archived as `promu-0.1.linux-386` |
| Tarball.Copies | cmd/tarball.go:72-80 | one `cp -a <src> <dir>` per source, in order |
| Tarball.BinaryPaths | cmd/tarball.go:77-79 | each binary is taken from the location joined with its name and the extension |
| Tarball.RunTarball | cmd/tarball.go:45-99 | runTarball's actions and fatal error are those of the specification TarballRun, which follows the intended FileExists reading: a Stat error of the prefix other than not-exist exits with its message, where the code as written panics (see "## Findings") |
| Tarball.StageCopies | cmd/tarball.go:72-80 | the two copy loops: the configured files, then the binaries with the platform's extension |
| Tarball.Package | cmd/tarball.go:82-99 | the steps after the copies are those of Packaging |
| Tarball.PackagingSpec | cmd/tarball.go:82-99 | the tarball `join(prefix, archive.tar.gz)` is always made; a zip is made exactly for windows; the run fails exactly when the zip fails, with "Could not create ZIP archive: …"; a run that does not fail ends with the deferred removal of `.release` |
| Tarball.TarballRunCopies | cmd/tarball.go:53-80 | the target comes from GOOS and GOARCH when set, otherwise from the host; the configured files and then the binaries (with `.exe` exactly for windows) are copied into `.release/<archive>` before anything else |
| Tarball.TarballRunPackaging | cmd/tarball.go:82-99 | after the copies the run continues and ends as Packaging does |
| Tarball.StagingFailure | cmd/tarball.go:67-69 | a failure to create the staging directory is fatal before anything is copied |
| Tarball.ZipEntryName | cmd/tarball.go:128 | an entry name never starts with `/` |
| Tarball.ZipEntryStaged | cmd/tarball.go:113-128 | a file `.release/<archive>/<rel>` is stored as `<archive>/<rel>` |
| Tarball.ZipEntriesSpec | cmd/tarball.go:114-137 | the walk succeeds exactly when no visit fails; then every file visited has its entry and every entry comes from a file |
| Tarball.CreateZipEntries | cmd/tarball.go:103-138 | a failure to create the archive is returned; otherwise the walk of the staging directory with its parent as prefix |
| Tarball.ZipWalk | cmd/tarball.go:114-137 | the walk callback over the visited items computes ZipEntries |
| CrossbuildTarballs.SplitCount | cmd/crossbuild_tarballs.go:54 | splitting at `-` gives one part more than the name has dashes |
| CrossbuildTarballs.PlatformOfSpec | cmd/crossbuild_tarballs.go:54-61 | a platform exactly when the name has one `-`; it is the two dash-free parts around it |
| CrossbuildTarballs.PlatformOfName | cmd/crossbuild_tarballs.go:54-56 | the directory name of a platform gives the platform back |
| CrossbuildTarballs.BadName | cmd/crossbuild_tarballs.go:57-61 | the intended naming error names `.build/<entry>` |
| CrossbuildTarballs.BadNameAsWrittenText | cmd/crossbuild_tarballs.go:58 | as written, the message shows the entry in brackets with every `-` turned into a space |
| CrossbuildTarballs.BadNameAsWrittenDiffers | cmd/crossbuild_tarballs.go:58 | so the message as written never names the entry as intended (for names not starting with `[`) |
| CrossbuildTarballs.JobTarget | cmd/crossbuild_tarballs.go:54-63 | each job packages for the platform its entry names; an empty part falls back to the host's value |
| CrossbuildTarballs.RunCrossbuildTarballs | cmd/crossbuild_tarballs.go:43-68 | an unreadable `.build` is fatal before any job; entries are processed in listing order, each with location `.build/<entry>`, prefix `.tarballs` and its GOOS/GOARCH set; the first badly named entry is fatal with the intended naming error BadName, which names the entry where the code as written prints the split parts (see "## Findings"); a finished run unsets GOOS and GOARCH and leaves the rest of the environment as it was |

## Left out

- Concurrency is not modelled. This covers the goroutines, the semaphore, the `len(sem)` polling wait and `dockerCopyMutex` (cmd/crossbuild.go, cmd/crossbuild_docker.go and cmd/build.go). Builds are modelled one after another, and only the aggregate is kept: the run fails exactly when some build failed. Appending to `errs` from several goroutines is a data race, so the error order is not defined; the model reports group order.
- Process and file effects are inputs: running commands (whether a command line fails and the cause its error wraps), the outcome of each `docker pull` (`pullErr`, an error or none), `docker create`/`cp`/`start`/`rm`, `os.Getwd`, `ReadDir`, `filepath.Walk`, `os.Stat`, `os.MkdirAll`, `os.Mkdir`, and the tar and zip writers. Copying bytes into the archive and closing files are not modelled.
- The ldflags and changelog templates (`text/template`), the clock, `os.Hostname` and `whoami` are inputs: the rendered text or its error, a Unix second, a date string.
- The semver library is not modelled beyond the increments and the pre-release setter. The validity of a version or of a non-empty pre-release string is an input.
- Semver.LowerPrecedence orders versions by their numbers and puts a pre-release before its release. The order among pre-release identifiers is not modelled, as no increment needs it.
- `url.Parse` is modelled only for the shapes remotes take: a scheme of letters, an authority, a path, the error text's prefix. Its escaping and validation rules, IPv6 hosts and other details are left out.
- Repository.UrlParse: states only the error's prefix. What a successful parse yields is stated by SchemeLocation and LocationOfParsed.
- The GitHub client, its authentication, pagination, timeouts and the release upload are left out. The tag's commit and the listed pull requests are inputs, and the listing is taken as one list in the order GitHub returns it.
- `changelog.FromString` is an input, because the changelog sources shown do not define it.
- Writing the changelog and VERSION files in `bump` is left out, and so are dry-run printing and the version file's existence check.
- The command-line wiring is left out: kingpin, cobra and viper flags and `cmd/version.go`. A flag that overrides configuration is an optional input.
- The configuration store's viper era (`tarball.prefix` set in the store) and the kingpin era (`config.Tarball.Prefix`) coexist in the sources. Each is modelled where its code reads it.
- Printing is left out: `fmt.Println` of archive names, of the files missing headers and of the extension list in check_licenses.go, and the verbose echo of commands. Warnings are kept as values, such as the unknown-platforms warning and the warnings `NewInfo` passes to `warnf`.
- The scanner's 64 KiB line limit and its `Err` path in the license check and `ReadEntry` are left out. Lines are an input list.
- Changelog.ParseDate: only four-digit years (0–9999) are read, as the layout prints them. Zero-padded day and month are required as the header pattern captures them.
- Strs.ToLower lowers ASCII letters only. Strs.GoQuote escapes only quotes, backslashes and newlines, which covers the strings %q is applied to here.
- Bump.SortSlice: follows Go's insertion sort, which `sort.SliceStable` uses for up to 20 elements. For longer lists Go merges blocks. The proved properties (ordered by the comparison, a permutation) hold for both, but the order of equal-kinds pull requests is not modelled for more than 20.
- Bump.WriteChangelogData: `sort.Strings` is modelled by the same insertion sort. The contributors are distinct, so the result is the same list.
- Crossbuild tarball jobs are not composed with runTarball. A fatal exit inside one tarball run, which ends the loop and leaves GOOS/GOARCH set, is not modelled.
- After a fatal exit the process is gone. The environment the model returns on an error path is not meaningful.
- The error of `os.Mkdir(prefix)` is ignored by the source, and so by the model.
- The errors of `sh.RunCommand` for `cp`, `tar` and the deferred `rm` are ignored by the source. The model records those commands as actions without outcomes.
- `fatalMsg`, called by cmd/info.go, is not part of this model. Its message is taken as `<message>: <error>`.
- `hasRequiredConfigurations` and the other command entry points are not part of this model.
- Changelog tests call `ParseKinds` with one string, but the function takes a list. The examples are stated for the string split at `/`.
- cmd/info_test.go calls a two-result `repoLocation` that cmd/info.go does not have, so those cases are not modelled. The same forms are stated for pkg/repository/info.go.
- cmd/build.go:94 calls `RunCommandWithEnv("go", env, params...)`, but util/sh/sh.go:50 also takes a working directory. The model passes an empty directory, which the shown runner treats as none.
- ProjectInfo.LookupFrom, ProjectInfo.VersionOrder, Tarball.Packaging and Tarball.RunTarball model the corrected `fileExists` (ProjectInfo.FileExists in "## Findings"). A Stat error other than not-exist exits with its message, where the code as written panics on the nil FileInfo. ProjectInfo.FileExistsAsWritten states the panic.
- CrossbuildTarballs.RunCrossbuildTarballs reports the corrected naming error (CrossbuildTarballs.BadName in "## Findings"), where the code as written prints the split parts. CrossbuildTarballs.BadNameAsWritten states that text.
- Sh.RunCommandWithEnv: `fails` and `cause` do not see the working directory. The only caller, the build, passes none.
- BuildCmd.Ldflags: the static-link rule consults the package-level target `goos`, not runBuild's argument. This is an input (`hostGoos`).

## Findings

| source | as written | input that shows it | evidently intended | confidence | as-written member | corrected member |
|---|---|---|---|---|---|---|
| cmd/promu.go:167-179 | on a Stat error other than "not exist", `finfo` is nil and `finfo.IsDir()` on line 172 dereferences it before `fatal(err)` on line 176 can run | `os.Stat` fails with permission denied on a parent directory | a Stat error other than "not exist" ends the program through `fatal` with that error | high (not executed) | ProjectInfo.FileExistsAsWritten | ProjectInfo.FileExists |
| cmd/crossbuild_tarballs.go:58 | the naming error formats the split parts (a `[]string`) with `%s` instead of the directory name | entry `linux-amd64-v2` prints `bad .build/[linux amd64 v2] directory naming, …` | the message names the entry: `bad .build/linux-amd64-v2 directory naming, …` | medium (not executed) | CrossbuildTarballs.BadNameAsWritten | CrossbuildTarballs.BadName |
