# A verified model of the decision logic of `@makeomatic/deploy`

`@makeomatic/deploy` is a command-line tool for Node.js projects. It generates
docker-compose files for test runs, runs test suites inside a `tester`
container, names and builds Docker images, and wires a client project for
semantic releases. This project models in Dafny the decision and text-building
code around the tool's shell calls, and proves what that code promises:

- **Compose-file generation**, in both generations of the generator
  (`auto-compose.js`, module `AutoCompose`, and `auto_compose.js`, module
  `AutoComposeLegacy`, sharing the dispatch loop in `ComposeSpec`).
  A service name is looked up in the registry, and an unknown name other
  than a member of `Object.prototype` is rejected before anything is written. Defaults are overridden by
  `argv.extras`, the `tester` service is always added, its source mount is
  rewritten, and the document's path is stored in `argv.docker_compose`.
- **`test compose`** (`ComposeLifecycle`). It decides whether to download
  docker-compose and reads its version. It assembles the `-f` file arguments
  and stores the command line in `argv.compose`. It also plans the teardown
  that runs when the process ends: the on-fail hook, `down`, removing the
  generated file, and either a forced exit or the printed manual command.
- **`test run`** (`TestRun`). This covers common-prefix stripping, the
  coverage directory, the per-file test command, and the sorted file list.
  It also covers the fail-fast command loop that exits with 128, and the
  order of the phases.
- **Image naming** (`Docker`, `DockerBuild`, `Cli`). This covers the base
  name, the main tag and the tags, together with their once-only guards. It
  also covers the Dockerfile placeholder substitution, the `docker build`
  argument list, and the cleanup order. Finally, it covers the default
  `project` and `repository` derived from the package name.
- **Install-time edits** (`TestInit`, `SetupRelease`, `SetupReleaseLegacy`).
  This covers copy-if-missing templates (which land only in directories that
  already exist) and adding `istanbul` to the babel
  test plugins. It also covers the gate of both postinstall scripts and
  adding `package.json` entries only when missing. It covers copying the
  configuration files and the husky 4 to 8 hook migration with its rollback.
- **`inspectPromise`** (`InspectPromise`): the decision table on a settled promise.

Every effect the tool causes (printing, running a command, writing a file) is
an `Action` appended to a log (`Effects`). Every way a run ends is an
`Outcome`: it runs to its end, calls `process.exit(code)`, or throws. Shell
commands are answered by an oracle, a function from the command text to its
exit code and output. JSON values are the `Json` datatype with objects as
maps. Objects whose fields the source assigns in place are classes:
`argv` (`TestArgv.Argv`, `Docker.DockerArgv`), the older docker command
module (`Docker.LegacyDockerCommand`), the `init` workspace
(`TestInit.Workspace`) and the client project of the setup scripts
(`SetupRelease.Client`). Their methods are proved against specification
functions, and the promised properties are proved about those functions.

The `tester` service of a generated compose file does not depend on the
other services, and no HTTP-exec volumes or command are injected into it.

The option table in `bin/cmds/test.js` offers the newer registry's names.
`compose.js` calls the older generator, though, so `elasticsearch`,
`cassandra` and `couchdb` are offered and then rejected
(`AutoComposeLegacy.NewerServicesRejected`).

## Model

| member | source | states |
|---|---|---|
| Cli.CheckPackage | bin/cli.mjs:17-18 | the package passes exactly when it is an object whose `version` is truthy; otherwise the assertion fails with "Must contain package.json in the current dir" |
| Cli.MissingVersionRefused | bin/cli.js:10-11 | a package.json with no version, or an empty one, is refused with that message |
| Cli.FirstSlash | bin/cli.mjs:47-48 | the index of the first `/` in the name, or -1 when there is none |
| Cli.ScopeSlashIsFirst | bin/cli.mjs:47-48 | the slash that ends a `@scope/` prefix is always the first slash of the name |
| Cli.ProjectDefault | bin/cli.mjs:44-49 | the default `project` is the name after its `@scope/` prefix when it has one, and the whole name otherwise |
| Cli.ScopeReplace | bin/cli.mjs:63-64 | the whole-name regular expression gives the scope for `@scope/<one line>`, the empty string for a one-line name without a scope, and leaves a name with a line terminator unchanged |
| Cli.SuffixesSingleLine | bin/cli.mjs:64 | every suffix of a one-line name is one line, so `.*$` matches from any point of it |
| Cli.RepositoryDefault | bin/cli.mjs:60-65 | the default `repository` is never empty: the scope of `@scope/…`, or `makeomatic` when the replacement gives nothing |
| Cli.ScopedProject | bin/cli.mjs:47-48 | for `@scope/rest` the project is `rest` |
| Cli.ScopedRepository | bin/cli.mjs:63-64 | for `@scope/rest` the repository is `scope` |
| Cli.ScopedNameRebuilt | bin/cli.mjs:44-65 | `@` + repository + `/` + project rebuilds a scoped name |
| Cli.UnscopedName | bin/cli.js:35-50 | a name without a leading `@` is its own project, and its repository falls back to `makeomatic` |
| Cli.EmptyScope | bin/cli.js:35-50 | `@/rest` keeps the whole name as project, and the repository falls back |
| Cli.ScopeWithoutSlash | bin/cli.js:35-50 | `@scope` without a slash keeps the whole name as project, and the repository falls back |
| Cli.OptionDefaults | bin/cli.mjs:17-70 | the assertion comes first; the defaults exist exactly when the package also has a string `name`, otherwise a TypeError; node `20`, env `production`, the derived project and repository, and the package's version |
| Cli.GenerationsAgree | bin/cli.js:10-55 | the older entry point accepts and refuses the same packages and differs only in its node default `10.12.0` |
| Cli.LegacyConfigSource | bin/cli.js:14-19 | no rc file gives no configuration; a path ending in `.js` is required as a module; any other path is parsed as JSON |
| Cli.LegacyConfig | bin/cli.js:14-19 | the configuration is `{}`, the required module, or the parsed file, as the source above decides |
| Cli.RcFileKinds | bin/cli.js:14-19 | `.mdeprc.json` and `.mdeprc` are parsed; `.mdeprc.js` is required |
| Cli.ModuleConfig | bin/cli.mjs:21-23 | a search result that is found and not empty gives its config; otherwise `{}` |
| InspectPromise.Inspect | bin/index.js:11-28 | the value or reason comes back exactly when the promise settled as expected; an unexpected fulfilment becomes a rejection carrying the JSON of the value; an unexpected rejection rethrows its reason; a pending promise throws an error |
| InspectPromise.DefaultExpectsFulfilment | bin/index.js:11 | leaving out the argument is the same as passing `true` |
| InspectPromise.PassesExactlyAsExpected | bin/index.js:16-27 | a settled promise passes through exactly when its state matches the expectation |
| Docker.CheckVersion | bin/cmds/docker_cmds/_handler.js:11 | succeeds exactly when the version is a string and returns it; otherwise fails with the assertion message `version is <value>` |
| Docker.BaseTag | bin/cmds/docker_cmds/_handler.js:15 | `<node>-<version>` when the node version is included, the version alone otherwise |
| Docker.Tags | bin/cmds/docker_cmds/_handler.js:17-29 | one tag per extra tag on the image base in their order, then the node tag when included, then `latest` last when asked for, and nothing else |
| Docker.TagsOnBase | bin/cmds/docker_cmds/_handler.js:17-29 | every tag starts with `repository/project:` |
| Docker.LegacyTags | bin/cmds/docker.js:36-41 | `latest` first, then the node tag when included, and nothing else |
| Docker.LegacyTagsAsExtraTag | bin/cmds/docker.js:36-41 | the older tag list is the newer one with `latest` as the only extra tag and no trailing `latest` |
| Docker.DockerArgv.constructor | bin/cmds/docker_cmds/_handler.js:6 | an `argv` with the given inputs and none of the derived fields or the handled flag |
| Docker.Handler | bin/cmds/docker_cmds/_handler.js:6-32 | a second call on the same `argv` changes nothing; a non-string version throws before any field is written; otherwise base, base tag, main tag and tags are derived and the flag is set |
| Docker.LegacyDockerCommand.constructor | bin/cmds/docker.js:8 | the module flag starts down |
| Docker.LegacyDockerCommand.Handler | bin/cmds/docker.js:27-45 | once a call has succeeded every later call, with any `argv`, does nothing; a non-string version throws and leaves the flag down; otherwise the fields are derived with the older tag list |
| DockerBuild.FirstPassRenders | bin/cmds/docker_cmds/build.js:25 | replacing `$NODE_VERSION` in a rendered Dockerfile turns exactly its version placeholders into the node version |
| DockerBuild.SecondPassExpands | bin/cmds/docker_cmds/build.js:26 | replacing `$NODE_ENV` after that gives every placeholder its value |
| DockerBuild.PlaceholdersFilled | bin/cmds/docker_cmds/build.js:23-26 | for a Dockerfile whose other text has no `$` and a node version without `$`, the substituted text is the text with each placeholder replaced by its value |
| DockerBuild.VersionBeforeEnv | bin/cmds/docker_cmds/build.js:25-26 | the version pass runs first, so a node version that spells `$NODE_ENV` ends up as the environment |
| DockerBuild.BuildArgs | bin/cmds/docker_cmds/build.js:44-49 | no build arguments unless `docker_build_args` is an object or array; for an array, the i-th argument is `--build-arg i=<item i>`; for an object, there is one argument per own key, and the i-th is `--build-arg <key>=<value>` for the i-th key `Object.entries` lists, with the value the object holds under it |
| DockerBuild.EveryKeyPassed | bin/cmds/docker_cmds/build.js:44-49 | every own key of an object `docker_build_args` is passed as `--build-arg <key>=<value>`, and every index of an array with its item |
| DockerBuild.BuildCommandShape | bin/cmds/docker_cmds/build.js:37-52 | the command is `docker build --squash -t <mainTag> -f <tmp>`, then the build arguments in order, then the context |
| DockerBuild.CompileFailureStops | bin/cmds/docker_cmds/build.js:32-35 | a failing `compile` script exits 1 before the build command runs |
| DockerBuild.CleanupBeforeExit | bin/cmds/docker_cmds/build.js:53-63 | the temporary Dockerfile is removed right after the build command, and the run exits 1 exactly when the build failed |
| DockerBuild.CollectArgs | bin/cmds/docker_cmds/build.js:37-49 | the argument list is the fixed head followed by the build arguments |
| DockerBuild.Handler | bin/cmds/docker_cmds/build.js:16-64 | a naming failure throws before anything is written; a first successful naming leaves base, base tag, main tag and tags on `argv` as the naming functions derive them, and a repeated one leaves `argv` unchanged; then the substituted Dockerfile is written, and the run either throws for unreadable `scripts` or runs the assembled command under the main tag |
| DockerBuild.ScriptsRun | bin/cmds/docker_cmds/build.js:29-35 | when `pkg.scripts` is absent or `null` the temporary Dockerfile is already written and reading `compile` throws a TypeError; otherwise the build run follows |
| DockerBuild.NonObjectScriptsSkipCompile | bin/cmds/docker_cmds/build.js:32 | `scripts` that are not an object, such as a string, never run `npm run compile` |
| TestInit.EnsureIstanbul | bin/cmds/test_cmds/init.js:25-31 | nothing to write exactly when `istanbul` is already listed; an edit exactly when the plugins are a list without it, giving the document with `istanbul` pushed at the end of `env.test.plugins`; a TypeError when the stored value has no `includes` or `push` |
| TestInit.IstanbulAppended | bin/cmds/test_cmds/init.js:26-29 | for an object document whose plugin list lacks `istanbul`, the new list is the old one plus `istanbul`, and every other top-level key keeps its value |
| TestInit.EnsureIstanbulIdempotent | bin/cmds/test_cmds/init.js:27-31 | after the edit `istanbul` is listed, so a second edit writes nothing |
| TestInit.CopyIfMissingSettles | bin/cmds/test_cmds/init.js:17-19 | a guarded copy never overwrites and adds at most its target, with the template's content and only into an existing directory; afterwards the target exists, the template is absent or the target's directory is missing, so a second identical copy changes nothing |
| TestInit.NoFileInMissingDirectory | bin/cmds/test_cmds/init.js:17-24 | no file is created in a directory that does not exist, because shelljs `cp` creates no directories |
| TestInit.TestDirectoryTargets | bin/cmds/test.js:13 | the default compose target `./test/docker-compose.yml` lies in `./test`, and `test/mocha.opts` in `test` |
| TestInit.BabelrcStepAdds | bin/cmds/test_cmds/init.js:22-32 | the `.babelrc` step adds no file but `.babelrc`, and that only when its directory exists |
| TestInit.WithoutTestDirectory | bin/cmds/test_cmds/init.js:18-19 | in a project without `test/`, neither `test/mocha.opts` nor the default `./test/docker-compose.yml` is created, and the run goes on to the `.babelrc` step |
| TestInit.Workspace.constructor | bin/cmds/test_cmds/init.js:14 | the workspace holds the given files and directories |
| TestInit.Init | bin/cmds/test_cmds/init.js:14-33 | the files become the result of the copies and the `.babelrc` step over the existing directories; a read, parse or edit failure throws and leaves the copies in place |
| TestInit.CopyInto | bin/cmds/test_cmds/init.js:17-19 | the three plain copies, in order, each only where no file or directory is at its target, and each taking effect only when its template exists and its target's directory exists |
| TestInit.EditBabelrc | bin/cmds/test_cmds/init.js:22-32 | a missing `.babelrc` is copied; an existing one is read, parsed and edited; a directory in its place, or a failure to parse or edit it, throws and changes no file |
| TestInit.ExistingFilesKept | bin/cmds/test_cmds/init.js:17-32 | every file that existed before keeps its content, except an edited `.babelrc` |
| TestInit.IstanbulListedAfter | bin/cmds/test_cmds/init.js:22-32 | an existing `.babelrc` that parses to an object lists `istanbul` after the run |
| TestInit.CopiesSettled | bin/cmds/test_cmds/init.js:17-19 | once the copies have run they change nothing on a later state that keeps their targets and gains no template |
| TestInit.InitIdempotent | bin/cmds/test_cmds/init.js:14-33 | a second `test init` on a project that had a `.babelrc` changes nothing, when templates are not targets and parsing reads back what stringifying wrote |
| TestRun.StripCommonPrefix | bin/cmds/test_cmds/run.js:39-50 | what is left is a suffix of the path, what is cut is a prefix of both strings, and the cut stops only at the end of either string or at the first differing character |
| TestRun.RemoveCommonPrefix | bin/cmds/test_cmds/run.js:39-50 | the character-by-character loop over the normalised paths returns exactly the path without the prefix it shares with the glob |
| TestRun.EqualPathsLeaveNothing | bin/cmds/test_cmds/run.js:44-49 | a path compared with itself leaves nothing |
| TestRun.DifferentStartKeepsAll | bin/cmds/test_cmds/run.js:44-49 | a path whose first character differs from the glob's is kept whole |
| TestRun.CoverageDir | bin/cmds/test_cmds/run.js:120 | the report directory followed by the test name cut before its last `.`, or followed by nothing when the name has no `.` |
| TestRun.TestArgs | bin/cmds/test_cmds/run.js:108-114 | the positional arguments after the first two, in order, then `test_args` last when it is not empty |
| TestRun.TestCommand | bin/cmds/test_cmds/run.js:101-127 | the whole command: `docker exec <container> /bin/sh -c "` + the custom-run prefix + `<root>/cross-env NODE_ENV=test ` + the coverage part + ` ` + the test binary + ` ` + the arguments joined by spaces + ` ` + the test file + `"`, the coverage directory derived from the test name below the tests glob; it starts with the runner and ends with the test file |
| TestRun.CustomRunPrefix | bin/cmds/test_cmds/run.js:104 | nothing without `custom_run`; otherwise `custom_run` followed by one space |
| TestRun.Coverage | bin/cmds/test_cmds/run.js:121 | the coverage part is empty exactly when `nycCoverage` is off; otherwise it runs `<root>/nyc` and ends with `--report-dir <dir>` |
| TestRun.TestBinary | bin/cmds/test_cmds/run.js:103-125 | a framework command without `<coverageDirectory>` is `<root>/<test_framework>` unchanged; with it, one occurrence is replaced by the coverage directory |
| TestRun.InContainer | bin/cmds/test_cmds/run.js:127 | a line run in the container starts with `docker exec <container> /bin/sh -c "` and ends with the line and a closing quote |
| TestRun.CommandWithoutCoverage | bin/cmds/test_cmds/run.js:121-127 | without coverage, two spaces separate `NODE_ENV=test` from the test binary and no `nyc` part is present |
| TestRun.LessEqTotal | bin/cmds/test_cmds/run.js:58 | the default sort order compares any two names |
| TestRun.LessEqChain | bin/cmds/test_cmds/run.js:58 | the default sort order is transitive |
| TestRun.Insert | bin/cmds/test_cmds/run.js:58 | inserting into a sorted list keeps it sorted and adds exactly that element |
| TestRun.Sort | bin/cmds/test_cmds/run.js:58 | the sorted file list is ordered and holds the same files, each as often |
| TestRun.Commands | bin/cmds/test_cmds/run.js:22-24 | one command per item, in item order, made by `makeCmd` |
| TestRun.Loop | bin/cmds/test_cmds/run.js:23-35 | the sequential loop completes exactly when every command succeeds, printing and running them all; otherwise it exits 128 |
| TestRun.LoopStopsAtFirstFailure | bin/cmds/test_cmds/run.js:26-28 | nothing after the first failing command runs; the log ends with its failure message |
| TestRun.LoopThroughCmds | bin/cmds/test_cmds/run.js:22-37 | the loop's outcome and log are those of the loop plan, sequential or concurrent |
| TestRun.Execs | bin/cmds/test_cmds/run.js:85-88 | each rebuild command is run, in order, without being printed |
| TestRun.Handler | bin/cmds/test_cmds/run.js:54-135 | when the compose step does not complete, neither does the run; otherwise its log ends with the plan for the sorted test files and the stored compose command, and its outcome is that plan's |
| TestRun.Steps | bin/cmds/test_cmds/run.js:58-135 | the steps after the compose command follow the plan: no files exits 1, a failing `up` or `ps` exits 128, then set-up and the command loops |
| TestRun.Setup | bin/cmds/test_cmds/run.js:82-98 | the rebuild, node-gyp and sleep steps, in that order, each only when asked for |
| TestRun.RunPhases | bin/cmds/test_cmds/run.js:116-134 | `pre`, the container commands, the test commands and the coverage upload, each only after the previous one completed |
| TestRun.NoTestFilesExits | bin/cmds/test_cmds/run.js:59-61 | without test files the run exits 1 before any container command |
| TestRun.StartFailureExits | bin/cmds/test_cmds/run.js:69-72 | a failing `up -d` exits 128 and the container id is never asked for |
| TestRun.PsFailureExits | bin/cmds/test_cmds/run.js:74-78 | a failing `ps -q tester` exits 128 with "failed to get container id. Exit 128" last, and only `up -d` and `ps` reached the shell |
| TestRun.SetupNeverStops | bin/cmds/test_cmds/run.js:82-98 | once the container id is known, only the command loops decide the outcome |
| TestRun.LoopCompletes | bin/cmds/test_cmds/run.js:35 | a sequential loop whose commands all succeed prints and runs every one |
| TestRun.ItselfCommands | bin/cmds/test_cmds/run.js:22 | the default `makeCmd` gives the items back as their own commands |
| TestRun.PhasesSucceed | bin/cmds/test_cmds/run.js:116-134 | when every loop command succeeds and the tests run one at a time, each loop prints and runs all its commands and the coverage upload follows |
| TestRun.LoopsSucceed | bin/cmds/test_cmds/run.js:116-128 | the same for any command builders: three completing loops log their commands one loop after another |
| TestRun.Started | bin/cmds/test_cmds/run.js:63-98 | after a successful `up` and `ps`, the run is the start log and the set-up log followed by the phases |
| TestRun.PhaseOrder | bin/cmds/test_cmds/run.js:54-135 | when everything succeeds, the log is start, rebuild, gyp, sleep, `pre`, arbitrary_exec, tests, coverage, in that order |
| TestArgv.Argv.constructor | bin/cmds/test_cmds/compose.js:18 | the shared `argv` starts with the given options and compose file and no stored command line |
| ComposeLifecycle.DigitRun | bin/cmds/test_cmds/compose.js:23 | a greedy `\d+` run: it stays in the text, covers only digits, and stops before a non-digit or at the end |
| ComposeLifecycle.MatchShape | bin/cmds/test_cmds/compose.js:23 | a match of `\d+\.\d+\.\d+` at a position ends inside the text, and what it covers splits on dots into three digit groups |
| ComposeLifecycle.GroupsShape | bin/cmds/test_cmds/compose.js:23 | three digit groups joined by dots have the shape of a version number |
| ComposeLifecycle.FoundIsVersion | bin/cmds/test_cmds/compose.js:23 | what the leftmost search returns is a version number that occurs in the text |
| ComposeLifecycle.DigitRunCovers | bin/cmds/test_cmds/compose.js:23 | digits at a position make the greedy run at least that long, and exactly that long before a non-digit |
| ComposeLifecycle.VersionParts | bin/cmds/test_cmds/compose.js:23 | a version number is its three digit groups joined by dots |
| ComposeLifecycle.VersionMatchesAt | bin/cmds/test_cmds/compose.js:23 | a version number anywhere in the text is matched at its own position |
| ComposeLifecycle.VersionFound | bin/cmds/test_cmds/compose.js:23 | the probe finds a version exactly when the output contains one, and what it finds is one |
| ComposeLifecycle.Detect | bin/cmds/test_cmds/compose.js:22-23 | no binary gives no version; a binary whose `--version` output holds no version number makes `.match(...)[0]` throw; otherwise its version |
| ComposeLifecycle.FileArgsWords | bin/cmds/test_cmds/compose.js:50-63 | as shell words, the `-f` arguments name the configured file, the generated one, or the configured one followed by the generated one |
| ComposeLifecycle.DownloadFailureExits | bin/cmds/test_cmds/compose.js:26-44 | after the probe, the run exits 1 exactly when a download is needed and curl fails; the log then ends with curl's error and `argv` is left alone |
| ComposeLifecycle.DirectoryOnlyForDownload | bin/cmds/test_cmds/compose.js:26-34 | after the probe, `./node_modules/.bin` is created exactly when a download is needed |
| ComposeLifecycle.InstallLogDirectory | bin/cmds/test_cmds/compose.js:26-34 | the download step creates the directory exactly when a download is needed |
| ComposeLifecycle.AssembledNoDirectory | bin/cmds/test_cmds/compose.js:50-94 | the second half of the handler never creates a directory |
| ComposeLifecycle.GenerationDecides | bin/cmds/test_cmds/compose.js:54-63 | after a download that did not fail, a failed generation throws its own error and leaves `argv` alone; otherwise the run completes |
| ComposeLifecycle.CompletedFields | bin/cmds/test_cmds/compose.js:46-66 | a completed run leaves the generated file in `argv.docker_compose` when one is generated, and the quoted chosen binary with the `-f` arguments in `argv.compose` |
| ComposeLifecycle.CompletedLog | bin/cmds/test_cmds/compose.js:54-94 | a completed run writes the generated file when there is one and ends by registering the exit hook |
| ComposeLifecycle.AfterProbe | bin/cmds/test_cmds/compose.js:22-23 | once the probe finds a version, the run is the probe followed by the rest: same outcome, same fields, same last entry |
| ComposeLifecycle.Outcomes | bin/cmds/test_cmds/compose.js:18-95 | a probe without a version throws the `null[0]` error; a failed download exits 1; a failed generation throws its error; otherwise the run completes; only a completed run changes `argv` |
| ComposeLifecycle.DownloadLogged | bin/cmds/test_cmds/compose.js:26-44 | the directory is created exactly when a download is needed, and a failed download ends the log with curl's error |
| ComposeLifecycle.ProbeFirst | bin/cmds/test_cmds/compose.js:23 | a log prefixed by the probe keeps the last entry and every entry of the rest |
| ComposeLifecycle.CompletedRun | bin/cmds/test_cmds/compose.js:46-94 | a completed run found a version, stores the command line for the chosen binary, writes the generated file and ends by registering the exit hook |
| ComposeLifecycle.GeneratedRun | bin/cmds/test_cmds/compose.js:18-95 | with the generator's own document, the run completes exactly when the probe, the download and the generation all succeed, and then stores the expected command line |
| ComposeLifecycle.ProbeVersion | bin/cmds/test_cmds/compose.js:22-23 | the probe runs `<binary> --version` only when a binary was found, and returns the detected version or the match error |
| ComposeLifecycle.InstallBinary | bin/cmds/test_cmds/compose.js:25-48 | the download step logs the notice, the directory, `uname`, curl, then curl's error or the `chmod`; it fails exactly when a needed download fails; otherwise the binary is the downloaded one or the one found |
| ComposeLifecycle.Handler | bin/cmds/test_cmds/compose.js:18-95 | the outcome, the log and the two `argv` fields are those of the whole-run plan, with the generator's document |
| ComposeLifecycle.Install | bin/cmds/test_cmds/compose.js:25-94 | after the probe, the download and the command line follow the plan for the version found |
| ComposeLifecycle.AssembleCommand | bin/cmds/test_cmds/compose.js:50-94 | the optional generation, then the command line stored on `argv` and the exit hook registered, as the plan says |
| ComposeLifecycle.StopDocker | bin/cmds/test_cmds/compose.js:68-91 | on-fail runs first exactly when set and exiting with a code other than 0; with `no_cleanup` only the manual-stop hint follows; otherwise the banner, `down`, the delete of a generated file, and the forced exit with `code \|\| 0` as the very last entry, only on `exit` |
| ComposeLifecycle.OnFailIgnoresNoCleanup | bin/cmds/test_cmds/compose.js:72-76 | whether the on-fail hook runs does not depend on `no_cleanup` |
| ComposeLifecycle.CleanExit | bin/cmds/test_cmds/compose.js:72-87 | an exit with code 0 never runs the on-fail hook and the forced exit keeps 0 |
| ComposeLifecycle.ExitWithoutCode | bin/cmds/test_cmds/compose.js:72-87 | an exit without a code runs the on-fail hook (`undefined !== 0`) and then exits with 0 |
| ComposeSpec.ToJson | bin/cmds/test_cmds/auto-compose.js:28-48 | the written document always has `version`, `networks` and `services`, plus `volumes` and `x-mutagen` exactly when they are set, with the version and the services as built |
| ComposeSpec.InheritedNameAdmitted | bin/cmds/test_cmds/auto-compose.js:53-56 | as written, the `=== undefined` guard lets `constructor` through although no service is registered under it |
| ComposeSpec.AddServicesUnknown | bin/cmds/test_cmds/auto-compose.js:51-60 | the first unregistered name is the one reported, whatever follows it |
| ComposeSpec.AddServicesKnown | bin/cmds/test_cmds/auto-compose.js:51-60 | when every name is registered, the loop adds exactly what the constructors write, in order, and changes nothing else |
| ComposeSpec.AddServicesSucceeds | bin/cmds/test_cmds/auto-compose.js:51-60 | the loop succeeds exactly when every requested name is registered |
| ComposeSpec.FirstMissing | bin/cmds/test_cmds/auto-compose.js:52-56 | a list with an unregistered name has a first one |
| ComposeSpec.WrittenKeys | bin/cmds/test_cmds/auto-compose.js:51-60 | the keys written are exactly those of the constructors of the requested names |
| ComposeSpec.WrittenValue | bin/cmds/test_cmds/auto-compose.js:51-60 | when constructors agree on shared keys, each written key holds the value any of its writers gives it |
| AutoComposeLegacy.ServiceKeyInjective | bin/cmds/test_cmds/auto_compose.js:72-113 | different constructors write different service keys |
| AutoComposeLegacy.DefinitionOverrides | bin/cmds/test_cmds/auto_compose.js:72-113 | after `merge`, every default key is present; a key not in the defaults comes from the extras; a default the extras do not touch keeps its value; a plain value from the extras wins |
| AutoComposeLegacy.Construct | bin/cmds/test_cmds/auto_compose.js:72-99 | each constructor writes its own key, and the sentinel writes `redis` as well, each holding its merged definition |
| AutoComposeLegacy.RegistryConsistent | bin/cmds/test_cmds/auto_compose.js:9-15 | two constructors that write the same key write the same value there |
| AutoComposeLegacy.Location | bin/cmds/test_cmds/auto_compose.js:45-47 | the file is `docker-compose.<id>.yml` directly in the temporary directory |
| AutoComposeLegacy.Handler | bin/cmds/test_cmds/auto_compose.js:20-54 | an unregistered name throws before anything is written and leaves `argv.docker_compose`; otherwise the document is written to the location, which `argv.docker_compose` then names |
| AutoComposeLegacy.BuildAfter | bin/cmds/test_cmds/auto_compose.js:30-42 | the document is the dispatch loop's result with the tester added, or the loop's error |
| AutoComposeLegacy.UnknownServiceRejected | bin/cmds/test_cmds/auto_compose.js:32-35 | the first unregistered name fails the build with "no support for <name>, please add it to @makeomatic/deploy" |
| AutoComposeLegacy.BuildSucceeds | bin/cmds/test_cmds/auto_compose.js:30-39 | the build succeeds exactly when every requested name is registered |
| AutoComposeLegacy.NewerServicesRejected | bin/cmds/test_cmds/auto_compose.js:9-15 | `elasticsearch`, offered by the newer registry, is rejected by this one |
| AutoComposeLegacy.BuildShape | bin/cmds/test_cmds/auto_compose.js:24-42 | a built document is the fixed header with the written services and the tester |
| AutoComposeLegacy.BuildHeader | bin/cmds/test_cmds/auto_compose.js:24-27 | the written document has exactly `version` ('3'), `networks` and `services` |
| AutoComposeLegacy.BuildServiceKeys | bin/cmds/test_cmds/auto_compose.js:30-42 | the services are exactly the tester and the keys the requested constructors write |
| AutoComposeLegacy.AddedValue | bin/cmds/test_cmds/auto_compose.js:30-39 | each key a requested constructor writes holds that constructor's merged definition |
| AutoComposeLegacy.BuildServiceValue | bin/cmds/test_cmds/auto_compose.js:30-42 | in the built document each requested service holds its merged definition, under its registry name |
| AutoComposeLegacy.ServiceKeyNotTester | bin/cmds/test_cmds/auto_compose.js:59-113 | no constructor writes the `tester` key |
| AutoComposeLegacy.CamelCaseRegistered | bin/cmds/test_cmds/auto_compose.js:9-15 | `redisCluster` and `redisSentinel` are registered with their constructors |
| AutoComposeLegacy.WrittenKeyIsName | bin/cmds/test_cmds/auto_compose.js:72-113 | every key this generation writes is a registry name |
| AutoComposeLegacy.ConstructKeysRegistered | bin/cmds/test_cmds/auto_compose.js:72-113 | every key a constructor writes is a registry name |
| AutoComposeLegacy.CamelCaseKeys | bin/cmds/test_cmds/auto_compose.js:72-99 | the cluster and the sentinel are stored as `redisCluster` and `redisSentinel` |
| AutoComposeLegacy.AddedKeysRegistered | bin/cmds/test_cmds/auto_compose.js:30-39 | every key the requested constructors write is a registry name |
| AutoComposeLegacy.NoDashedKeys | bin/cmds/test_cmds/auto_compose.js:72-99 | no entry is named `redis-cluster` or `redis-sentinel` |
| AutoComposeLegacy.SentinelBringsRedis | bin/cmds/test_cmds/auto_compose.js:87-99 | asking for the sentinel also yields `redis`, and the sentinel depends on it unless the extras set `depends_on` |
| AutoComposeLegacy.SentinelDefaultDepends | bin/cmds/test_cmds/auto_compose.js:91-98 | unless the extras set it, the sentinel's definition depends on `redis` |
| AutoComposeLegacy.TesterOverrides | bin/cmds/test_cmds/auto_compose.js:59-70 | the tester's defaults hold unless `extras.tester` overrides them, and its default volumes are the source mount alone |
| AutoComposeLegacy.TesterVolumesReplaced | bin/cmds/test_cmds/auto_compose.js:60-69 | arrays merge position by position: a non-empty plain volume list in `extras.tester` replaces the source mount instead of being added to it |
| AutoComposeLegacy.InheritedNameAdmittedHere | bin/cmds/test_cmds/auto_compose.js:32-35 | as written, this generation's guard also lets `constructor` through |
| AutoCompose.ServiceKeyInjective | bin/cmds/test_cmds/auto-compose.js:100-197 | different constructors write different service keys |
| AutoCompose.RegistryNames | bin/cmds/test_cmds/auto-compose.js:10-19 | every registry name is the extras key its constructor reads |
| AutoCompose.DefinitionOverrides | bin/cmds/test_cmds/auto-compose.js:100-197 | after `merge`, every default key is present; a key not in the defaults comes from the extras; a default the extras do not touch keeps its value; a plain value from the extras wins |
| AutoCompose.Construct | bin/cmds/test_cmds/auto-compose.js:100-197 | each constructor writes its own key (`redis-cluster`, `redis-sentinel` for the two redis variants), and the sentinel writes `redis` as well, each holding its merged definition |
| AutoCompose.RegistryConsistent | bin/cmds/test_cmds/auto-compose.js:10-19 | two constructors that write the same key write the same value there |
| AutoCompose.KeepVolumesStep | bin/cmds/test_cmds/auto-compose.js:92 | the filter tests each entry in order: a throw ends it, a mounting entry is dropped, any other is kept |
| AutoCompose.Location | bin/cmds/test_cmds/auto-compose.js:66-68 | the file is `<tmpdir><sep><project><sep>docker-compose.<id>.yml`, with the platform's separator |
| AutoCompose.Tester | bin/cmds/test_cmds/auto-compose.js:81-98 | the loop computes the tester definition: a null or non-array `volumes` throws, an entry whose `includes` throws ends it, and otherwise the kept entries are followed by the one source mount |
| AutoCompose.Handler | bin/cmds/test_cmds/auto-compose.js:24-76 | a failing build throws, writes nothing and leaves `argv.docker_compose`; otherwise the project directory is created, the document is written to the location, and `argv.docker_compose` names it |
| AutoCompose.BuildAfter | bin/cmds/test_cmds/auto-compose.js:51-63 | the document is the dispatch loop's result with the tester added, or the first error thrown |
| AutoCompose.UnknownServiceRejected | bin/cmds/test_cmds/auto-compose.js:52-56 | the first unregistered name fails the build with "no support for <name>, please add it to @makeomatic/deploy" |
| AutoCompose.BuildSucceeds | bin/cmds/test_cmds/auto-compose.js:51-63 | the build succeeds exactly when every requested name is registered and the tester definition can be built |
| AutoCompose.HeaderFields | bin/cmds/test_cmds/auto-compose.js:28-48 | the header has version `argv.acv`, empty networks, services and volumes, plus the code volume and the mutagen sync exactly under `isMutagen` |
| AutoCompose.BuildShape | bin/cmds/test_cmds/auto-compose.js:28-63 | a built document is the header with the written services and the tester |
| AutoCompose.BuildServiceKeys | bin/cmds/test_cmds/auto-compose.js:51-63 | the services are exactly the tester and the keys the requested constructors write |
| AutoCompose.AddedValue | bin/cmds/test_cmds/auto-compose.js:51-60 | each key a requested constructor writes holds that constructor's merged definition |
| AutoCompose.BuildServiceValue | bin/cmds/test_cmds/auto-compose.js:51-63 | in the built document each requested service holds its merged definition |
| AutoCompose.ServiceKeyNotTester | bin/cmds/test_cmds/auto-compose.js:97-197 | no constructor writes the `tester` key, so the tester never overwrites a service |
| AutoCompose.SentinelRegistered | bin/cmds/test_cmds/auto-compose.js:10-19 | `redisSentinel` is registered with the sentinel's constructor |
| AutoCompose.TesterAlwaysPresent | bin/cmds/test_cmds/auto-compose.js:51-63 | with no service requested, the document holds the tester alone |
| AutoCompose.SentinelBringsRedis | bin/cmds/test_cmds/auto-compose.js:115-127 | asking for the sentinel also yields `redis`, and the sentinel depends on it unless the extras set `depends_on` |
| AutoCompose.SentinelDefaultDepends | bin/cmds/test_cmds/auto-compose.js:115-127 | unless the extras set it, the sentinel's definition depends on `redis` |
| AutoCompose.KeepVolumesContent | bin/cmds/test_cmds/auto-compose.js:92 | a successful filter keeps exactly the entries that do not mention `${PWD}:/src`, and every entry could be checked |
| AutoCompose.KeepVolumesConcat | bin/cmds/test_cmds/auto-compose.js:92 | filtering a concatenation is filtering the halves in order |
| AutoCompose.TesterVolumes | bin/cmds/test_cmds/auto-compose.js:92-95 | the tester's volumes end with exactly one source mount (`makeomatic-deploy-code:/src` under mutagen, `${PWD}:/src` otherwise), and no earlier entry mentions `${PWD}:/src` |
| AutoCompose.TesterImageDefault | bin/cmds/test_cmds/auto-compose.js:83 | unless the extras override it, the tester image is `tester_image` when given, else `makeomatic/node:<node>-<flavour>` |
| AutoCompose.LocationParts | bin/cmds/test_cmds/auto-compose.js:66-68 | on a POSIX host, whatever the temporary directory (absolute, such as `/tmp`), the path splits on `/` into the pieces of that directory followed by exactly the project and the file name |
| SetupRelease.InstalledUnscoped | scripts/setup-semantic-release.mjs:16-24 | a package at `<prefix>/node_modules/<name>` counts as a dependency |
| SetupRelease.InstalledScoped | scripts/setup-semantic-release.mjs:16-24 | a package at `<prefix>/node_modules/<scope>/<name>` counts as a dependency |
| SetupRelease.TopLevelCheckout | scripts/setup-semantic-release.mjs:16-24 | a checkout at `/<dir>/<name>` outside `node_modules` does not |
| SetupRelease.IsInstallingGlobally | scripts/setup-semantic-release.mjs:52-61 | the install is global exactly when the client root is set and equals the parent directory of the global root npm or pnpm reports |
| SetupRelease.ExitsEarly | scripts/setup-semantic-release.mjs:131-135 | `--force` never exits early; otherwise the script exits exactly when it is not a dependency, is installed globally, or the root has no `.git` |
| SetupRelease.IsForced | scripts/setup-semantic-release.mjs:14 | forced exactly when some argument is `--force` |
| SetupRelease.WithPlugin | scripts/setup-semantic-release.mjs:109-111 | `set` adds the holder key and changes no other top-level key |
| SetupRelease.PluginInstalled | scripts/setup-semantic-release.mjs:100-114 | after `addPlugin` the script is installed under its key and the holder's other keys are kept |
| SetupRelease.InstalledKept | scripts/setup-semantic-release.mjs:100-114 | installing one script keeps every other installed script installed |
| SetupRelease.WithNpx | scripts/setup-semantic-release.mjs:189-191 | the command runs `npm` or `npx` afterwards, is unchanged when it already did, and ends with the original command |
| SetupRelease.ReplaceParams | scripts/setup-semantic-release.mjs:192 | a command starting with the variable (with or without `$`) starts with `$` after the replacement |
| SetupRelease.ReplaceParamsPieces | scripts/setup-semantic-release.mjs:192 | every occurrence of `HUSKY_GIT_PARAMS`, with or without `$`, becomes `$1`, and the literal text between them is kept |
| SetupRelease.ReplaceParamsRemovesAll | scripts/setup-semantic-release.mjs:192 | after the replacement `HUSKY_GIT_PARAMS` occurs nowhere |
| SetupRelease.ReplaceParamsAbsent | scripts/setup-semantic-release.mjs:192 | a command without the variable is left as it is |
| SetupRelease.ReplaceParamsKeepsPrefix | scripts/setup-semantic-release.mjs:189-192 | the `npm `/`npx ` prefix survives the replacement |
| SetupRelease.MigrateHook | scripts/setup-semantic-release.mjs:169-193 | exactly the two legacy hooks are deleted; a string hook becomes its `npx` form with `$1`; only a non-string value can throw, with `script.replace is not a function` |
| SetupRelease.MigrateScript | scripts/setup-semantic-release.mjs:189-192 | a kept string hook becomes its `npx` form with `$1`; only a non-string value can throw, with `script.replace is not a function` |
| SetupRelease.MigratedScriptIsHusky8 | scripts/setup-semantic-release.mjs:189-192 | every migrated command runs `npm` or `npx` and no longer mentions the husky 4 variable |
| SetupRelease.MigratedHookIsHusky8 | scripts/setup-semantic-release.mjs:189-192 | every kept hook runs `npm` or `npx` and no longer mentions the husky 4 variable |
| SetupRelease.NpmOrNpxMigrated | scripts/setup-semantic-release.mjs:189-192 | a command that runs `npm` or `npx` still does after the replacement and loses the variable |
| SetupRelease.MigratedHooksShape | scripts/setup-semantic-release.mjs:168-194 | the migrated hooks are exactly the non-legacy hooks, each a husky 8 command |
| SetupRelease.Husky8HookStable | scripts/setup-semantic-release.mjs:175-192 | an already migrated hook migrates to itself |
| SetupRelease.MigratedHooksFixed | scripts/setup-semantic-release.mjs:168-194 | hooks that each migrate to themselves migrate as a whole to themselves |
| SetupRelease.MigrationIdempotent | scripts/setup-semantic-release.mjs:168-194 | migrating an already migrated hooks object changes nothing |
| SetupRelease.MigratedPackage | scripts/setup-semantic-release.mjs:163-194 | the in-memory edit touches no top-level key but `husky` |
| SetupRelease.MigratedItems | scripts/setup-semantic-release.mjs:168-193 | hooks given as an array fail exactly when some element cannot be migrated, with `script.replace is not a function`; otherwise every element is kept |
| SetupRelease.IndexHookIsScript | scripts/setup-semantic-release.mjs:169-187 | under an array index as key no hook is legacy, so the hook migrates as its command alone |
| SetupRelease.MigratedItemsShape | scripts/setup-semantic-release.mjs:168-193 | migrated array hooks keep their length and each element is a husky 8 command |
| SetupRelease.MigratedHooksValue | scripts/setup-semantic-release.mjs:168-193 | a non-empty string as `hooks` throws at its first index in the strict module; a number or `true` has no entries and stays; an object keeps at most its keys; an array keeps its length |
| SetupRelease.StringHooksThrow | scripts/setup-semantic-release.mjs:168-193 | a package whose `husky.hooks` is a non-empty string makes the migration throw |
| SetupRelease.MigrateItems | scripts/setup-semantic-release.mjs:169-193 | the loop over an array of hooks yields the migrated elements, or the error of the first that cannot be migrated |
| SetupRelease.MigrateHooks | scripts/setup-semantic-release.mjs:169-193 | the loop over the entries yields the migrated hooks, or the error of a hook that cannot be migrated |
| SetupRelease.Client.constructor | scripts/setup-semantic-release.mjs:88-91 | the client starts with its files and its parsed `package.json`, and nothing done yet |
| SetupRelease.Candidates | scripts/setup-semantic-release.mjs:63-64 | the corrected candidates include every name looked at as written and the target itself |
| SetupRelease.SampleOverwritesHook | scripts/setup-semantic-release.mjs:63-86 | as written, copying `.husky/commit-msg.sample` to `.husky/commit-msg` replaces the client's own hook, since only the sample's name is looked for |
| SetupRelease.CopyNeverOverwrites | scripts/setup-semantic-release.mjs:63-86 | with the target among the candidates, no existing file is replaced |
| SetupRelease.CopyConfigures | scripts/setup-semantic-release.mjs:63-86 | when the package ships the file and the target can be written, a configuration is present afterwards |
| SetupRelease.CopyConfiguration | scripts/setup-semantic-release.mjs:63-86 | with the candidates as written (the file name, then the fallbacks), the first that is a file in the client root stops the copy silently; otherwise the file is copied and "created" printed, or "failed to copy" warned |
| SetupRelease.CopyTouchesOnlyTarget | scripts/setup-semantic-release.mjs:63-86 | as written, a copy adds at most the target and every other path keeps its entry |
| SetupRelease.CopyUnstopped | scripts/setup-semantic-release.mjs:75-85 | as written, when no candidate is a file, the target takes the package's file and "created" is printed, or nothing changes and "failed to copy" is warned |
| SetupRelease.CopySameNameNeverOverwrites | scripts/setup-semantic-release.mjs:63-73 | as written, a copy whose target keeps the package's own name never replaces an existing file |
| SetupRelease.InstallPluginsKeeps | scripts/setup-semantic-release.mjs:143-150 | an installed script stays installed while the others are installed |
| SetupRelease.InstallPluginsInstalls | scripts/setup-semantic-release.mjs:143-150 | after the loop every script is installed and keys holding no script are untouched |
| SetupRelease.InstallPluginsNoop | scripts/setup-semantic-release.mjs:143-150 | a package that already has every script is left as it is and not written |
| SetupRelease.ScriptsWellFormed | scripts/setup-semantic-release.mjs:139-141 | the script table names distinct keys with non-empty commands |
| SetupRelease.InstallScripts | scripts/setup-semantic-release.mjs:143-150 | the loop leaves the package and the printed lines the scripts specification gives |
| SetupRelease.RollbackRestores | scripts/setup-semantic-release.mjs:199-213 | a migration that throws leaves `package.json` as it was before the migration |
| SetupRelease.MigrationSavesHooks | scripts/setup-semantic-release.mjs:196-208 | a migration that completes saves the migrated hooks |
| SetupRelease.MigrationTouchesOnlyHusky | scripts/setup-semantic-release.mjs:162-214 | whatever its outcome, the migration touches no key but `husky` |
| SetupRelease.EditHooks | scripts/setup-semantic-release.mjs:162-194 | the in-memory edit yields the migrated package, or the error of a hook that cannot be migrated |
| SetupRelease.SaveAndMigrate | scripts/setup-semantic-release.mjs:196-213 | saves the package, installs and runs the migrator, and on either failure puts back the old `husky`, saves it and rethrows |
| SetupRelease.MigrateHusky | scripts/setup-semantic-release.mjs:162-214 | the client's package, log and outcome are those of the migration specification |
| SetupRelease.InitHusky | scripts/setup-semantic-release.mjs:155-160 | with `.husky/_` present nothing happens; otherwise `husky install` runs, a failure throws, and success creates `.husky/_` |
| SetupRelease.ConfigureClient | scripts/setup-semantic-release.mjs:152-220 | the rest of the run never exits with a code, and leaves `package.json` as it was or as the migration left it |
| SetupRelease.Setup | scripts/setup-semantic-release.mjs:131-220 | the gate exits with 0 touching nothing; past it, the `semantic-release` script is installed whatever follows, and no key but `scripts` and `husky` changes |
| SetupReleaseLegacy.AddPluginFrame | scripts/setup-semantic-release.js:34-45 | only the holder is added or changed, and only when it can take a key; every other key keeps its value |
| SetupReleaseLegacy.AddPluginInstalls | scripts/setup-semantic-release.js:24-45 | on a missing, falsy or object holder the exact value is installed, replacing a different one, and the holder keeps its other keys |
| SetupReleaseLegacy.AddPluginLostOnPrimitive | scripts/setup-semantic-release.js:39-41 | a truthy holder that is not an object never takes the setting and the file is rewritten unchanged |
| SetupReleaseLegacy.SettingKept | scripts/setup-semantic-release.js:24-45 | adding one setting keeps every other installed setting installed |
| SetupReleaseLegacy.InstallAllWritable | scripts/setup-semantic-release.js:39-41 | a holder that can take a key still can after any number of additions |
| SetupReleaseLegacy.InstallAllKeeps | scripts/setup-semantic-release.js:47-60 | an installed setting stays installed while the others are added |
| SetupReleaseLegacy.InstallAllInstalls | scripts/setup-semantic-release.js:47-60 | when every holder can take a key, the loop ends with every setting installed with its exact value, and keys that hold no setting are untouched |
| SetupReleaseLegacy.InstallAllNoop | scripts/setup-semantic-release.js:54-60 | a package that already has every setting is left as it is and not written |
| SetupReleaseLegacy.SettingsWellFormed | scripts/setup-semantic-release.js:47-53 | the six settings name distinct keys with non-empty values |
| SetupReleaseLegacy.SecondRunQuiet | scripts/setup-semantic-release.js:47-60 | a second run after a complete one prints and writes nothing |
| SetupReleaseLegacy.InstallSettings | scripts/setup-semantic-release.js:47-60 | the loop leaves the package and the printed lines the settings specification gives |
| SetupReleaseLegacy.InstallOne | scripts/setup-semantic-release.js:55-59 | one setting is announced, added and saved unless it is already there with its exact value |
| SetupReleaseLegacy.InstallAllStep | scripts/setup-semantic-release.js:54-60 | the loop handles the first remaining setting, then the ones after it |
| SetupReleaseLegacy.LegacySetup | scripts/setup-semantic-release.js:10-63 | without being a dependency and without `--force` it exits with 0 touching nothing; otherwise the settings are installed in order and the two hints printed |
| Json.Merge | bin/cmds/test_cmds/auto-compose.js:82-91 | `merge(defaults, extras)` keeps every default key, adds the extras' keys, keeps the defaults the extras do not touch, and deep-merges the ones they do |
| Json.MergeValueSelf | bin/cmds/test_cmds/auto-compose.js:82-91 | merging a value onto itself gives it back |
| Json.MergeOntoEmpty | bin/cmds/test_cmds/auto-compose.js:86-91 | an empty default array or object takes the overriding value as it is |
| Json.MergeArrayCovers | bin/cmds/test_cmds/auto_compose.js:60-69 | an overriding array at least as long as the default replaces every plain default entry |
| Json.SetIn | scripts/setup-semantic-release.mjs:111 | `set` adds the first key of the path and changes no other key |
| Json.SetPath | scripts/setup-semantic-release.mjs:111 | `set` on an object stays an object, and anything else is returned unchanged |
| Json.GetAfterSetIn | scripts/setup-semantic-release.mjs:102-111 | what `set` stores under a path, `get` reads back |
| Json.GetAfterSet | scripts/setup-semantic-release.mjs:102-111 | on an object, `get` after `set` on the same path returns the stored value |
| Text.ReplaceFirst | bin/cmds/test_cmds/run.js:124-125 | text without the pattern is unchanged; otherwise exactly the first occurrence of the pattern, at the first position where it starts, is replaced |
| Text.ReplaceFirstSelf | bin/cmds/test_cmds/run.js:124-125 | replacing the first occurrence of a pattern by the pattern itself gives the text back |
| Text.ReplaceAllAbsent | bin/cmds/docker_cmds/build.js:25-26 | a global replacement leaves text without the placeholder unchanged |
| Text.Trim | bin/cmds/test_cmds/compose.js:36-37 | the result is a slice of the input with only ECMAScript white space and line terminators around it, and it neither starts nor ends with white space |
| Text.TrimUntouched | bin/cmds/test_cmds/compose.js:36-37 | text that neither starts nor ends with white space is returned as it is |
| Text.Split | scripts/setup-semantic-release.mjs:20 | splitting yields at least one part and no part holds the separator |
| Text.SplitJoin | scripts/setup-semantic-release.mjs:20 | joining the parts with the separator gives the path back |

## Left out

- The effects themselves. Shell commands, file reads and writes, directory creation, copies and console output are log entries. Their results come from the shell oracle, which answers the same command the same way every time. `test init` is the exception: it changes the files of `TestInit.Workspace` directly and keeps no log.
- TestInit.CopyInto: the error shelljs `cp` prints when its template is missing or its target's directory does not exist is not recorded; as in the source, the copy changes nothing and the run goes on. Paths are compared as written, so `./test` and `test` are different directories to the model.
- Text rendering of documents: `js-yaml` dumps and `JSON.stringify(…, null, 2)` are logged as the document value, not as text. `InspectPromise.Inspect` takes `JSON.stringify` as a parameter.
- Host facts are parameters: `os.tmpdir()`, `process.cwd()`, hyperid's identifier, the platform separator, the package's own directory, and the parent directories of the global roots npm and pnpm report (`resolve(stdout, '../')`).
- `glob` and `path.normalize` are function parameters of `TestRun.Handler` and `TestRun.RemoveCommonPrefix`, because their algorithms are not part of this model.
- `path.join` and `path.resolve` are modelled as joining with `/`, without normalising `.` or `..` segments. The older setup script's `cwd/../../package.json` is kept unnormalised.
- `am-i-a-dependency`, used by the older setup script, is a parameter of `SetupReleaseLegacy.LegacySetup`.
- A client root missing because neither `INIT_CWD` nor `PWD` is set is modelled only in `SetupRelease.IsInstallingGlobally`. `SetupRelease.Setup` takes the root as given.
- `lodash.merge` is modelled for objects (key by key), arrays (index by index) and plain values (the source wins). lodash's special handling of a plain object merged onto an array, and of array-like or typed values, is not modelled.
- `lodash.get` and `lodash.set` are modelled on a path already split into keys. A holder or script name containing `.` or `[`, which lodash would split further, is not modelled.
- Json.SetIn: an intermediate value that is not an object is replaced by `{}`. lodash keeps an intermediate array and sets a named property on it, which `JSON.stringify` then drops; so a package whose `scripts` (or `.babelrc` whose `env.test`) is an array would, as written, save no added script or plugin, where the model saves an object holding it. lodash's creation of an array for an index-like next key is not modelled either; no path used here has one.
- Special `$` patterns in replacement strings of `String.prototype.replace` are not interpreted. Only `run.js`'s `<coverageDirectory>` and the Dockerfile placeholders are replaced by plain text; the husky `$1` is the literal text it produces.
- `Array.prototype.sort` compares UTF-16 code units. The model compares Dafny characters, which can order characters outside the basic multilingual plane differently.
- The concurrent branch of `loopThroughCmds` (`Promise.map` with a concurrency limit) is one abstract action, whose outcome is 128 exactly when some command fails. Interleaving and the order of output are not modelled.
- `run.js` checks `!results` on the result of `execAsync`. That result is always an object, so only a non-zero code stops the loop.
- Signal registration through `death` is the `RegisterCleanup` action. The teardown it triggers is modelled as a plan of actions for a given signal, code and set of flags.
- The husky migrator, its `npm i` and the temporary directory `tempy` creates and removes are seen only through the shell oracle and the `tmp` parameter.
- What `husky install` creates is modelled as `.husky` and `.husky/_` only.
- The per-hook "working on" lines and the printed `husky` objects of the migration are not in the log. Neither is the `debug` output anywhere.
- `package.json` is held parsed. A file that fails to parse is not modelled. The rollback's `JSON.parse(JSON.stringify(husky))` is taken to give the same value back.
- The order of `Object.entries` over the hooks is not modelled: every failing hook throws the same error, and maps carry no key order.
- DockerBuild.BuildArgs: the order in which `Object.entries` lists an object's keys fixes the order of the build arguments in the logged and executed command. Maps carry no insertion order, so that order is the `entries` parameter, constrained only to list each own key once with its value. JavaScript's own rule (index-like keys ascending, then the others in insertion order) is not modelled.
- Numbers are integers (`JNum(n: int)`). A fractional number in `docker_build_args` values, in compose extras or in `package.json` is not represented, and neither is the text `String(1.5)` gives it.
- SetupRelease.ExecaError: gives only the first line of execa's message, `Command failed with exit code N: cmd`. The stderr and stdout that execa appends to the thrown error's message are not modelled.
- `npmPath.set()` at bin/cmds/test_cmds/compose.js:19 prepends `node_modules/.bin` to `PATH` before `which('docker-compose')` runs. The model takes the result of `which` from the shell oracle, so it does not capture that a binary installed by an earlier run is found there first.
- shelljs `mkdir` is called without `-p` (bin/cmds/test_cmds/auto-compose.js:71, bin/cmds/test_cmds/compose.js:34). The `Mkdir` action does not carry the message it prints to stderr when the directory already exists or its parent is missing; the run goes on either way, as in the source.
- `fs.copyFile` failing for reasons other than a missing source, a directory target or a missing target directory (permissions, for example) is not modelled.
- A non-boolean `mustBeFulfilled` is not modelled: the parameter is absent, `true` or `false`.
- The configuration loading of the CLIs (cosmiconfig, find-up) is I/O. Only the choice between `require` and JSON parsing in `bin/cli.js` is modelled.
- Exit codes and counts are unbounded integers; no command here does arithmetic that could overflow.
- `bin/runner.js`, `bin/runner.mjs` and `bin/chrome.js` are not part of this model. Nor are `push.js`, `tag.js`, `release.js`, `get-config.js`, `bin.js`, `install.js`, `test.js` (apart from its option table) or the integration tests.
- AutoCompose.Handler: uses the intended registry guard, which rejects every name the registry does not hold. As written (bin/cmds/test_cmds/auto-compose.js:53-56), a name inherited from `Object.prototype` passes the guard: `constructor` and `toString` are then called and add nothing, and `hasOwnProperty`, `valueOf` and the like throw a TypeError. See Findings.
- AutoComposeLegacy.Handler: the same intended guard in place of bin/cmds/test_cmds/auto_compose.js:32-35, with the same consequences for `Object.prototype` names.
- ComposeSpec.AddServices: the loop shared by both handlers, with the intended guard; `ComposeSpec.RejectedAsWritten` and `ComposeSpec.InheritedNameAdmitted` state the guard as written.
- Cli.OptionDefaults: takes `package.json` as parsed. `read-pkg` normalises it first: a missing `name` becomes `""` (so the defaults exist, with an empty project), a `name` that is not a string or a version that is not valid semver makes it throw before the assertion, and the version is cleaned. None of this normalisation is modelled.
- TestRun.Handler: states the outcome and the tail of the log (everything after the compose step). The compose part of the log is stated by `ComposeLifecycle.Handler`, which it calls.
- SetupRelease.ConfigureClient: states that it never exits with a code and which `package.json` it leaves. The copies, the husky install and the log are stated by `CopyConfiguration`, `InitHusky` and `MigrateHusky`, which it calls in order.
- SetupRelease.Setup: past the gate, states the installed script and the keys left untouched. It does not state the whole log or the final files.

## Findings

| source | as written | input that shows it | evidently intended | confidence | as-written member | corrected member |
|---|---|---|---|---|---|---|
| bin/cmds/test_cmds/auto-compose.js:53-56 | `SERVICE_MAP[service] === undefined` (the same guard as auto_compose.js:32-35) also finds members inherited from `Object.prototype` | `services: ['constructor']` passes the guard; `Object` is then called on the document and adds nothing, so the name is silently accepted (likewise `toString`; `valueOf` or `hasOwnProperty` pass and then throw a TypeError) | only registered names pass; any other name throws "no support for …" | medium, not executed; the yargs `choices` list screens names given on the command line | ComposeSpec.InheritedNameAdmitted | AutoCompose.UnknownServiceRejected |
| scripts/setup-semantic-release.mjs:63-77, 216 | `copyConfiguration` looks only for the source name and its fallbacks, never for `renameTo` | a client with its own `.husky/commit-msg` and no `.husky/commit-msg.sample`: the sample is copied over the client's hook on every install | "do not overwrite": an existing target stops the copy | medium, not executed; `SetupRelease.CopyConfiguration` and the run follow the code as written | SetupRelease.SampleOverwritesHook | SetupRelease.CopyNeverOverwrites |
