/**
 * The parsed options of the `test` command group, and the host facts the test
 * commands read (working directory, temporary directory, generated id).
 * Options that no command handler assigns are immutable fields; the two that
 * handlers overwrite, `docker_compose` and `compose`, are mutable.
 */
module TestArgv {
  import opened Wrappers
  import opened Json

  datatype Options = Options(
    acv: string,                    // auto_compose_version
    isMutagen: bool,
    services: Option<seq<string>>,  // absent when the option is not given
    extras: map<string, Json>,
    testerImage: Option<string>,
    node: string,
    testerFlavour: string,
    project: string,
    autoCompose: bool,
    withLocalCompose: bool,
    dcf: bool,                      // docker_compose_force
    dcv: string,                    // docker_compose_version
    onFail: Option<string>,
    noCleanup: bool,
    tests: string,                  // the test glob
    rebuild: seq<string>,
    gyp: bool,
    sleep: int,                     // wait_before_tests
    root: string,
    testFramework: string,
    customRun: Option<string>,
    positional: seq<string>,        // argv._
    testArgs: string,
    pre: seq<string>,
    arbitraryExec: seq<string>,
    reportDir: string,
    nycCoverage: bool,
    parallel: int,
    coverage: Option<string>)

  /** Facts of the machine a command runs on. */
  datatype Host = Host(
    cwd: string,
    tmpdir: string,
    id: string,            // the id hyperid generates for this run
    packageRoot: string,   // the directory this package is installed in
    isWin: bool)

  /** A JavaScript `x || y` on an optional string: set and non-empty. */
  predicate Given(o: Option<string>) {
    o.Some? && o.value != ""
  }

  /** The `argv` object the test commands share. */
  class Argv {
    const opts: Options
    var dockerCompose: string     // argv.docker_compose
    var compose: Option<string>   // argv.compose, set by the compose command

    constructor (opts: Options, dockerCompose: string)
      ensures this.opts == opts && this.dockerCompose == dockerCompose && compose == None
    {
      this.opts := opts;
      this.dockerCompose := dockerCompose;
      compose := None;
    }
  }
}
