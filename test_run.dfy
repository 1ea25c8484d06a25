/**
 * The `test run` command: prepare compose, find and sort the test files,
 * start the containers, then run the set-up steps, the `pre` commands, the
 * arbitrary container commands, one command per test file, and the coverage
 * upload, stopping with exit code 128 at the first command that fails.
 */
module TestRun {
  import opened Wrappers
  import opened Text
  import opened Effects
  import opened TestArgv
  import ComposeLifecycle

  // removeCommonPrefix

  /**
   * `from` without the longest prefix it shares with `compareWith`: what is
   * left is a suffix of `from`, what is cut is a prefix of both, and the cut
   * stops at the end of either string or at the first differing character.
   */
  function StripCommonPrefix(from: string, compareWith: string): (r: string)
    ensures |r| <= |from| && r == from[|from| - |r|..]
    ensures |from| - |r| <= |compareWith| && from[..|from| - |r|] == compareWith[..|from| - |r|]
    ensures |r| > 0 ==> |from| - |r| == |compareWith| || from[|from| - |r|] != compareWith[|from| - |r|]
    decreases |from|
  {
    if |from| > 0 && |compareWith| > 0 && from[0] == compareWith[0] then
      var r := StripCommonPrefix(from[1..], compareWith[1..]);
      CommonPrefixStep(from, compareWith, r);
      r
    else from
  }

  /** One more shared first character keeps the three facts about what is cut. */
  lemma CommonPrefixStep(from: string, compareWith: string, r: string)
    requires |from| > 0 && |compareWith| > 0 && from[0] == compareWith[0]
    requires |r| <= |from| - 1 && r == from[1..][|from| - 1 - |r|..]
    requires |from| - 1 - |r| <= |compareWith| - 1 && from[1..][..|from| - 1 - |r|] == compareWith[1..][..|from| - 1 - |r|]
    requires |r| > 0 ==> |from| - 1 - |r| == |compareWith| - 1 || from[1..][|from| - 1 - |r|] != compareWith[1..][|from| - 1 - |r|]
    ensures r == from[|from| - |r|..]
    ensures |from| - |r| <= |compareWith| && from[..|from| - |r|] == compareWith[..|from| - |r|]
    ensures |r| > 0 ==> |from| - |r| == |compareWith| || from[|from| - |r|] != compareWith[|from| - |r|]
  {
    var k := |from| - |r|;
    assert from[1..][k - 1..] == from[k..];
    assert from[..k] == [from[0]] + from[1..][..k - 1];
    assert compareWith[..k] == [compareWith[0]] + compareWith[1..][..k - 1];
  }

  /** `removeCommonPrefix(from, compareWith)`; `normalize` is `path.normalize`. */
  method RemoveCommonPrefix(from: string, compareWith: string, normalize: string -> string) returns (r: string)
    ensures r == StripCommonPrefix(normalize(from), normalize(compareWith))
  {
    var i := 0;
    var normalizedFrom := normalize(from);
    var normalizedCompare := normalize(compareWith);
    assert normalizedFrom[0..] == normalizedFrom && normalizedCompare[0..] == normalizedCompare;
    while CharAt(normalizedFrom, i) == CharAt(normalizedCompare, i) && i < |normalizedFrom|
      invariant 0 <= i <= |normalizedFrom| && i <= |normalizedCompare|
      invariant StripCommonPrefix(normalizedFrom, normalizedCompare)
             == StripCommonPrefix(normalizedFrom[i..], normalizedCompare[i..])
      decreases |normalizedFrom| - i
    {
      assert normalizedFrom[i] == normalizedCompare[i] by {
        assert [normalizedFrom[i]] == CharAt(normalizedCompare, i);
      }
      assert normalizedFrom[i..][1..] == normalizedFrom[i + 1..];
      assert normalizedCompare[i..][1..] == normalizedCompare[i + 1..];
      i := i + 1;
    }
    r := normalizedFrom[i..];
  }

  /** Two equal paths leave nothing behind. */
  lemma EqualPathsLeaveNothing(p: string)
    ensures StripCommonPrefix(p, p) == ""
  {
  }

  /** Nothing is cut from a path that has no first character in common with the glob. */
  lemma DifferentStartKeepsAll(from: string, compareWith: string)
    requires |from| > 0 && (|compareWith| == 0 || from[0] != compareWith[0])
    ensures StripCommonPrefix(from, compareWith) == from
  {
  }

  // The command for one test file.

  /** The report directory for a test name: the name cut before its last '.', or nothing when it has none. */
  function CoverageDir(reportDir: string, testName: string): (dir: string)
    ensures '.' !in testName ==> dir == reportDir + "/"
    ensures '.' in testName ==> exists k :: (0 <= k < |testName| && testName[k] == '.' &&
      (forall j :: k < j < |testName| ==> testName[j] != '.') && dir == reportDir + "/" + testName[..k])
  {
    var k := LastIndexOf(testName, '.');
    reportDir + "/" + Substring(testName, 0, k)
  }

  /** `argv._` without its first two entries, then `test_args` when it is not empty. */
  function TestArgs(positional: seq<string>, testArgs: string): (args: seq<string>)
    ensures |args| == (if |positional| > 2 then |positional| - 2 else 0) + (if testArgs != "" then 1 else 0)
    ensures forall i :: 2 <= i < |positional| ==> args[i - 2] == positional[i]
    ensures testArgs != "" ==> args[|args| - 1] == testArgs
  {
    (if |positional| > 2 then positional[2..] else []) + (if testArgs != "" then [testArgs] else [])
  }

  function Runner(container: string): string {
    "docker exec " + container + " /bin/sh"
  }

  /** The name of a test file below the tests glob, both normalised first. */
  function TestName(opts: Options, normalize: string -> string, test: string): string {
    StripCommonPrefix(normalize(test), normalize(opts.tests))
  }

  /** `custom_run` followed by a space, or nothing when it is not given. */
  function CustomRunPrefix(opts: Options): (p: string)
    ensures !Given(opts.customRun) ==> p == ""
    ensures Given(opts.customRun) ==> |p| > 0 && p[|p| - 1] == ' ' && p[..|p| - 1] == opts.customRun.value
  {
    if Given(opts.customRun) then opts.customRun.value + " " else ""
  }

  /** The `nyc` invocation that writes coverage into `dir`; empty exactly when coverage is off. */
  function Coverage(opts: Options, dir: string): (cov: string)
    ensures cov == "" <==> !opts.nycCoverage
    ensures opts.nycCoverage ==> StartsWith(cov, opts.root + "/nyc") && EndsWith(cov, " --report-dir " + dir)
  {
    if opts.nycCoverage then
      var cov := opts.root + "/nyc" + " --report-dir " + dir;
      assert cov[..|opts.root + "/nyc"|] == opts.root + "/nyc";
      assert cov[|cov| - |" --report-dir " + dir|..] == " --report-dir " + dir;
      cov
    else ""
  }

  /** The test framework under the root, its first `<coverageDirectory>` replaced by `dir`. */
  function TestBinary(opts: Options, dir: string): (bin: string)
    ensures !Contains(opts.root + "/" + opts.testFramework, "<coverageDirectory>") ==>
      bin == opts.root + "/" + opts.testFramework
    ensures Contains(opts.root + "/" + opts.testFramework, "<coverageDirectory>") ==>
      |bin| == |opts.root + "/" + opts.testFramework| - |"<coverageDirectory>"| + |dir|
  {
    ReplaceFirst(opts.root + "/" + opts.testFramework, "<coverageDirectory>", dir)
  }

  /**
   * What the shell runs for one test file: `custom_run`, `cross-env` setting
   * the test environment, the coverage part, the test binary, the extra
   * arguments joined by spaces, then the file itself.
   */
  function TestLine(opts: Options, dir: string, args: seq<string>, test: string): string {
    LineHead(opts, dir, args) + " " + test
  }

  function LineHead(opts: Options, dir: string, args: seq<string>): string {
    CustomRunPrefix(opts) + opts.root + "/cross-env NODE_ENV=test " + Coverage(opts, dir) + " " +
      TestBinary(opts, dir) + " " + Join(args, " ")
  }

  /** `line` run by a shell inside the container, in double quotes. */
  function InContainer(container: string, line: string): (cmd: string)
    ensures StartsWith(cmd, Runner(container) + " -c \"")
    ensures EndsWith(cmd, line + "\"")
  {
    var head := Runner(container) + " -c \"";
    assert (head + line + "\"")[..|head|] == head;
    assert (head + line + "\"")[|head|..] == line + "\"";
    head + line + "\""
  }

  /** The shell command that runs one test file inside the tester container. */
  function TestCommand(opts: Options, container: string, args: seq<string>, normalize: string -> string,
                       test: string): (cmd: string)
    ensures cmd == InContainer(container, TestLine(opts, CoverageDir(opts.reportDir, TestName(opts, normalize, test)), args, test))
    ensures StartsWith(cmd, Runner(container) + " -c \"")
    ensures EndsWith(cmd, " " + test + "\"")
  {
    var dir := CoverageDir(opts.reportDir, TestName(opts, normalize, test));
    var line := TestLine(opts, dir, args, test);
    var cmd := InContainer(container, line);
    SuffixOfSuffix(cmd, line, LineHead(opts, dir, args), " ", test, "\"");
    cmd
  }

  lemma SuffixOfSuffix(s: string, line: string, a: string, sep: string, b: string, q: string)
    requires line == a + sep + b
    requires EndsWith(s, line + q)
    ensures EndsWith(s, sep + b + q)
  {
    var t := line + q;
    assert t == a + (sep + b + q);
    assert t[|t| - |sep + b + q|..] == sep + b + q;
  }

  /**
   * Without `nyc` coverage the command holds no coverage part: two spaces
   * separate `NODE_ENV=test` from the test binary.
   */
  lemma CommandWithoutCoverage(opts: Options, dir: string, args: seq<string>, test: string)
    requires !opts.nycCoverage
    ensures TestLine(opts, dir, args, test) ==
      CustomRunPrefix(opts) + opts.root + "/cross-env NODE_ENV=test  " + TestBinary(opts, dir) + " " +
      Join(args, " ") + " " + test
  {
    assert Coverage(opts, dir) == "";
  }

  // Sorting the test files.

  /** The order of `Array.prototype.sort` without a comparator: character by character, a prefix first. */
  predicate LessEq(a: string, b: string)
    decreases |a|
  {
    |a| == 0 || (|b| > 0 && (a[0] < b[0] || (a[0] == b[0] && LessEq(a[1..], b[1..]))))
  }

  lemma {:induction false} LessEqTotal(a: string, b: string)
    ensures LessEq(a, b) || LessEq(b, a)
    decreases |a|
  {
    if |a| > 0 && |b| > 0 && a[0] == b[0] {
      LessEqTotal(a[1..], b[1..]);
    }
  }

  predicate Sorted(s: seq<string>) {
    forall i, j :: 0 <= i < j < |s| ==> LessEq(s[i], s[j])
  }

  /** `x` placed before the first element it does not exceed. */
  function Insert(x: string, s: seq<string>): (r: seq<string>)
    requires Sorted(s)
    ensures Sorted(r)
    ensures multiset(r) == multiset(s) + multiset{x}
    decreases |s|
  {
    if |s| == 0 then [x]
    else if LessEq(x, s[0]) then
      LessEqTrans(x, s);
      [x] + s
    else
      LessEqTotal(x, s[0]);
      var rest := Insert(x, s[1..]);
      assert s == [s[0]] + s[1..];
      HeadBelow(s[0], rest, x, s[1..]);
      [s[0]] + rest
  }

  /** A sorted sequence stays sorted behind an element not above its first. */
  lemma LessEqTrans(x: string, s: seq<string>)
    requires Sorted(s) && |s| > 0 && LessEq(x, s[0])
    ensures Sorted([x] + s)
  {
    forall j | 0 < j < |s| ensures LessEq(x, s[j]) {
      LessEqChain(x, s[0], s[j]);
    }
  }

  lemma {:induction false} LessEqChain(a: string, b: string, c: string)
    requires LessEq(a, b) && LessEq(b, c)
    ensures LessEq(a, c)
    decreases |a|
  {
    if |a| > 0 && |b| > 0 && |c| > 0 && a[0] == b[0] && b[0] == c[0] {
      LessEqChain(a[1..], b[1..], c[1..]);
    }
  }

  /** `h` before a sorted sequence made of `x` and the rest of a sorted sequence headed by `h`. */
  lemma HeadBelow(h: string, rest: seq<string>, x: string, tail: seq<string>)
    requires Sorted([h] + tail) && Sorted(rest) && LessEq(h, x)
    requires multiset(rest) == multiset(tail) + multiset{x}
    ensures Sorted([h] + rest)
  {
    forall j | 0 <= j < |rest| ensures LessEq(h, rest[j]) {
      assert rest[j] in multiset(rest);
      if rest[j] != x {
        assert rest[j] in multiset(tail);
        var k :| 0 <= k < |tail| && tail[k] == rest[j];
        assert ([h] + tail)[0] == h && ([h] + tail)[k + 1] == rest[j];
      }
    }
  }

  /** `.sort()` on the file list: ordered, and the same files. */
  function Sort(s: seq<string>): (r: seq<string>)
    ensures Sorted(r)
    ensures multiset(r) == multiset(s)
    decreases |s|
  {
    if |s| == 0 then []
    else
      assert s == [s[0]] + s[1..];
      Insert(s[0], Sort(s[1..]))
  }

  // loopThroughCmds

  function FailMessage(command: string): string {
    "failed to run " + command + ", exiting 128..."
  }

  /** The commands `makeCmd` gives for the items, in item order. */
  function Commands(items: seq<string>, makeCmd: string -> string): (cmds: seq<string>)
    ensures |cmds| == |items| && forall i :: 0 <= i < |items| ==> cmds[i] == makeCmd(items[i])
  {
    seq(|items|, i requires 0 <= i < |items| => makeCmd(items[i]))
  }

  /**
   * The sequential loop: each command is printed and run in order; the first
   * one that fails is reported and ends the process with code 128.
   */
  function Loop(cmds: seq<string>, shell: Shell): (r: Run)
    ensures r.outcome == Completed || r.outcome == Exited(128)
    ensures r.outcome == Completed <==> forall i :: 0 <= i < |cmds| ==> shell(cmds[i]).code == 0
    ensures r.outcome == Completed ==> r.log == EchoExec(cmds)
    decreases |cmds|
  {
    if |cmds| == 0 then Run(Completed, [])
    else if shell(cmds[0]).code != 0 then Run(Exited(128), [Echo(cmds[0]), Exec(cmds[0]), Echo(FailMessage(cmds[0]))])
    else
      var rest := Loop(cmds[1..], shell);
      assert forall i :: 1 <= i < |cmds| ==> cmds[i] == cmds[1..][i - 1];
      Run(rest.outcome, [Echo(cmds[0]), Exec(cmds[0])] + rest.log)
  }

  /** Nothing after the first failing command runs: the log stops with its failure message. */
  lemma {:induction false} LoopStopsAtFirstFailure(cmds: seq<string>, shell: Shell, j: nat)
    requires j < |cmds| && shell(cmds[j]).code != 0
    requires forall i :: 0 <= i < j ==> shell(cmds[i]).code == 0
    ensures Loop(cmds, shell) == Run(Exited(128), EchoExec(cmds[..j + 1]) + [Echo(FailMessage(cmds[j]))])
    decreases j
  {
    if j > 0 {
      LoopStopsAtFirstFailure(cmds[1..], shell, j - 1);
      assert cmds[..j + 1] == [cmds[0]] + cmds[1..][..j];
    } else {
      assert cmds[..1] == [cmds[0]];
    }
  }

  /** The concurrent branch, kept abstract: the commands are started together and any failure exits 128. */
  function Concurrent(cmds: seq<string>, limit: int, shell: Shell): Run {
    Run(if forall i :: 0 <= i < |cmds| ==> shell(cmds[i]).code == 0 then Completed else Exited(128),
        [ExecConcurrently(cmds, limit)])
  }

  function LoopThrough(items: seq<string>, makeCmd: string -> string, concurrency: int, shell: Shell): Run {
    if concurrency > 1 then Concurrent(Commands(items, makeCmd), concurrency, shell)
    else Loop(Commands(items, makeCmd), shell)
  }

  /** `loopThroughCmds(items, makeCmd, concurrency)`. */
  method LoopThroughCmds(items: seq<string>, makeCmd: string -> string, concurrency: int, shell: Shell)
    returns (outcome: Outcome, actions: seq<Action>)
    ensures Run(outcome, actions) == LoopThrough(items, makeCmd, concurrency, shell)
  {
    var cmds := Commands(items, makeCmd);
    if concurrency > 1 {
      return Concurrent(cmds, concurrency, shell).outcome, [ExecConcurrently(cmds, concurrency)];
    }
    actions := [];
    assert cmds[0..] == cmds;
    for i := 0 to |items|
      invariant Loop(cmds, shell) == Then(Run(Completed, actions), Loop(cmds[i..], shell))
    {
      var command := makeCmd(items[i]);
      assert command == cmds[i..][0];
      assert cmds[i..][1..] == cmds[i + 1..];
      var results := shell(command);
      ghost var before := actions;
      actions := actions + [Echo(command), Exec(command)];
      if results.code != 0 {
        assert Loop(cmds[i..], shell) == Run(Exited(128), [Echo(command), Exec(command), Echo(FailMessage(command))]);
        actions := actions + [Echo(FailMessage(command))];
        assert actions == before + [Echo(command), Exec(command), Echo(FailMessage(command))];
        return Exited(128), actions;
      }
    }
    assert cmds[|items|..] == [];
    outcome := Completed;
  }

  // The phases after the containers are up.

  function ExecIn(container: string, cmd: string): string {
    "docker exec " + container + " " + cmd
  }

  function RebuildCmd(container: string, name: string): string {
    "docker exec " + container + " npm rebuild " + name
  }

  /** The default `makeCmd`: each item is its own command. */
  function Itself(cmd: string): string {
    cmd
  }

  function ExecInFor(container: string): string -> string {
    cmd => ExecIn(container, cmd)
  }

  function RebuildFor(container: string): string -> string {
    name => RebuildCmd(container, name)
  }

  /** Commands run without printing them, their results ignored. */
  function Execs(cmds: seq<string>): (log: seq<Action>)
    ensures |log| == |cmds| && forall i :: 0 <= i < |cmds| ==> log[i] == Exec(cmds[i])
  {
    seq(|cmds|, i requires 0 <= i < |cmds| => Exec(cmds[i]))
  }

  /** The module rebuilds, the node-gyp build and the wait; nothing here can stop the run. */
  function SetupLog(opts: Options, container: string): seq<Action> {
    (if |opts.rebuild| > 0 then [Echo("rebuilding modules")] + Execs(Commands(opts.rebuild, RebuildFor(container))) else [])
    + (if opts.gyp then [Exec("docker exec " + container + " node-gyp configure"), Exec("docker exec " + container + " node-gyp build")] else [])
    + (if opts.sleep != 0 then [Echo("sleep " + IntToString(opts.sleep)), Exec("sleep " + IntToString(opts.sleep))] else [])
  }

  function CoverageCmd(coverage: string): string {
    coverage + " > /dev/null 2>1"
  }

  function CoverageLog(opts: Options): seq<Action> {
    if Given(opts.coverage) then [Echo(CoverageCmd(opts.coverage.value)), Exec(CoverageCmd(opts.coverage.value))] else []
  }

  function MakeTest(opts: Options, container: string, normalize: string -> string): string -> string {
    test => TestCommand(opts, container, TestArgs(opts.positional, opts.testArgs), normalize, test)
  }

  /** `pre`, then the container commands, then one command per test file, then the coverage upload. */
  function Phases(opts: Options, container: string, files: seq<string>, shell: Shell, normalize: string -> string): Run {
    Then(LoopThrough(opts.pre, Itself, 1, shell),
      Then(LoopThrough(opts.arbitraryExec, ExecInFor(container), 1, shell),
        Then(LoopThrough(files, MakeTest(opts, container, normalize), opts.parallel, shell),
          Run(Completed, CoverageLog(opts)))))
  }

  function UpCmd(compose: string): string {
    compose + " up -d"
  }

  function PsCmd(compose: string): string {
    compose + " ps -q tester"
  }

  function FoundMessage(n: nat): string {
    "Found " + NatToString(n) + " test files"
  }

  /** Everything the handler does once compose is prepared, given the sorted test files. */
  function AfterCompose(opts: Options, compose: string, files: seq<string>, shell: Shell, normalize: string -> string): Run {
    if |files| == 0 then Run(Exited(1), [Echo("No test files found. Exit 1")])
    else
      var start := [Echo(FoundMessage(|files|)), Echo(UpCmd(compose)), Exec(UpCmd(compose))];
      if shell(UpCmd(compose)).code != 0 then
        Run(Exited(128), start + [Echo("failed to start docker containers. Exit 128")])
      else if shell(PsCmd(compose)).code != 0 then
        Run(Exited(128), start + [Echo(PsCmd(compose)), Exec(PsCmd(compose)), Echo("failed to get container id. Exit 128")])
      else
        var container := Trim(shell(PsCmd(compose)).stdout);
        Then(Run(Completed, StartLog(compose, |files|) + SetupLog(opts, container)),
             Phases(opts, container, files, shell, normalize))
  }

  /**
   * `handler`: `found` and `shell` as for compose, `glob` lists the files a
   * pattern matches and `normalize` is `path.normalize`.
   */
  method Handler(argv: Argv, host: Host, found: Option<string>, shell: Shell,
                 glob: string -> seq<string>, normalize: string -> string)
    returns (outcome: Outcome, actions: seq<Action>)
    modifies argv`dockerCompose, argv`compose
    ensures !ComposeLifecycle.Completes(argv.opts, host, found, shell) ==> !outcome.Completed?
    ensures ComposeLifecycle.Completes(argv.opts, host, found, shell) ==>
      var r := AfterCompose(argv.opts, ComposeLifecycle.ComposeCommand(argv.opts, host, found, shell, old(argv.dockerCompose)),
                            Sort(glob(argv.opts.tests)), shell, normalize);
      outcome == r.outcome && |r.log| <= |actions| && actions[|actions| - |r.log|..] == r.log
  {
    ComposeLifecycle.GeneratedRun(argv.opts, host, found, shell, argv.dockerCompose, argv.compose);
    outcome, actions := ComposeLifecycle.Handler(argv, host, found, shell);
    if outcome != Completed {
      return;
    }
    var compose := argv.compose.value;
    var testFiles := Sort(glob(argv.opts.tests));
    var r := Steps(argv.opts, compose, testFiles, shell, normalize);
    outcome := r.outcome;
    actions := actions + r.log;
  }

  /** The handler's body after the compose command has run. */
  method Steps(opts: Options, compose: string, testFiles: seq<string>, shell: Shell, normalize: string -> string)
    returns (r: Run)
    ensures r == AfterCompose(opts, compose, testFiles, shell, normalize)
  {
    if |testFiles| == 0 {
      return Run(Exited(1), [Echo("No test files found. Exit 1")]);
    }
    var up := shell(UpCmd(compose));
    var log := [Echo(FoundMessage(|testFiles|)), Echo(UpCmd(compose)), Exec(UpCmd(compose))];
    if up.code != 0 {
      return Run(Exited(128), log + [Echo("failed to start docker containers. Exit 128")]);
    }

    var containerData := shell(PsCmd(compose));
    var ps := [Echo(PsCmd(compose)), Exec(PsCmd(compose))];
    if containerData.code != 0 {
      return Run(Exited(128), log + ps + [Echo("failed to get container id. Exit 128")]);
    }
    var container := Trim(containerData.stdout);

    var setup := Setup(opts, container);
    var phases := RunPhases(opts, container, testFiles, shell, normalize);
    assert log + ps == StartLog(compose, |testFiles|);
    Started(opts, compose, testFiles, shell, normalize, container);
    r := Then(Run(Completed, log + ps + setup), phases);
  }

  /** The set-up steps, one after another; their results are not looked at. */
  method Setup(opts: Options, container: string) returns (log: seq<Action>)
    ensures log == SetupLog(opts, container)
  {
    log := [];
    if |opts.rebuild| > 0 {
      log := log + [Echo("rebuilding modules")];
      var rebuilds := Commands(opts.rebuild, RebuildFor(container));
      for i := 0 to |opts.rebuild|
        invariant log == [Echo("rebuilding modules")] + Execs(rebuilds[..i])
      {
        assert rebuilds[..i + 1] == rebuilds[..i] + [RebuildCmd(container, opts.rebuild[i])];
        log := log + [Exec(RebuildCmd(container, opts.rebuild[i]))];
      }
      assert rebuilds[..|opts.rebuild|] == rebuilds;
    }
    if opts.gyp {
      log := log + [Exec("docker exec " + container + " node-gyp configure")];
      log := log + [Exec("docker exec " + container + " node-gyp build")];
    }
    if opts.sleep != 0 {
      log := log + [Echo("sleep " + IntToString(opts.sleep)), Exec("sleep " + IntToString(opts.sleep))];
    }
  }

  /** The three command loops and the coverage upload, each loop only after the previous one completed. */
  method RunPhases(opts: Options, container: string, files: seq<string>, shell: Shell, normalize: string -> string)
    returns (r: Run)
    ensures r == Phases(opts, container, files, shell, normalize)
  {
    var outcome, log := LoopThroughCmds(opts.pre, Itself, 1, shell);
    var pre := Run(outcome, log);
    if outcome != Completed {
      return pre;
    }
    outcome, log := LoopThroughCmds(opts.arbitraryExec, ExecInFor(container), 1, shell);
    var execs := Run(outcome, log);
    if outcome != Completed {
      return Then(pre, execs);
    }
    outcome, log := LoopThroughCmds(files, MakeTest(opts, container, normalize), opts.parallel, shell);
    var tests := Run(outcome, log);
    if outcome != Completed {
      return Then(pre, Then(execs, tests));
    }
    var coverage := [];
    if Given(opts.coverage) {
      coverage := [Echo(CoverageCmd(opts.coverage.value)), Exec(CoverageCmd(opts.coverage.value))];
    }
    r := Then(pre, Then(execs, Then(tests, Run(Completed, coverage))));
  }

  // Properties of the plan.

  /** Without test files the run exits with 1 before any container command. */
  lemma NoTestFilesExits(opts: Options, compose: string, shell: Shell, normalize: string -> string)
    ensures AfterCompose(opts, compose, [], shell, normalize) == Run(Exited(1), [Echo("No test files found. Exit 1")])
  {
  }

  /** A failing `up -d` exits with 128 and nothing is asked of the containers afterwards. */
  lemma StartFailureExits(opts: Options, compose: string, files: seq<string>, shell: Shell, normalize: string -> string)
    requires |files| > 0 && shell(UpCmd(compose)).code != 0
    ensures AfterCompose(opts, compose, files, shell, normalize).outcome == Exited(128)
    ensures Exec(PsCmd(compose)) !in AfterCompose(opts, compose, files, shell, normalize).log
  {
    assert |UpCmd(compose)| != |PsCmd(compose)|;
  }

  /**
   * When `ps -q tester` fails the run exits with 128 and ends with its message;
   * no test command reaches the shell.
   */
  lemma PsFailureExits(opts: Options, compose: string, files: seq<string>, shell: Shell, normalize: string -> string)
    requires |files| > 0 && shell(UpCmd(compose)).code == 0 && shell(PsCmd(compose)).code != 0
    ensures var r := AfterCompose(opts, compose, files, shell, normalize);
      r.outcome == Exited(128) && r.log[|r.log| - 1] == Echo("failed to get container id. Exit 128") &&
      forall a :: a in r.log && a.Exec? ==> a.cmd == UpCmd(compose) || a.cmd == PsCmd(compose)
  {
  }

  /** Once the container id is known, the outcome is decided by the command loops alone. */
  lemma SetupNeverStops(opts: Options, compose: string, files: seq<string>, shell: Shell, normalize: string -> string)
    requires |files| > 0 && shell(UpCmd(compose)).code == 0 && shell(PsCmd(compose)).code == 0
    ensures AfterCompose(opts, compose, files, shell, normalize).outcome
         == Phases(opts, Trim(shell(PsCmd(compose)).stdout), files, shell, normalize).outcome
  {
  }

  /** A loop whose every command succeeds prints and runs them all, in order. */
  lemma LoopCompletes(items: seq<string>, makeCmd: string -> string, shell: Shell)
    requires forall i :: 0 <= i < |items| ==> shell(makeCmd(items[i])).code == 0
    ensures LoopThrough(items, makeCmd, 1, shell) == Run(Completed, EchoExec(Commands(items, makeCmd)))
  {
    var cmds := Commands(items, makeCmd);
    assert forall i :: 0 <= i < |cmds| ==> shell(cmds[i]).code == 0;
  }

  lemma ItselfCommands(items: seq<string>)
    ensures Commands(items, Itself) == items
  {
  }

  /** When every loop command succeeds and the tests run one at a time, each loop prints and runs all its commands. */
  lemma PhasesSucceed(opts: Options, container: string, files: seq<string>, shell: Shell, normalize: string -> string)
    requires opts.parallel <= 1
    requires forall i :: 0 <= i < |opts.pre| ==> shell(Itself(opts.pre[i])).code == 0
    requires forall i :: 0 <= i < |opts.arbitraryExec| ==> shell(ExecInFor(container)(opts.arbitraryExec[i])).code == 0
    requires forall i :: 0 <= i < |files| ==> shell(MakeTest(opts, container, normalize)(files[i])).code == 0
    ensures Phases(opts, container, files, shell, normalize)
         == Run(Completed, EchoExec(opts.pre)
                           + EchoExec(Commands(opts.arbitraryExec, ExecInFor(container)))
                           + EchoExec(Commands(files, MakeTest(opts, container, normalize)))
                           + CoverageLog(opts))
  {
    LoopsSucceed(opts.pre, opts.arbitraryExec, files, ExecInFor(container), MakeTest(opts, container, normalize),
                 opts.parallel, CoverageLog(opts), shell);
  }

  /** The three sequential loops and a tail, for any command builders, when every command succeeds. */
  lemma LoopsSucceed(pre: seq<string>, execs: seq<string>, files: seq<string>, exec: string -> string, test: string -> string,
                     parallel: int, tail: seq<Action>, shell: Shell)
    requires parallel <= 1
    requires forall i :: 0 <= i < |pre| ==> shell(Itself(pre[i])).code == 0
    requires forall i :: 0 <= i < |execs| ==> shell(exec(execs[i])).code == 0
    requires forall i :: 0 <= i < |files| ==> shell(test(files[i])).code == 0
    ensures Then(LoopThrough(pre, Itself, 1, shell),
              Then(LoopThrough(execs, exec, 1, shell),
                Then(LoopThrough(files, test, parallel, shell), Run(Completed, tail))))
         == Run(Completed, EchoExec(pre) + EchoExec(Commands(execs, exec)) + EchoExec(Commands(files, test)) + tail)
  {
    var a, b, c := EchoExec(pre), EchoExec(Commands(execs, exec)), EchoExec(Commands(files, test));
    LoopCompletes(pre, Itself, shell);
    ItselfCommands(pre);
    LoopCompletes(execs, exec, shell);
    LoopCompletes(files, test, shell);
    assert LoopThrough(files, test, parallel, shell) == Run(Completed, c);
    NestedLogsAssociate(a, b, c, tail);
  }

  /** Once the containers are up and their id known, the set-up steps are logged and the phases follow. */
  lemma Started(opts: Options, compose: string, files: seq<string>, shell: Shell, normalize: string -> string,
                container: string)
    requires |files| > 0 && shell(UpCmd(compose)).code == 0 && shell(PsCmd(compose)).code == 0
    requires container == Trim(shell(PsCmd(compose)).stdout)
    ensures AfterCompose(opts, compose, files, shell, normalize)
      == Then(Run(Completed, StartLog(compose, |files|) + SetupLog(opts, container)),
              Phases(opts, container, files, shell, normalize))
  {
  }

  /** The count of files, then `up -d` and `ps -q tester`, each printed and run. */
  function StartLog(compose: string, n: nat): seq<Action> {
    [Echo(FoundMessage(n)), Echo(UpCmd(compose)), Exec(UpCmd(compose)), Echo(PsCmd(compose)), Exec(PsCmd(compose))]
  }

  /**
   * When every command succeeds and the tests run one at a time, the phases
   * come in the order rebuild, gyp, sleep, pre, arbitrary_exec, tests, coverage.
   */
  lemma PhaseOrder(opts: Options, compose: string, files: seq<string>, shell: Shell, normalize: string -> string,
                   container: string)
    requires |files| > 0 && shell(UpCmd(compose)).code == 0 && shell(PsCmd(compose)).code == 0
    requires container == Trim(shell(PsCmd(compose)).stdout)
    requires opts.parallel <= 1
    requires forall i :: 0 <= i < |opts.pre| ==> shell(Itself(opts.pre[i])).code == 0
    requires forall i :: 0 <= i < |opts.arbitraryExec| ==> shell(ExecInFor(container)(opts.arbitraryExec[i])).code == 0
    requires forall i :: 0 <= i < |files| ==> shell(MakeTest(opts, container, normalize)(files[i])).code == 0
    ensures AfterCompose(opts, compose, files, shell, normalize)
      == Run(Completed, StartLog(compose, |files|)
                        + SetupLog(opts, container)
                        + EchoExec(opts.pre)
                        + EchoExec(Commands(opts.arbitraryExec, ExecInFor(container)))
                        + EchoExec(Commands(files, MakeTest(opts, container, normalize)))
                        + CoverageLog(opts))
  {
    Started(opts, compose, files, shell, normalize, container);
    PhasesSucceed(opts, container, files, shell, normalize);
    var head := StartLog(compose, |files|) + SetupLog(opts, container);
    var a, b, c, d := EchoExec(opts.pre), EchoExec(Commands(opts.arbitraryExec, ExecInFor(container))),
                      EchoExec(Commands(files, MakeTest(opts, container, normalize))), CoverageLog(opts);
    var phases := Phases(opts, container, files, shell, normalize);
    assert phases == Run(Completed, a + b + c + d);
    assert Then(Run(Completed, head), phases) == Run(Completed, head + (a + b + c + d));
    LogsAssociate(head, a, b, c, d);
  }

  lemma NestedLogsAssociate(a: seq<Action>, b: seq<Action>, c: seq<Action>, d: seq<Action>)
    ensures a + (b + (c + d)) == a + b + c + d
  {
  }

  lemma LogsAssociate(head: seq<Action>, a: seq<Action>, b: seq<Action>, c: seq<Action>, d: seq<Action>)
    ensures head + (a + b + c + d) == head + a + b + c + d
  {
  }
}
