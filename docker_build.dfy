/**
 * `docker build`: name the image through the older docker command, write the
 * Dockerfile with its `$NODE_VERSION` and `$NODE_ENV` placeholders filled in
 * to a temporary file, run the optional `compile` script, build, remove the
 * temporary file and exit 1 when the build failed.
 */
module DockerBuild {
  import opened Wrappers
  import opened Json
  import opened Text
  import opened Effects
  import opened Docker

  const VersionPlaceholder := "$NODE_VERSION"
  const EnvPlaceholder := "$NODE_ENV"
  const CompileCmd := "npm run compile"
  const CompileError := "Error: failed to run compile"
  const BuildError := "Error: failed to build docker image"

  // ------------------------------------------------------------ Dockerfile

  /** The Dockerfile text: every `$NODE_VERSION` replaced by the node version, then every `$NODE_ENV` by the environment. */
  function Substitute(text: string, node: string, env: string): string {
    ReplaceAll(ReplaceAll(text, VersionPlaceholder, node), EnvPlaceholder, env)
  }

  /** A Dockerfile seen as plain text (without `$`) and placeholders. */
  datatype Piece = Plain(text: string) | NodeVersion | NodeEnv

  predicate PlainPieces(pieces: seq<Piece>) {
    forall i :: 0 <= i < |pieces| ==> pieces[i].Plain? ==> '$' !in pieces[i].text
  }

  /** The text the pieces spell. */
  function Render(pieces: seq<Piece>): string
    decreases |pieces|
  {
    if |pieces| == 0 then ""
    else
      (match pieces[0]
       case Plain(t) => t
       case NodeVersion => VersionPlaceholder
       case NodeEnv => EnvPlaceholder) + Render(pieces[1..])
  }

  /** The text with each placeholder standing for its value. */
  function Expand(pieces: seq<Piece>, node: string, env: string): string
    decreases |pieces|
  {
    if |pieces| == 0 then ""
    else
      (match pieces[0]
       case Plain(t) => t
       case NodeVersion => node
       case NodeEnv => env) + Expand(pieces[1..], node, env)
  }

  /** The pieces after the first pass: version placeholders have become the node version. */
  function FirstPass(pieces: seq<Piece>, node: string): (r: seq<Piece>)
    ensures |r| == |pieces|
    decreases |pieces|
  {
    if |pieces| == 0 then []
    else [if pieces[0].NodeVersion? then Plain(node) else pieces[0]] + FirstPass(pieces[1..], node)
  }

  /** Text without `$` holds no occurrence of a pattern that starts with `$`, and is copied through. */
  lemma {:induction false} ReplaceAllPlain(a: string, x: string, pat: string, rep: string)
    requires |pat| > 0 && pat[0] == '$' && '$' !in a
    ensures ReplaceAll(a + x, pat, rep) == a + ReplaceAll(x, pat, rep)
    decreases |a|
  {
    if |a| > 0 {
      assert !StartsWith(a + x, pat) by { assert (a + x)[0] == a[0]; }
      assert (a + x)[1..] == a[1..] + x;
      ReplaceAllPlain(a[1..], x, pat, rep);
      assert [a[0]] + a[1..] == a;
    } else {
      assert a + x == x;
    }
  }

  /** An occurrence of the pattern at the front is replaced, and scanning resumes after it. */
  lemma ReplaceAllFront(x: string, pat: string, rep: string)
    requires |pat| > 0
    ensures ReplaceAll(pat + x, pat, rep) == rep + ReplaceAll(x, pat, rep)
  {
    assert StartsWith(pat + x, pat) by { assert (pat + x)[..|pat|] == pat; }
    assert (pat + x)[|pat|..] == x;
  }

  /** The environment placeholder survives the version pass: the two differ at their seventh character. */
  lemma EnvSurvivesVersionPass(x: string, rep: string)
    ensures ReplaceAll(EnvPlaceholder + x, VersionPlaceholder, rep) == EnvPlaceholder + ReplaceAll(x, VersionPlaceholder, rep)
  {
    var s := EnvPlaceholder + x;
    assert !StartsWith(s, VersionPlaceholder) by {
      assert s[6] == 'E' && VersionPlaceholder[6] == 'V';
    }
    var tail := EnvPlaceholder[1..];
    assert s[1..] == tail + x;
    assert '$' !in tail by { assert tail == "NODE_ENV"; }
    ReplaceAllPlain(tail, x, VersionPlaceholder, rep);
    assert [EnvPlaceholder[0]] + tail == EnvPlaceholder;
  }

  lemma {:induction false} FirstPassRenders(pieces: seq<Piece>, node: string)
    requires PlainPieces(pieces)
    ensures ReplaceAll(Render(pieces), VersionPlaceholder, node) == Render(FirstPass(pieces, node))
    decreases |pieces|
  {
    if |pieces| == 0 {
    } else {
      var rest := Render(pieces[1..]);
      FirstPassRenders(pieces[1..], node);
      assert FirstPass(pieces, node)[1..] == FirstPass(pieces[1..], node);
      match pieces[0]
      case Plain(t) => ReplaceAllPlain(t, rest, VersionPlaceholder, node);
      case NodeVersion => ReplaceAllFront(rest, VersionPlaceholder, node);
      case NodeEnv => EnvSurvivesVersionPass(rest, node);
    }
  }

  lemma {:induction false} SecondPassExpands(pieces: seq<Piece>, node: string, env: string)
    requires PlainPieces(pieces) && '$' !in node
    ensures ReplaceAll(Render(FirstPass(pieces, node)), EnvPlaceholder, env) == Expand(pieces, node, env)
    decreases |pieces|
  {
    if |pieces| > 0 {
      var first := FirstPass(pieces, node);
      assert first[1..] == FirstPass(pieces[1..], node);
      var rest := Render(first[1..]);
      SecondPassExpands(pieces[1..], node, env);
      match pieces[0]
      case Plain(t) => ReplaceAllPlain(t, rest, EnvPlaceholder, env);
      case NodeVersion => ReplaceAllPlain(node, rest, EnvPlaceholder, env);
      case NodeEnv => ReplaceAllFront(rest, EnvPlaceholder, env);
    }
  }

  /**
   * Every placeholder of a Dockerfile whose other text has no `$` ends up as
   * its value, provided the node version brings no `$` of its own.
   */
  lemma PlaceholdersFilled(pieces: seq<Piece>, node: string, env: string)
    requires PlainPieces(pieces) && '$' !in node
    ensures Substitute(Render(pieces), node, env) == Expand(pieces, node, env)
  {
    FirstPassRenders(pieces, node);
    SecondPassExpands(pieces, node, env);
  }

  /** The version is substituted first: a node version that spells `$NODE_ENV` is then replaced by the environment. */
  lemma VersionBeforeEnv(env: string)
    ensures Substitute(VersionPlaceholder, EnvPlaceholder, env) == env
  {
    ReplaceAllFront("", VersionPlaceholder, EnvPlaceholder);
    assert VersionPlaceholder + "" == VersionPlaceholder;
    ReplaceAllFront("", EnvPlaceholder, env);
    assert EnvPlaceholder + "" == EnvPlaceholder;
  }

  // --------------------------------------------------------------- command

  /** The temporary Dockerfile: `Dockerfile.<project>` in the working directory. */
  function TmpDockerfile(cwd: string, project: string): string {
    cwd + "/Dockerfile." + project
  }

  /** `dba && typeof dba === 'object'`: a non-null object or an array. */
  predicate IsObject(dba: Option<Json>) {
    dba.Some? && (dba.value.JObj? || dba.value.JArr?)
  }

  /** One build argument: `--build-arg <key>=<value>`, the value rendered as a template string renders it. */
  function BuildArg(key: string, value: Json): string {
    "--build-arg " + key + "=" + ValueText(value)
  }

  /**
   * `es` is what `Object.entries(v)` yields for an object or an array: an array
   * lists its indices `"0"`, `"1"`, ... with its items in order; an object lists
   * each of its own keys exactly once, with the value it holds.
   */
  predicate ListsEntries(v: Json, es: seq<(string, Json)>) {
    match v
    case JArr(items) =>
      |es| == |items| && forall i :: 0 <= i < |es| ==> es[i] == (IntToString(i), items[i])
    case JObj(fields) =>
      |es| == |fields| &&
      (forall i :: 0 <= i < |es| ==> es[i].0 in fields && es[i].1 == fields[es[i].0]) &&
      (forall i, j :: 0 <= i < j < |es| ==> es[i].0 != es[j].0)
    case _ => es == []
  }

  /**
   * One `--build-arg key=value` per entry of the build arguments, in entry order,
   * when they are an object. `entries` is `Object.entries`; the order in which it
   * lists an object's keys is not carried by the map, so it is a parameter.
   */
  function BuildArgs(dba: Option<Json>, entries: Json -> seq<(string, Json)>): (args: seq<string>)
    requires IsObject(dba) ==> ListsEntries(dba.value, entries(dba.value))
    ensures !IsObject(dba) ==> args == []
    ensures IsObject(dba) ==> |args| == |entries(dba.value)|
    ensures IsObject(dba) && dba.value.JArr? ==>
      |args| == |dba.value.items| &&
      forall i :: 0 <= i < |args| ==> args[i] == BuildArg(IntToString(i), dba.value.items[i])
    ensures IsObject(dba) && dba.value.JObj? ==>
      |args| == |dba.value.fields| &&
      forall i :: 0 <= i < |args| ==>
        var key := entries(dba.value)[i].0;
        key in dba.value.fields && args[i] == BuildArg(key, dba.value.fields[key])
  {
    if IsObject(dba) then
      var es := entries(dba.value);
      seq(|es|, i requires 0 <= i < |es| => BuildArg(es[i].0, es[i].1))
    else []
  }

  /** A subset is no larger than its superset. */
  lemma {:induction false} SubsetSize(a: set<string>, b: set<string>)
    requires a <= b
    ensures |a| <= |b|
    decreases |b|
  {
    if a != {} {
      var x :| x in a;
      SubsetSize(a - {x}, b - {x});
    }
  }

  /** Keys listed without repetition, all from `keys`, and as many as `keys` holds, are all of `keys`. */
  lemma {:induction false} DistinctKeysCover(es: seq<(string, Json)>, keys: set<string>)
    requires forall i :: 0 <= i < |es| ==> es[i].0 in keys
    requires forall i, j :: 0 <= i < j < |es| ==> es[i].0 != es[j].0
    ensures |(set i | 0 <= i < |es| :: es[i].0)| == |es|
    ensures |es| == |keys| ==> (set i | 0 <= i < |es| :: es[i].0) == keys
    decreases |es|
  {
    var listed := set i | 0 <= i < |es| :: es[i].0;
    if |es| > 0 {
      var init := es[..|es| - 1];
      DistinctKeysCover(init, keys);
      var before := set i | 0 <= i < |init| :: init[i].0;
      assert listed == before + {es[|es| - 1].0};
      assert es[|es| - 1].0 !in before;
    }
    if |es| == |keys| {
      assert listed <= keys;
      if listed != keys {
        var missing :| missing in keys && missing !in listed;
        SubsetSize(listed, keys - {missing});
      }
    }
  }

  /**
   * Every own key of an object `docker_build_args` is passed exactly as
   * `--build-arg key=value`, and every index of an array with its item.
   */
  lemma EveryKeyPassed(dba: Option<Json>, entries: Json -> seq<(string, Json)>)
    requires IsObject(dba) && ListsEntries(dba.value, entries(dba.value))
    ensures dba.value.JObj? ==> forall k :: k in dba.value.fields ==>
      exists i :: 0 <= i < |BuildArgs(dba, entries)| && BuildArgs(dba, entries)[i] == BuildArg(k, dba.value.fields[k])
    ensures dba.value.JArr? ==> forall i :: 0 <= i < |dba.value.items| ==>
      BuildArg(IntToString(i), dba.value.items[i]) in BuildArgs(dba, entries)
  {
    var args := BuildArgs(dba, entries);
    if dba.value.JObj? {
      var fields := dba.value.fields;
      var es := entries(dba.value);
      DistinctKeysCover(es, fields.Keys);
      forall k | k in fields
        ensures exists i :: 0 <= i < |args| && args[i] == BuildArg(k, fields[k])
      {
        assert k in (set i | 0 <= i < |es| :: es[i].0);
        var i :| 0 <= i < |es| && es[i].0 == k;
        assert args[i] == BuildArg(k, fields[k]);
      }
    }
  }

  /** The fixed head of the argument list. */
  function BaseArgs(mainTag: string, tmp: string): seq<string> {
    ["docker build", "--squash", "-t " + mainTag, "-f " + tmp]
  }

  /** The build command: the arguments joined by spaces, then a space and the build context. */
  function BuildCommand(mainTag: string, tmp: string, extra: seq<string>, context: string): string {
    Join(BaseArgs(mainTag, tmp) + extra, " ") + " " + context
  }

  lemma HeadJoined(mainTag: string, tmp: string)
    ensures Join(BaseArgs(mainTag, tmp), " ") == "docker build --squash -t " + mainTag + " -f " + tmp
  {
    var head := BaseArgs(mainTag, tmp);
    assert head[1..][1..][1..] == ["-f " + tmp];
    assert Join(head[1..][1..], " ") == "-t " + mainTag + " " + "-f " + tmp;
    assert Join(head[1..], " ") == "--squash" + " " + ("-t " + mainTag + " " + "-f " + tmp);
  }

  /** The command names the main tag and the temporary file first, every build argument in order, and the context last. */
  lemma BuildCommandShape(mainTag: string, tmp: string, extra: seq<string>, context: string)
    ensures |extra| == 0 ==>
      BuildCommand(mainTag, tmp, extra, context) == "docker build --squash -t " + mainTag + " -f " + tmp + " " + context
    ensures |extra| > 0 ==>
      BuildCommand(mainTag, tmp, extra, context)
        == "docker build --squash -t " + mainTag + " -f " + tmp + " " + Join(extra, " ") + " " + context
  {
    var head := BaseArgs(mainTag, tmp);
    HeadJoined(mainTag, tmp);
    if |extra| == 0 {
      assert head + extra == head;
    } else {
      JoinConcat(head, extra, " ");
    }
  }

  /** What a build writes and runs, and how it ends. */
  function BuildRun(tmp: string, text: string, hasCompile: bool, cmd: string, shell: Shell): Run {
    var write := [WriteText(tmp, text)];
    if hasCompile && shell(CompileCmd).code != 0 then
      Run(Exited(1), write + [Exec(CompileCmd), Echo(CompileError)])
    else
      var compile := if hasCompile then [Exec(CompileCmd)] else [];
      var build := [Echo(cmd), Exec(cmd), Remove(tmp)];
      if shell(cmd).code != 0 then Run(Exited(1), write + compile + build + [Echo(BuildError)])
      else Run(Completed, write + compile + build)
  }

  /** A failed compile exits 1 before the build command is issued. */
  lemma CompileFailureStops(tmp: string, text: string, cmd: string, shell: Shell)
    requires shell(CompileCmd).code != 0
    ensures BuildRun(tmp, text, true, cmd, shell).outcome == Exited(1)
    ensures Exec(cmd) !in BuildRun(tmp, text, true, cmd, shell).log || cmd == CompileCmd
  {
  }

  /**
   * Once the build command runs, the temporary file is removed right after it,
   * whatever the build returned; the run then exits 1 exactly when the build failed.
   */
  lemma {:induction false} CleanupBeforeExit(tmp: string, text: string, hasCompile: bool, cmd: string, shell: Shell)
    requires !(hasCompile && shell(CompileCmd).code != 0)
    ensures var r := BuildRun(tmp, text, hasCompile, cmd, shell);
      exists i :: 0 <= i && i + 1 < |r.log| && r.log[i] == Exec(cmd) && r.log[i + 1] == Remove(tmp)
    ensures BuildRun(tmp, text, hasCompile, cmd, shell).outcome == (if shell(cmd).code != 0 then Exited(1) else Completed)
  {
    var r := BuildRun(tmp, text, hasCompile, cmd, shell);
    var i := if hasCompile then 3 else 2;
    assert r.log[i] == Exec(cmd) && r.log[i + 1] == Remove(tmp);
  }

  // --------------------------------------------------------------- handler

  /** The options of `docker build` besides those the naming reads. */
  datatype BuildOptions = BuildOptions(
    dockerFile: string,        // argv.docker_file
    env: string,               // argv.env
    scripts: Option<Json>,     // argv.pkg.scripts, None when absent
    buildArgs: Option<Json>,   // argv.docker_build_args
    context: string)           // argv.docker_context

  /** `argv.pkg.scripts.compile` can be read: `scripts` is neither absent nor `null`. */
  predicate ScriptsReadable(scripts: Option<Json>) {
    scripts.Some? && !scripts.value.JNull?
  }

  /** `argv.pkg.scripts.compile` is truthy: only an object can carry the property. */
  predicate HasCompile(scripts: Option<Json>) {
    scripts.Some? && scripts.value.JObj? && TruthyOpt(Field(scripts.value.fields, "compile"))
  }

  /** The error reading `compile` throws when `scripts` is absent or `null`. */
  function ScriptsError(scripts: Option<Json>): JsError {
    if scripts.None? then TypeError("Cannot read properties of undefined (reading 'compile')")
    else TypeError("Cannot read properties of null (reading 'compile')")
  }

  /**
   * The run after naming: without readable scripts the temporary Dockerfile is
   * written and the handler throws; otherwise it is the build run.
   */
  function ScriptsRun(tmp: string, text: string, scripts: Option<Json>, cmd: string, shell: Shell): (r: Run)
    ensures !ScriptsReadable(scripts) ==> r.outcome.Threw? && r.outcome.error.TypeError? && r.log == [WriteText(tmp, text)]
    ensures ScriptsReadable(scripts) ==> r == BuildRun(tmp, text, HasCompile(scripts), cmd, shell)
  {
    if !ScriptsReadable(scripts) then Run(Threw(ScriptsError(scripts)), [WriteText(tmp, text)])
    else BuildRun(tmp, text, HasCompile(scripts), cmd, shell)
  }

  /** Scripts that are not an object, such as a string, never run `compile`. */
  lemma NonObjectScriptsSkipCompile(tmp: string, text: string, scripts: Option<Json>, cmd: string, shell: Shell)
    requires ScriptsReadable(scripts) && !scripts.value.JObj?
    ensures Exec(CompileCmd) !in ScriptsRun(tmp, text, scripts, cmd, shell).log || cmd == CompileCmd
  {
    var r := ScriptsRun(tmp, text, scripts, cmd, shell);
    assert r == BuildRun(tmp, text, false, cmd, shell);
    if shell(cmd).code != 0 {
      assert r.log == [WriteText(tmp, text), Echo(cmd), Exec(cmd), Remove(tmp), Echo(BuildError)];
    } else {
      assert r.log == [WriteText(tmp, text), Echo(cmd), Exec(cmd), Remove(tmp)];
    }
  }

  /** `${mainTag}` for a main tag that may never have been derived. */
  function TagText(mainTag: Option<string>): string {
    if mainTag.Some? then mainTag.value else "undefined"
  }

  /** The argument list: the fixed head, then one build argument per entry, pushed in order. */
  method CollectArgs(mainTag: string, tmp: string, dba: Option<Json>, entries: Json -> seq<(string, Json)>)
    returns (args: seq<string>)
    requires IsObject(dba) ==> ListsEntries(dba.value, entries(dba.value))
    ensures args == BaseArgs(mainTag, tmp) + BuildArgs(dba, entries)
  {
    args := ["docker build", "--squash", "-t " + mainTag, "-f " + tmp];
    if IsObject(dba) {
      var es := entries(dba.value);
      ghost var spec := BuildArgs(dba, entries);
      for i := 0 to |es|
        invariant args == BaseArgs(mainTag, tmp) + spec[..i]
      {
        args := args + ["--build-arg " + es[i].0 + "=" + ValueText(es[i].1)];
        assert spec[..i + 1] == spec[..i] + [spec[i]];
      }
      assert spec[..|es|] == spec;
    } else {
      assert BaseArgs(mainTag, tmp) + [] == BaseArgs(mainTag, tmp);
    }
  }

  /**
   * The handler: the naming step may throw, and otherwise the run is the
   * build run of the substituted Dockerfile and the assembled command, with the
   * main tag as the naming left it on `argv`.
   */
  method Handler(docker: LegacyDockerCommand, argv: DockerArgv, opts: BuildOptions, cwd: string,
                 readFile: string -> string, entries: Json -> seq<(string, Json)>, shell: Shell)
    returns (r: Run)
    requires IsObject(opts.buildArgs) ==> ListsEntries(opts.buildArgs.value, entries(opts.buildArgs.value))
    modifies docker, argv
    ensures !old(docker.called) && !VersionIsString(argv.version) ==>
      r == Run(Threw(CheckVersion(argv.version).error), [])
    ensures old(docker.called) || VersionIsString(argv.version) ==>
      var tmp := TmpDockerfile(cwd, argv.project);
      var cmd := BuildCommand(TagText(argv.mainTag), tmp, BuildArgs(opts.buildArgs, entries), opts.context);
      r == ScriptsRun(tmp, Substitute(readFile(opts.dockerFile), argv.node, opts.env), opts.scripts, cmd, shell)
    ensures !old(docker.called) && VersionIsString(argv.version) ==>
      argv.Named() && argv.tags == Some(LegacyTags(argv.base.value, argv.includeNode, argv.node)) &&
      TagText(argv.mainTag) == Base(argv.repository, argv.project) + ":" +
        BaseTag(argv.includeNode, argv.node, argv.version.value.s)
    ensures old(docker.called) ==> unchanged(argv)
  {
    var named := docker.Handler(argv);
    if named.Threw? {
      return Run(named, []);
    }
    var tmp := cwd + "/Dockerfile." + argv.project;
    var dockerfile := ReplaceAll(ReplaceAll(readFile(opts.dockerFile), "$NODE_VERSION", argv.node), "$NODE_ENV", opts.env);
    var log := [WriteText(tmp, dockerfile)];
    if !ScriptsReadable(opts.scripts) {
      return Run(Threw(ScriptsError(opts.scripts)), log);
    }
    if HasCompile(opts.scripts) {
      var compiled := shell(CompileCmd);
      log := log + [Exec(CompileCmd)];
      if compiled.code != 0 {
        log := log + [Echo(CompileError)];
        return Run(Exited(1), log);
      }
    }
    var args := CollectArgs(TagText(argv.mainTag), tmp, opts.buildArgs, entries);
    var command := Join(args, " ") + " " + opts.context;
    log := log + [Echo(command)];
    var build := shell(command);
    log := log + [Exec(command), Remove(tmp)];
    if build.code != 0 {
      log := log + [Echo(BuildError)];
      return Run(Exited(1), log);
    }
    r := Run(Completed, log);
  }
}
