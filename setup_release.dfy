/**
 * The postinstall script that wires a client project for releases: it decides
 * whether it runs as a dependency of some other project, installs the
 * `semantic-release` script into the client's `package.json`, copies the
 * release and commit-lint configuration, and migrates a husky 4 hook
 * configuration to husky 8, restoring the old configuration when that fails.
 */
module SetupRelease {
  import opened Wrappers
  import opened Json
  import opened Text
  import opened Effects

  // ---------------------------------------------------------------------------
  // When the script does its work

  const NodeModules := "node_modules"

  /**
   * `amIaDependency()`: the package directory (the parent of the script's own
   * directory) sits right inside a `node_modules` directory, or inside a scope
   * directory there. Paths are split at `/`.
   */
  function AmIaDependency(packageDir: string): bool {
    var parts := Split(packageDir, '/');
    var parent := if |parts| >= 2 then Some(parts[|parts| - 2]) else None;
    var scopedParent := if |parts| >= 3 then Some(parts[|parts| - 3]) else None;
    parent == Some(NodeModules) || scopedParent == Some(NodeModules)
  }

  /** A package installed as `<prefix>/node_modules/<name>` is a dependency. */
  lemma InstalledUnscoped(prefix: string, name: string)
    requires '/' !in name
    ensures AmIaDependency(prefix + "/node_modules/" + name)
  {
    var path := prefix + "/node_modules/" + name;
    assert path == prefix + ['/'] + (NodeModules + ['/'] + name);
    SplitAround(prefix, NodeModules + ['/'] + name, '/');
    SplitConcat(NodeModules, name, '/');
    SplitNoSeparator(name, '/');
    var parts := Split(path, '/');
    assert parts == Split(prefix, '/') + [NodeModules, name];
    assert parts[|parts| - 2] == NodeModules;
  }

  /** A package installed as `<prefix>/node_modules/<@scope>/<name>` is a dependency. */
  lemma InstalledScoped(prefix: string, scope: string, name: string)
    requires '/' !in scope && '/' !in name
    ensures AmIaDependency(prefix + "/node_modules/" + scope + "/" + name)
  {
    var rest := NodeModules + ['/'] + (scope + ['/'] + name);
    assert Split(rest, '/') == [NodeModules, scope, name] by {
      SplitConcat(NodeModules, scope + ['/'] + name, '/');
      SplitConcat(scope, name, '/');
      SplitNoSeparator(name, '/');
    }
    var path := prefix + "/node_modules/" + scope + "/" + name;
    assert path == prefix + ['/'] + rest;
    SplitAround(prefix, rest, '/');
    var parts := Split(path, '/');
    assert parts[|parts| - 3] == NodeModules;
  }

  /** A checkout at `/<dir>/<name>`, outside any `node_modules`, is not a dependency. */
  lemma TopLevelCheckout(dir: string, name: string)
    requires '/' !in dir && '/' !in name && dir != NodeModules
    ensures !AmIaDependency("/" + dir + "/" + name)
  {
    var path := "/" + dir + "/" + name;
    assert path == "" + ['/'] + (dir + ['/'] + name);
    SplitAround("", dir + ['/'] + name, '/');
    SplitConcat(dir, name, '/');
    SplitNoSeparator(name, '/');
    assert Split(path, '/') == ["", dir, name];
  }

  /**
   * `isInstallingGlobally()`: the client root is the global directory of npm
   * or of pnpm, that is the parent directory of the global root the package
   * manager reports (`<manager> -g root`). A global directory is `None` when
   * asking the package manager failed, and the client root is `None` when
   * neither `INIT_CWD` nor `PWD` is set.
   */
  function IsInstallingGlobally(npmGlobal: Option<string>, pnpmGlobal: Option<string>, root: Option<string>): (r: bool)
    ensures r ==> root.Some?
    ensures root.Some? ==> (r <==> npmGlobal == root || pnpmGlobal == root)
  {
    root.Some? && (npmGlobal == root || pnpmGlobal == root)
  }

  /**
   * The gate: without `--force` the script stops with exit code 0 when it is
   * not a dependency, when it is installed globally, or when the client root
   * has no `.git` (a package inside a monorepo).
   */
  function ExitsEarly(isDependency: bool, isGlobal: bool, isMonorepo: bool, isForced: bool): (r: bool)
    ensures isForced ==> !r
    ensures !isForced ==> (r <==> !isDependency || isGlobal || isMonorepo)
  {
    (!isDependency || isGlobal || isMonorepo) && !isForced
  }

  /** `--force` anywhere among the arguments. */
  function IsForced(args: seq<string>): (r: bool)
    ensures r <==> exists i :: 0 <= i < |args| && args[i] == "--force"
  {
    "--force" in args
  }

  // ---------------------------------------------------------------------------
  // package.json scripts

  /** `get(pkg, holder)[scriptName]`: only an object holder has named keys. */
  function KeyOf(holder: Option<Json>, key: string): Option<Json> {
    if holder.Some? && holder.value.JObj? then Field(holder.value.fields, key) else None
  }

  /** `alreadyInstalled`: the holder is present and truthy and the key in it is truthy. */
  predicate AlreadyInstalled(pkg: map<string, Json>, scriptName: string, holder: string) {
    TruthyOpt(Field(pkg, holder)) && TruthyOpt(KeyOf(Field(pkg, holder), scriptName))
  }

  /** `set(pkg, `${holder}.${scriptName}`, script)`; a holder that is not an object becomes one. */
  function WithPlugin(pkg: map<string, Json>, scriptName: string, script: string, holder: string): (r: map<string, Json>)
    ensures r.Keys == pkg.Keys + {holder}
    ensures forall k :: k in pkg && k != holder ==> r[k] == pkg[k]
  {
    SetIn(pkg, [holder, scriptName], JStr(script))
  }

  /** After `addPlugin` the script is present, under its key, and the rest of the holder is kept. */
  lemma PluginInstalled(pkg: map<string, Json>, scriptName: string, script: string, holder: string)
    requires script != ""
    ensures var r := WithPlugin(pkg, scriptName, script, holder);
      AlreadyInstalled(r, scriptName, holder) &&
      r[holder].JObj? && r[holder].fields[scriptName] == JStr(script) &&
      (holder in pkg && pkg[holder].JObj? ==>
        forall k :: k in pkg[holder].fields && k != scriptName ==> r[holder].fields[k] == pkg[holder].fields[k])
  {
    GetAfterSetIn(pkg, [holder, scriptName], JStr(script));
  }

  /** Installing one script keeps every other installed script installed. */
  lemma InstalledKept(pkg: map<string, Json>, scriptName: string, holder: string,
                      otherName: string, otherScript: string, otherHolder: string)
    requires AlreadyInstalled(pkg, scriptName, holder)
    requires (scriptName, holder) != (otherName, otherHolder)
    ensures AlreadyInstalled(WithPlugin(pkg, otherName, otherScript, otherHolder), scriptName, holder)
  {
    var r := WithPlugin(pkg, otherName, otherScript, otherHolder);
    if holder == otherHolder {
      assert pkg[holder].JObj?;
      var child := pkg[holder].fields;
      assert [otherHolder, otherName][1..] == [otherName];
      assert SetIn(child, [otherName], JStr(otherScript)) == child[otherName := JStr(otherScript)];
      assert r == pkg[holder := JObj(child[otherName := JStr(otherScript)])];
    }
  }

  /** The scripts the current script installs: key, script and holder. */
  const Scripts: seq<(string, string, string)> := [("semantic-release", "semantic-release", "scripts")]

  // ---------------------------------------------------------------------------
  // husky 4 hooks to husky 8

  const LegacyPrepareHook := "./node_modules" + "/@makeomatic/deploy/git-hooks/prepare-commit-msg $HUSKY_GIT_PARAMS"
  const LegacyCommitHook := "commitlint -e $HUSKY_GIT_PARAMS"
  const NpxPrefix := "npx --no-install "
  const HuskyParams := "HUSKY_GIT_PARAMS"
  const NotReplaceable := "script.replace is not a function"

  /** The two hooks this package used to install itself; they are dropped, not migrated. */
  predicate LegacyHook(key: string, script: Json) {
    (key == "prepare-commit-msg" && script == JStr(LegacyPrepareHook)) ||
    (key == "commit-msg" && script == JStr(LegacyCommitHook))
  }

  /** `/^(np[mx]) /`: the command is `npm` or `npx`. */
  predicate RunsNpmOrNpx(s: string) {
    StartsWith(s, "npm ") || StartsWith(s, "npx ")
  }

  /** A hook command that does not run `npm` or `npx` is run through `npx --no-install`. */
  function WithNpx(s: string): (r: string)
    ensures RunsNpmOrNpx(r)
    ensures RunsNpmOrNpx(s) ==> r == s
    ensures EndsWith(r, s)
  {
    if RunsNpmOrNpx(s) then s
    else
      var r := NpxPrefix + s;
      assert r[..4] == "npx ";
      assert r[|r| - |s|..] == s;
      r
  }

  /**
   * `s.replace(/\$?HUSKY_GIT_PARAMS/g, '$1')`: every occurrence of the husky 4
   * variable, with or without its `$`, becomes the text `$1` (the pattern has
   * no group, so `$1` is taken literally), left to right without overlap.
   */
  function ReplaceParams(s: string): (r: string)
    ensures |s| > 0 && (StartsWith(s, "$" + HuskyParams) || StartsWith(s, HuskyParams)) ==> |r| > 0 && r[0] == '$'
    decreases |s|
  {
    if |s| == 0 then ""
    else if StartsWith(s, "$" + HuskyParams) then "$1" + ReplaceParams(s[|HuskyParams| + 1..])
    else if StartsWith(s, HuskyParams) then "$1" + ReplaceParams(s[|HuskyParams|..])
    else [s[0]] + ReplaceParams(s[1..])
  }

  /** A piece of a hook command: literal text, or the husky 4 variable with or without `$`. */
  datatype HookPiece = Literal(text: string) | Params(dollar: bool)

  predicate PlainLiteral(t: string) {
    '$' !in t && 'H' !in t
  }

  /** The command written with the husky 4 variable. */
  function RenderHook(pieces: seq<HookPiece>): string {
    if |pieces| == 0 then ""
    else
      (match pieces[0]
       case Literal(t) => t
       case Params(d) => (if d then "$" else "") + HuskyParams) + RenderHook(pieces[1..])
  }

  /** The same command with `$1` where the variable stood. */
  function RenderArgs(pieces: seq<HookPiece>): string {
    if |pieces| == 0 then ""
    else (if pieces[0].Literal? then pieces[0].text else "$1") + RenderArgs(pieces[1..])
  }

  /** Literal text without `$` or `H` passes through unchanged. */
  lemma {:induction false} ReplaceParamsLiteral(t: string, s: string)
    requires PlainLiteral(t)
    ensures ReplaceParams(t + s) == t + ReplaceParams(s)
    decreases |t|
  {
    if |t| > 0 {
      var u := t + s;
      assert u[0] == t[0];
      assert ("$" + HuskyParams)[0] == '$' && HuskyParams[0] == 'H';
      assert !StartsWith(u, "$" + HuskyParams) && !StartsWith(u, HuskyParams);
      assert u[1..] == t[1..] + s;
      ReplaceParamsLiteral(t[1..], s);
      assert ReplaceParams(u) == [t[0]] + ReplaceParams(t[1..] + s);
      assert ReplaceParams(u) == [t[0]] + (t[1..] + ReplaceParams(s));
      assert [t[0]] + t[1..] == t;
      assert [t[0]] + (t[1..] + ReplaceParams(s)) == t + ReplaceParams(s);
    } else {
      assert t + s == s;
    }
  }

  /** Each occurrence of the variable, with or without `$`, becomes `$1`. */
  lemma {:induction false} ReplaceParamsPieces(pieces: seq<HookPiece>)
    requires forall i :: 0 <= i < |pieces| && pieces[i].Literal? ==> PlainLiteral(pieces[i].text)
    ensures ReplaceParams(RenderHook(pieces)) == RenderArgs(pieces)
    decreases |pieces|
  {
    if |pieces| > 0 {
      var rest := RenderHook(pieces[1..]);
      ReplaceParamsPieces(pieces[1..]);
      match pieces[0]
      case Literal(t) =>
        ReplaceParamsLiteral(t, rest);
      case Params(d) =>
        var s := RenderHook(pieces);
        if d {
          assert s == "$" + HuskyParams + rest;
          assert StartsWith(s, "$" + HuskyParams);
          assert s[|HuskyParams| + 1..] == rest;
        } else {
          assert s == HuskyParams + rest;
          assert s[0] == 'H';
          assert !StartsWith(s, "$" + HuskyParams);
          assert StartsWith(s, HuskyParams);
          assert s[|HuskyParams|..] == rest;
        }
    }
  }

  /** A prefix without `$` in the result was already a prefix of the input. */
  lemma {:induction false} ReplaceParamsPrefixBack(x: string, w: string)
    requires '$' !in w && StartsWith(ReplaceParams(x), w)
    ensures StartsWith(x, w)
    decreases |x|
  {
    if |w| > 0 {
      if StartsWith(x, "$" + HuskyParams) || StartsWith(x, HuskyParams) {
        assert false;
      } else {
        var r := ReplaceParams(x[1..]);
        assert ReplaceParams(x) == [x[0]] + r;
        assert w[0] == x[0];
        assert r[..|w| - 1] == w[1..];
        ReplaceParamsPrefixBack(x[1..], w[1..]);
        assert x[..|w|] == [x[0]] + x[1..][..|w| - 1];
      }
    }
  }

  /** After the replacement the husky 4 variable occurs nowhere. */
  lemma {:induction false} ReplaceParamsRemovesAll(s: string)
    ensures !Contains(ReplaceParams(s), HuskyParams)
    decreases |s|
  {
    if |s| > 0 {
      var r := ReplaceParams(s);
      var n := if StartsWith(s, "$" + HuskyParams) then |HuskyParams| + 1
        else if StartsWith(s, HuskyParams) then |HuskyParams|
        else 1;
      var rest := ReplaceParams(s[n..]);
      ReplaceParamsRemovesAll(s[n..]);
      if n > 1 {
        assert r == "$1" + rest;
        assert r[0] == '$' && r[1] == '1' && HuskyParams[0] == 'H';
        assert r[1..] == "1" + rest;
        assert r[2..] == rest;
        assert !StartsWith(r, HuskyParams) && !StartsWith(r[1..], HuskyParams);
        assert !Contains(r[1..], HuskyParams);
      } else {
        assert r == [s[0]] + rest;
        assert r[1..] == rest;
        if StartsWith(r, HuskyParams) {
          assert '$' !in HuskyParams[1..];
          assert StartsWith(rest, HuskyParams[1..]);
          ReplaceParamsPrefixBack(s[1..], HuskyParams[1..]);
          assert false;
        }
      }
    }
  }

  /** A prefix without `$` or `H` survives the replacement. */
  lemma {:induction false} ReplaceParamsKeepsPrefix(x: string, w: string)
    requires PlainLiteral(w) && StartsWith(x, w)
    ensures StartsWith(ReplaceParams(x), w)
  {
    assert x == w + x[|w|..];
    ReplaceParamsLiteral(w, x[|w|..]);
  }

  /** Text without the variable is left as it is. */
  lemma {:induction false} ReplaceParamsAbsent(s: string)
    requires !Contains(s, HuskyParams)
    ensures ReplaceParams(s) == s
    decreases |s|
  {
    if |s| > 0 {
      assert !StartsWith(s, HuskyParams);
      assert !Contains(s[1..], HuskyParams);
      assert !StartsWith(s, "$" + HuskyParams) by {
        if |s| > |HuskyParams| {
          assert s[1..][..|HuskyParams|] == s[1..|HuskyParams| + 1];
        }
      }
      ReplaceParamsAbsent(s[1..]);
      assert [s[0]] + s[1..] == s;
    }
  }

  /**
   * One hook: the two legacy hooks are deleted (`None`); any other command is
   * routed through `npx` and has the variable replaced. A value that is not a
   * string is rendered as text when the `npm`/`npx` test fails, and otherwise
   * reaches `replace` as it is, which throws.
   */
  function MigrateHook(key: string, script: Json): (r: Result<Option<Json>, JsError>)
    ensures r.Success? && r.value.None? <==> LegacyHook(key, script)
    ensures r.Failure? ==> r.error == TypeError(NotReplaceable) && !script.JStr?
    ensures script.JStr? && !LegacyHook(key, script) ==>
      r == Success(Some(JStr(ReplaceParams(WithNpx(script.s)))))
  {
    if LegacyHook(key, script) then Success(None)
    else
      match MigrateScript(script)
      case Failure(e) => Failure(e)
      case Success(v) => Success(Some(v))
  }

  /** The command a kept hook is rewritten to, whatever its key. */
  function MigrateScript(script: Json): (r: Result<Json, JsError>)
    ensures r.Failure? ==> r.error == TypeError(NotReplaceable) && !script.JStr?
    ensures script.JStr? ==> r == Success(JStr(ReplaceParams(WithNpx(script.s))))
  {
    if script.JStr? then Success(JStr(ReplaceParams(WithNpx(script.s))))
    else if RunsNpmOrNpx(ValueText(script)) then Failure(TypeError(NotReplaceable))
    else Success(JStr(ReplaceParams(NpxPrefix + ValueText(script))))
  }

  /** The value a hook takes after its migration, when it is kept. */
  function MigratedValue(key: string, script: Json): Json {
    match MigrateHook(key, script)
    case Success(Some(v)) => v
    case _ => script
  }

  /**
   * The whole hooks object: it fails when any hook fails (every failure throws
   * the same error, so the order of the keys does not matter), and otherwise
   * holds each kept hook migrated.
   */
  function MigratedHooks(hooks: map<string, Json>): Result<map<string, Json>, JsError> {
    if exists k :: k in hooks && MigrateHook(k, hooks[k]).Failure? then Failure(TypeError(NotReplaceable))
    else Success(map k | k in hooks && !LegacyHook(k, hooks[k]) :: MigratedValue(k, hooks[k]))
  }

  /** A migrated hook runs `npm` or `npx` and no longer mentions the husky 4 variable. */
  predicate Husky8Hook(v: Json) {
    v.JStr? && RunsNpmOrNpx(v.s) && !Contains(v.s, HuskyParams)
  }

  lemma MigratedHookIsHusky8(key: string, script: Json)
    requires MigrateHook(key, script).Success? && MigrateHook(key, script).value.Some?
    ensures Husky8Hook(MigrateHook(key, script).value.value)
  {
    MigratedScriptIsHusky8(script);
  }

  lemma MigratedScriptIsHusky8(script: Json)
    requires MigrateScript(script).Success?
    ensures Husky8Hook(MigrateScript(script).value)
  {
    if script.JStr? {
      NpmOrNpxMigrated(WithNpx(script.s));
    } else {
      var cmd := NpxPrefix + ValueText(script);
      assert cmd[..4] == "npx ";
      NpmOrNpxMigrated(cmd);
    }
  }

  /** A command running `npm` or `npx` still does after the replacement, and loses the variable. */
  lemma NpmOrNpxMigrated(cmd: string)
    requires RunsNpmOrNpx(cmd)
    ensures Husky8Hook(JStr(ReplaceParams(cmd)))
  {
    if StartsWith(cmd, "npx ") {
      ReplaceParamsKeepsPrefix(cmd, "npx ");
    } else {
      ReplaceParamsKeepsPrefix(cmd, "npm ");
    }
    ReplaceParamsRemovesAll(cmd);
  }

  /** The legacy hooks are gone, every other hook is kept, and every kept hook is a husky 8 command. */
  lemma MigratedHooksShape(hooks: map<string, Json>)
    requires MigratedHooks(hooks).Success?
    ensures var m := MigratedHooks(hooks).value;
      (forall k :: k in m <==> k in hooks && !LegacyHook(k, hooks[k])) &&
      (forall k :: k in m ==> Husky8Hook(m[k]))
  {
    var m := MigratedHooks(hooks).value;
    forall k | k in m ensures Husky8Hook(m[k]) {
      MigratedHookIsHusky8(k, hooks[k]);
    }
  }

  /** A husky 8 hook is migrated to itself. */
  lemma Husky8HookStable(key: string, v: Json)
    requires Husky8Hook(v)
    ensures MigrateHook(key, v) == Success(Some(v))
  {
    var s := v.s;
    assert s[0] == 'n';
    assert LegacyPrepareHook[0] == '.';
    assert LegacyCommitHook[0] == 'c';
    assert !LegacyHook(key, v);
    ReplaceParamsAbsent(s);
  }

  /** Hooks that each migrate to themselves migrate as a whole to themselves. */
  lemma MigratedHooksFixed(m: map<string, Json>)
    requires forall k :: k in m ==> MigrateHook(k, m[k]) == Success(Some(m[k]))
    ensures MigratedHooks(m) == Success(m)
  {
    assert forall k :: k in m ==> !MigrateHook(k, m[k]).Failure?;
    var m2 := map k | k in m && !LegacyHook(k, m[k]) :: MigratedValue(k, m[k]);
    assert forall k :: k in m ==> !LegacyHook(k, m[k]) && MigratedValue(k, m[k]) == m[k];
    assert m2.Keys == m.Keys;
    assert m2 == m;
  }

  /** Migrating an already migrated configuration changes nothing. */
  lemma MigrationIdempotent(hooks: map<string, Json>)
    requires MigratedHooks(hooks).Success?
    ensures MigratedHooks(MigratedHooks(hooks).value) == MigratedHooks(hooks)
  {
    var m := MigratedHooks(hooks).value;
    MigratedHooksShape(hooks);
    forall k | k in m
      ensures MigrateHook(k, m[k]) == Success(Some(m[k]))
    {
      Husky8HookStable(k, m[k]);
    }
    MigratedHooksFixed(m);
  }

  /** The value a script takes after its migration, or the script when it throws. */
  function ScriptValue(script: Json): Json {
    match MigrateScript(script)
    case Success(v) => v
    case _ => script
  }

  /**
   * Hooks given as an array: `Object.entries` yields each element under its
   * index, which is never one of the legacy keys (`IndexHookIsScript`), and
   * the element is migrated in place.
   */
  function MigratedItems(items: seq<Json>): (r: Result<seq<Json>, JsError>)
    ensures r.Failure? <==> exists i :: 0 <= i < |items| && MigrateScript(items[i]).Failure?
    ensures r.Failure? ==> r.error == TypeError(NotReplaceable)
    ensures r.Success? ==> |r.value| == |items|
  {
    if exists i :: 0 <= i < |items| && MigrateScript(items[i]).Failure? then Failure(TypeError(NotReplaceable))
    else Success(seq(|items|, i requires 0 <= i < |items| => ScriptValue(items[i])))
  }

  /** Under an index as its key, a hook is migrated as its script alone: an index is made of digits. */
  lemma IndexHookIsScript(i: nat, script: Json)
    ensures MigrateHook(NatToString(i), script) ==
      match MigrateScript(script)
      case Failure(e) => Failure(e)
      case Success(v) => Success(Some(v))
  {
    var key := NatToString(i);
    assert '0' <= key[0] <= '9';
    assert "prepare-commit-msg"[0] == 'p' && "commit-msg"[0] == 'c';
    assert !LegacyHook(key, script);
  }

  /** Array hooks keep every element, each one a husky 8 command after migration. */
  lemma MigratedItemsShape(items: seq<Json>)
    requires MigratedItems(items).Success?
    ensures var m := MigratedItems(items).value;
      |m| == |items| && forall i :: 0 <= i < |m| ==> Husky8Hook(m[i])
  {
    var m := MigratedItems(items).value;
    forall i | 0 <= i < |m|
      ensures Husky8Hook(m[i])
    {
      MigratedScriptIsHusky8(items[i]);
    }
  }

  /** The error a strict module throws when the loop assigns to the first index of a string. */
  function ReadOnlyIndex(s: string): JsError {
    TypeError("Cannot assign to read only property '0' of string '" + s + "'")
  }

  /**
   * The truthy `husky.hooks` after the loop over its entries: an object or an
   * array is migrated; a non-empty string throws at its first index; a
   * number or `true` has no entries and stays as it is.
   */
  function MigratedHooksValue(hooks: Json): (r: Result<Json, JsError>)
    requires Truthy(hooks)
    ensures hooks.JStr? ==> r == Failure(ReadOnlyIndex(hooks.s))
    ensures hooks.JBool? || hooks.JNum? ==> r == Success(hooks)
    ensures r.Success? && hooks.JObj? ==> r.value.JObj? && r.value.fields.Keys <= hooks.fields.Keys
    ensures r.Success? && hooks.JArr? ==> r.value.JArr? && |r.value.items| == |hooks.items|
  {
    match hooks
    case JObj(fields) =>
      (match MigratedHooks(fields)
       case Failure(e) => Failure(e)
       case Success(h) => Success(JObj(h)))
    case JArr(items) =>
      (match MigratedItems(items)
       case Failure(e) => Failure(e)
       case Success(m) => Success(JArr(m)))
    case JStr(s) => Failure(ReadOnlyIndex(s))
    case _ => Success(hooks)
  }

  /** The package with its hooks migrated, before it is saved; `Success(pkg)` when there is nothing to migrate. */
  function MigratedPackage(pkg: map<string, Json>): (r: Result<map<string, Json>, JsError>)
    ensures r.Success? ==> r.value.Keys == pkg.Keys && forall k :: k in pkg && k != "husky" ==> r.value[k] == pkg[k]
  {
    var husky := Field(pkg, "husky");
    if !(TruthyOpt(husky) && husky.value.JObj?) then Success(pkg)
    else
      var hooks := Field(husky.value.fields, "hooks");
      if !TruthyOpt(hooks) then Success(pkg)
      else
        match MigratedHooksValue(hooks.value)
        case Failure(e) => Failure(e)
        case Success(h) => Success(pkg["husky" := JObj(husky.value.fields["hooks" := h])])
  }

  /** Hooks given as a non-empty string make the migration throw before anything is saved. */
  lemma StringHooksThrow(pkg: map<string, Json>, husky: map<string, Json>, s: string)
    requires Field(pkg, "husky") == Some(JObj(husky)) && Field(husky, "hooks") == Some(JStr(s)) && s != ""
    ensures MigratedPackage(pkg) == Failure(ReadOnlyIndex(s))
  {
  }

  /** Hooks migrated one key at a time, as the loop over `Object.entries` does. */
  method MigrateHooks(hooks: map<string, Json>) returns (r: Result<map<string, Json>, JsError>)
    ensures r == MigratedHooks(hooks)
  {
    var current := hooks;
    var todo := hooks.Keys;
    while todo != {}
      invariant todo <= hooks.Keys
      invariant forall k :: k in hooks && k !in todo ==> !MigrateHook(k, hooks[k]).Failure?
      invariant forall k :: k in current <==> k in hooks && (k in todo || !LegacyHook(k, hooks[k]))
      invariant forall k :: k in current ==> current[k] == if k in todo then hooks[k] else MigratedValue(k, hooks[k])
      decreases |todo|
    {
      var k :| k in todo;
      var step := MigrateHook(k, hooks[k]);
      if step.Failure? {
        return Failure(step.error);
      }
      if step.value.None? {
        current := current - {k};
      } else {
        current := current[k := step.value.value];
      }
      todo := todo - {k};
    }
    var spec := map k | k in hooks && !LegacyHook(k, hooks[k]) :: MigratedValue(k, hooks[k]);
    assert current.Keys == spec.Keys;
    assert current == spec;
    r := Success(current);
  }

  // ---------------------------------------------------------------------------
  // The client project

  /** What a path of the file system holds. */
  datatype Entry = File(content: string) | Dir

  predicate IsFile(files: map<string, Entry>, path: string) {
    path in files && files[path].File?
  }

  predicate IsDir(files: map<string, Entry>, path: string) {
    path in files && files[path].Dir?
  }

  /** `path.join(dir, name)` for a relative name without `.` or `..` segments. */
  function PathJoin(dir: string, name: string): string {
    dir + "/" + name
  }

  function PackagePath(root: string): string {
    PathJoin(root, "package.json")
  }

  /**
   * The client project as the script sees it: its files by absolute path, its
   * `package.json` as an object, and what the run has printed, written and
   * executed so far.
   */
  class Client {
    var files: map<string, Entry>
    var pkg: map<string, Json>
    var log: seq<Action>

    constructor (files: map<string, Entry>, pkg: map<string, Json>)
      ensures this.files == files && this.pkg == pkg && log == []
    {
      this.files := files;
      this.pkg := pkg;
      log := [];
    }
  }

  // ---------------------------------------------------------------------------
  // copyConfiguration

  /** The names whose presence as a file in the client root stops the copy, as written. */
  function CandidatesAsWritten(filename: string, fallback: seq<string>): seq<string> {
    [filename] + fallback
  }

  /** The names that should stop the copy: the written ones and the target itself. */
  function Candidates(filename: string, fallback: seq<string>, renameTo: string): (names: seq<string>)
    ensures renameTo in names
    ensures forall n :: n in CandidatesAsWritten(filename, fallback) ==> n in names
  {
    CandidatesAsWritten(filename, fallback) + [renameTo]
  }

  /** Some candidate already is a file in the client root. */
  predicate Configured(files: map<string, Entry>, root: string, names: seq<string>) {
    exists i :: 0 <= i < |names| && IsFile(files, PathJoin(root, names[i]))
  }

  /** `fs.copyFile` succeeds: the source is a file, the target is no directory, and its directory exists. */
  predicate CanCopy(files: map<string, Entry>, src: string, root: string, renameTo: string) {
    var slash := LastIndexOf(renameTo, '/');
    IsFile(files, src) && !IsDir(files, PathJoin(root, renameTo)) &&
    (slash < 0 || IsDir(files, PathJoin(root, renameTo[..slash])))
  }

  /** The files and the printed lines after copying `filename` of the package to `renameTo` in the client root. */
  datatype Copied = Copied(files: map<string, Entry>, log: seq<Action>)

  function CopyResult(files: map<string, Entry>, packageDir: string, root: string,
                      names: seq<string>, filename: string, renameTo: string): Copied
  {
    var src := PathJoin(packageDir, filename);
    var rcpath := PathJoin(root, renameTo);
    if Configured(files, root, names) then Copied(files, [])
    else if CanCopy(files, src, root, renameTo) then
      Copied(files[rcpath := files[src]], [Echo("\U{2705}  " + rcpath + " created")])
    else Copied(files, [Warn("\U{274C} " + rcpath + " failed to copy")])
  }

  /**
   * As written, the sample commit hook is copied over the client's own
   * `.husky/commit-msg`: only `.husky/commit-msg.sample` is looked for in the
   * client root, never the target.
   */
  lemma SampleOverwritesHook(packageDir: string, root: string)
    requires packageDir != root
    ensures var files := map[
        PathJoin(root, ".husky") := Dir,
        PathJoin(root, ".husky/commit-msg") := File("commitlint --edit $1"),
        PathJoin(packageDir, ".husky/commit-msg.sample") := File("sample")];
      var after := CopyResult(files, packageDir, root,
        CandidatesAsWritten(".husky/commit-msg.sample", []), ".husky/commit-msg.sample", ".husky/commit-msg");
      files[PathJoin(root, ".husky/commit-msg")] == File("commitlint --edit $1") &&
      after.files[PathJoin(root, ".husky/commit-msg")] == File("sample")
  {
    var files := map[
        PathJoin(root, ".husky") := Dir,
        PathJoin(root, ".husky/commit-msg") := File("commitlint --edit $1"),
        PathJoin(packageDir, ".husky/commit-msg.sample") := File("sample")];
    var hook := PathJoin(root, ".husky/commit-msg");
    var sample := PathJoin(root, ".husky/commit-msg.sample");
    var src := PathJoin(packageDir, ".husky/commit-msg.sample");
    var husky := PathJoin(root, ".husky");
    // The three paths end in different characters.
    assert husky[|husky| - 1] == 'y' && hook[|hook| - 1] == 'g' && src[|src| - 1] == 'e';
    assert files[husky] == Dir && files[hook] == File("commitlint --edit $1");
    assert sample !in files by {
      assert sample != src by {
        if |root| == |packageDir| {
          assert sample[..|root|] == root && src[..|packageDir|] == packageDir;
        } else {
          assert |sample| != |src|;
        }
      }
    }
    assert !Configured(files, root, [".husky/commit-msg.sample"]);
    var slash := LastIndexOf(".husky/commit-msg", '/');
    assert ".husky/commit-msg"[6] == '/';
    assert slash == 6;
    assert ".husky/commit-msg"[..6] == ".husky";
    assert CanCopy(files, src, root, ".husky/commit-msg");
  }

  /** With the target among the candidates, a copy never replaces a file that exists. */
  lemma CopyNeverOverwrites(files: map<string, Entry>, packageDir: string, root: string,
                            filename: string, fallback: seq<string>, renameTo: string)
    ensures var after := CopyResult(files, packageDir, root, Candidates(filename, fallback, renameTo), filename, renameTo);
      forall p :: IsFile(files, p) ==> p in after.files && after.files[p] == files[p]
  {
    var names := Candidates(filename, fallback, renameTo);
    if IsFile(files, PathJoin(root, renameTo)) {
      assert names[|names| - 1] == renameTo;
    }
  }

  /** When the package ships the file and the target can be written, a configuration is present afterwards. */
  lemma CopyConfigures(files: map<string, Entry>, packageDir: string, root: string,
                       filename: string, fallback: seq<string>, renameTo: string)
    requires CanCopy(files, PathJoin(packageDir, filename), root, renameTo)
    ensures var names := Candidates(filename, fallback, renameTo);
      Configured(CopyResult(files, packageDir, root, names, filename, renameTo).files, root, names)
  {
    var names := Candidates(filename, fallback, renameTo);
    assert names[|names| - 1] == renameTo;
  }

  /** As written, a copy changes at most the target: every other path keeps its entry. */
  lemma CopyTouchesOnlyTarget(files: map<string, Entry>, packageDir: string, root: string,
                              filename: string, fallback: seq<string>, renameTo: string)
    ensures var after := CopyResult(files, packageDir, root, CandidatesAsWritten(filename, fallback), filename, renameTo);
      after.files.Keys <= files.Keys + {PathJoin(root, renameTo)} &&
      forall p :: p in files && p != PathJoin(root, renameTo) ==> p in after.files && after.files[p] == files[p]
  {
  }

  /**
   * As written, the outcome of a copy that no candidate stops: the target
   * takes the package's file and a line reports it, or nothing changes and a
   * warning is printed.
   */
  lemma CopyUnstopped(files: map<string, Entry>, packageDir: string, root: string,
                      filename: string, fallback: seq<string>, renameTo: string)
    requires forall n :: n in CandidatesAsWritten(filename, fallback) ==> !IsFile(files, PathJoin(root, n))
    ensures var after := CopyResult(files, packageDir, root, CandidatesAsWritten(filename, fallback), filename, renameTo);
      var target := PathJoin(root, renameTo);
      var src := PathJoin(packageDir, filename);
      if CanCopy(files, src, root, renameTo) then
        after.files == files[target := files[src]] && IsFile(after.files, target) && after.log == [Echo("\U{2705}  " + target + " created")]
      else
        after.files == files && after.log == [Warn("\U{274C} " + target + " failed to copy")]
  {
    var names := CandidatesAsWritten(filename, fallback);
    assert forall i :: 0 <= i < |names| ==> names[i] in names;
  }

  /**
   * As written, a copy whose target keeps the package's own name never
   * replaces a file: the target is then the first candidate.
   */
  lemma CopySameNameNeverOverwrites(files: map<string, Entry>, packageDir: string, root: string,
                                    filename: string, fallback: seq<string>)
    ensures var after := CopyResult(files, packageDir, root, CandidatesAsWritten(filename, fallback), filename, filename);
      forall p :: IsFile(files, p) ==> p in after.files && after.files[p] == files[p]
  {
    var names := CandidatesAsWritten(filename, fallback);
    if IsFile(files, PathJoin(root, filename)) {
      assert names[0] == filename;
    }
  }

  /**
   * `copyConfiguration(filename, fallback, renameTo)`: the candidates, as
   * written, are looked at in order, and the first that is a file in the
   * client root stops the copy; otherwise the package's file is copied to the
   * target.
   */
  method CopyConfiguration(c: Client, packageDir: string, root: string,
                           filename: string, fallback: seq<string>, renameTo: string)
    modifies c`files, c`log
    ensures var r := CopyResult(old(c.files), packageDir, root, CandidatesAsWritten(filename, fallback), filename, renameTo);
      c.files == r.files && c.log == old(c.log) + r.log
  {
    var names := CandidatesAsWritten(filename, fallback);
    var rcpath := PathJoin(root, renameTo);
    for i := 0 to |names|
      invariant forall j :: 0 <= j < i ==> !IsFile(c.files, PathJoin(root, names[j]))
    {
      if IsFile(c.files, PathJoin(root, names[i])) {
        return;
      }
    }
    var src := PathJoin(packageDir, filename);
    if CanCopy(c.files, src, root, renameTo) {
      c.files := c.files[rcpath := c.files[src]];
      c.log := c.log + [Echo("\U{2705}  " + rcpath + " created")];
    } else {
      c.log := c.log + [Warn("\U{274C} " + rcpath + " failed to copy")];
    }
  }

  // ---------------------------------------------------------------------------
  // Installing the scripts

  /** The client's package and the lines printed and files written while installing scripts. */
  datatype Installed = Installed(pkg: map<string, Json>, log: seq<Action>)

  /** What installing one script prints and writes. */
  function InstallLines(path: string, name: string, script: string, holder: string, saved: map<string, Json>): seq<Action> {
    [Echo("\U{26A0}\U{FE0F}  Installing " + holder + "." + name + " plugin " + script),
     WriteJson(path, JObj(saved)),
     Echo("\U{2705}  set " + holder + "." + name + " to \"" + script + "\" in " + path)]
  }

  /** The loop over the scripts: each one not yet installed is added and the package saved. */
  function InstallPlugins(pkg: map<string, Json>, root: string, scripts: seq<(string, string, string)>): Installed
    decreases |scripts|
  {
    if |scripts| == 0 then Installed(pkg, [])
    else
      var name := scripts[0].0;
      var script := scripts[0].1;
      var holder := scripts[0].2;
      var next := if AlreadyInstalled(pkg, name, holder) then pkg else WithPlugin(pkg, name, script, holder);
      var lines := if AlreadyInstalled(pkg, name, holder) then [] else InstallLines(PackagePath(root), name, script, holder, next);
      var rest := InstallPlugins(next, root, scripts[1..]);
      Installed(rest.pkg, lines + rest.log)
  }

  /** Each script names a distinct key and a non-empty command. */
  predicate WellFormedScripts(scripts: seq<(string, string, string)>) {
    (forall i :: 0 <= i < |scripts| ==> scripts[i].1 != "") &&
    (forall i, j :: 0 <= i < j < |scripts| ==> (scripts[i].0, scripts[i].2) != (scripts[j].0, scripts[j].2))
  }

  /** An installed script stays installed while the others are installed. */
  lemma {:induction false} InstallPluginsKeeps(pkg: map<string, Json>, root: string, scripts: seq<(string, string, string)>,
                                               name: string, holder: string)
    requires AlreadyInstalled(pkg, name, holder)
    requires forall i :: 0 <= i < |scripts| ==> (scripts[i].0, scripts[i].2) != (name, holder)
    ensures AlreadyInstalled(InstallPlugins(pkg, root, scripts).pkg, name, holder)
    decreases |scripts|
  {
    if |scripts| > 0 {
      var next := if AlreadyInstalled(pkg, scripts[0].0, scripts[0].2) then pkg
        else WithPlugin(pkg, scripts[0].0, scripts[0].1, scripts[0].2);
      InstalledKept(pkg, name, holder, scripts[0].0, scripts[0].1, scripts[0].2);
      InstallPluginsKeeps(next, root, scripts[1..], name, holder);
    }
  }

  /** After the loop every script is installed, and keys that hold no script are untouched. */
  lemma {:induction false} InstallPluginsInstalls(pkg: map<string, Json>, root: string, scripts: seq<(string, string, string)>)
    requires WellFormedScripts(scripts)
    ensures var r := InstallPlugins(pkg, root, scripts).pkg;
      (forall i :: 0 <= i < |scripts| ==> AlreadyInstalled(r, scripts[i].0, scripts[i].2)) &&
      (forall k :: k in pkg && (forall i :: 0 <= i < |scripts| ==> scripts[i].2 != k) ==> k in r && r[k] == pkg[k])
    decreases |scripts|
  {
    if |scripts| > 0 {
      var name := scripts[0].0;
      var holder := scripts[0].2;
      var next := if AlreadyInstalled(pkg, name, holder) then pkg else WithPlugin(pkg, name, scripts[0].1, holder);
      if !AlreadyInstalled(pkg, name, holder) {
        PluginInstalled(pkg, name, scripts[0].1, holder);
      }
      assert WellFormedScripts(scripts[1..]) by {
        forall i, j | 0 <= i < j < |scripts| - 1
          ensures (scripts[1..][i].0, scripts[1..][i].2) != (scripts[1..][j].0, scripts[1..][j].2)
        {
          assert scripts[1..][i] == scripts[i + 1] && scripts[1..][j] == scripts[j + 1];
        }
      }
      InstallPluginsInstalls(next, root, scripts[1..]);
      InstallPluginsKeeps(next, root, scripts[1..], name, holder);
      var r := InstallPlugins(pkg, root, scripts).pkg;
      forall i | 0 <= i < |scripts| ensures AlreadyInstalled(r, scripts[i].0, scripts[i].2) {
        if i > 0 {
          assert scripts[i] == scripts[1..][i - 1];
        }
      }
      forall k | k in pkg && (forall i :: 0 <= i < |scripts| ==> scripts[i].2 != k)
        ensures k in r && r[k] == pkg[k]
      {
        assert scripts[0].2 != k;
        assert forall i :: 0 <= i < |scripts[1..]| ==> scripts[1..][i] == scripts[i + 1];
      }
    }
  }

  /** A package that already has every script is left exactly as it is, and nothing is written. */
  lemma {:induction false} InstallPluginsNoop(pkg: map<string, Json>, root: string, scripts: seq<(string, string, string)>)
    requires forall i :: 0 <= i < |scripts| ==> AlreadyInstalled(pkg, scripts[i].0, scripts[i].2)
    ensures InstallPlugins(pkg, root, scripts) == Installed(pkg, [])
    decreases |scripts|
  {
    if |scripts| > 0 {
      InstallPluginsNoop(pkg, root, scripts[1..]);
    }
  }

  /** The script table of the current generation is well formed. */
  lemma ScriptsWellFormed()
    ensures WellFormedScripts(Scripts)
  {
  }

  /** The scripts loop, one `alreadyInstalled`/`addPlugin` pair per entry. */
  method InstallScripts(c: Client, root: string)
    modifies c`pkg, c`log
    ensures var r := InstallPlugins(old(c.pkg), root, Scripts);
      c.pkg == r.pkg && c.log == old(c.log) + r.log
  {
    for i := 0 to |Scripts|
      invariant InstallPlugins(c.pkg, root, Scripts[i..]).pkg == InstallPlugins(old(c.pkg), root, Scripts).pkg
      invariant c.log + InstallPlugins(c.pkg, root, Scripts[i..]).log == old(c.log) + InstallPlugins(old(c.pkg), root, Scripts).log
    {
      var name := Scripts[i].0;
      var script := Scripts[i].1;
      var holder := Scripts[i].2;
      assert Scripts[i..][1..] == Scripts[i + 1..];
      if !AlreadyInstalled(c.pkg, name, holder) {
        var saved := WithPlugin(c.pkg, name, script, holder);
        c.pkg := saved;
        c.log := c.log + InstallLines(PackagePath(root), name, script, holder, saved);
      }
    }
  }

  // ---------------------------------------------------------------------------
  // The husky migration

  const CurrentConfig := "\U{26A0}\U{FE0F} current husky config"
  const FinalConfig := "\U{26A0}\U{FE0F} final config:"
  const MigratingConfig := "\U{26A0}\U{FE0F} migrating husky config"
  const MigratedConfig := "\U{2705}  husky 4-to-8 migrated:"
  const InstallMigrator := "npm i --no-save github:typicode/husky-4-to-8#07a954ec6082bd56eb35b79ebb300a171f60496a"

  function MigratorCommand(tmp: string): string {
    PathJoin(tmp, "node_modules/.bin/husky-4-to-8") + " --remove-v4-config"
  }

  /** The first line of the error `execa` rejects with when a command exits with a non-zero code. */
  function ExecaError(cmd: string, res: ExecResult): JsError {
    Error("Command failed with exit code " + IntToString(res.code) + ": " + cmd)
  }

  /** How a stretch of the script ended, the client's `package.json` afterwards, and what it did. */
  datatype Step = Step(outcome: Outcome, pkg: map<string, Json>, log: seq<Action>)

  /**
   * Saving the edited package and running the migrator: it is installed in a
   * temporary directory and run in the client root; when either command
   * fails, the `husky` value copied before the edit is put back, saved, and
   * the error rethrown.
   */
  function RunMigrator(saved: map<string, Json>, husky: Json, root: string, tmp: string, shell: Shell): Step {
    var restored := saved["husky" := husky];
    var before := [Echo(FinalConfig), Echo(MigratingConfig),
                   WriteJson(PackagePath(root), JObj(saved)), Exec(InstallMigrator)];
    var install := shell(InstallMigrator);
    if install.code != 0 then
      Step(Threw(ExecaError(InstallMigrator, install)), restored, before + [WriteJson(PackagePath(root), JObj(restored))])
    else
      var run := shell(MigratorCommand(tmp));
      if run.code != 0 then
        Step(Threw(ExecaError(MigratorCommand(tmp), run)), restored,
             before + [Exec(MigratorCommand(tmp)), WriteJson(PackagePath(root), JObj(restored))])
      else Step(Completed, saved, before + [Exec(MigratorCommand(tmp)), Echo(MigratedConfig), Echo(run.stdout)])
  }

  /**
   * The migration: with a truthy `husky` key the hooks are migrated in memory
   * (a hook that cannot be migrated throws before anything is saved), then
   * saved and handed to the migrator.
   */
  function HuskyMigration(pkg: map<string, Json>, root: string, tmp: string, shell: Shell): Step {
    var husky := Field(pkg, "husky");
    if !TruthyOpt(husky) then Step(Completed, pkg, [])
    else match MigratedPackage(pkg)
      case Failure(e) => Step(Threw(e), pkg, [Echo(CurrentConfig)])
      case Success(saved) =>
        var r := RunMigrator(saved, husky.value, root, tmp, shell);
        Step(r.outcome, r.pkg, [Echo(CurrentConfig)] + r.log)
  }

  /** A migration that throws leaves `package.json` as it was before the migration. */
  lemma RollbackRestores(pkg: map<string, Json>, root: string, tmp: string, shell: Shell)
    requires HuskyMigration(pkg, root, tmp, shell).outcome.Threw?
    ensures HuskyMigration(pkg, root, tmp, shell).pkg == pkg
  {
    var husky := Field(pkg, "husky");
    if MigratedPackage(pkg).Success? {
      var saved := MigratedPackage(pkg).value;
      assert saved["husky" := husky.value] == pkg;
      assert HuskyMigration(pkg, root, tmp, shell).pkg == RunMigrator(saved, husky.value, root, tmp, shell).pkg;
    }
  }

  /** A migration that completes saves the migrated hooks. */
  lemma MigrationSavesHooks(pkg: map<string, Json>, root: string, tmp: string, shell: Shell)
    requires HuskyMigration(pkg, root, tmp, shell).outcome == Completed
    ensures HuskyMigration(pkg, root, tmp, shell).pkg == MigratedPackage(pkg).value
  {
  }

  /** Whatever its outcome, the migration touches no key but `husky`. */
  lemma MigrationTouchesOnlyHusky(pkg: map<string, Json>, root: string, tmp: string, shell: Shell)
    ensures var r := HuskyMigration(pkg, root, tmp, shell).pkg;
      r.Keys == pkg.Keys && forall k :: k in pkg && k != "husky" ==> r[k] == pkg[k]
  {
    if TruthyOpt(Field(pkg, "husky")) && HuskyMigration(pkg, root, tmp, shell).outcome.Threw? {
      RollbackRestores(pkg, root, tmp, shell);
    }
  }

  /** The edit of the hooks in memory, as the loop makes it. */
  method EditHooks(pkg: map<string, Json>) returns (r: Result<map<string, Json>, JsError>)
    ensures r == MigratedPackage(pkg)
  {
    var husky := Field(pkg, "husky");
    if !(TruthyOpt(husky) && husky.value.JObj?) {
      return Success(pkg);
    }
    var hooks := Field(husky.value.fields, "hooks");
    if !TruthyOpt(hooks) {
      return Success(pkg);
    }
    var value := hooks.value;
    match value {
      case JObj(fields) =>
        var migrated := MigrateHooks(fields);
        if migrated.Failure? {
          return Failure(migrated.error);
        }
        value := JObj(migrated.value);
      case JArr(items) =>
        var migrated := MigrateItems(items);
        if migrated.Failure? {
          return Failure(migrated.error);
        }
        value := JArr(migrated.value);
      case JStr(s) =>
        return Failure(ReadOnlyIndex(s));
      case _ =>
    }
    r := Success(pkg["husky" := JObj(husky.value.fields["hooks" := value])]);
  }

  /** The loop over an array of hooks, element by element in index order. */
  method MigrateItems(items: seq<Json>) returns (r: Result<seq<Json>, JsError>)
    ensures r == MigratedItems(items)
  {
    var done: seq<Json> := [];
    for i := 0 to |items|
      invariant |done| == i
      invariant forall j :: 0 <= j < i ==> MigrateScript(items[j]).Success? && done[j] == MigrateScript(items[j]).value
    {
      var step := MigrateScript(items[i]);
      if step.Failure? {
        ItemFails(items, i);
        return Failure(step.error);
      }
      done := done + [step.value];
    }
    ItemsMigrated(items, done);
    r := Success(done);
  }

  lemma ItemFails(items: seq<Json>, i: int)
    requires 0 <= i < |items| && MigrateScript(items[i]).Failure?
    ensures MigratedItems(items) == Failure(MigrateScript(items[i]).error)
  {
  }

  lemma ItemsMigrated(items: seq<Json>, done: seq<Json>)
    requires |done| == |items|
    requires forall j :: 0 <= j < |items| ==> MigrateScript(items[j]).Success? && done[j] == MigrateScript(items[j]).value
    ensures MigratedItems(items) == Success(done)
  {
    assert done == seq(|items|, j requires 0 <= j < |items| => ScriptValue(items[j]));
  }

  /** Saving, running the migrator, and the rollback. */
  method SaveAndMigrate(c: Client, saved: map<string, Json>, tmpCopy: Json, root: string, tmp: string, shell: Shell)
    returns (outcome: Outcome)
    modifies c`pkg, c`log
    ensures var r := RunMigrator(saved, tmpCopy, root, tmp, shell);
      outcome == r.outcome && c.pkg == r.pkg && c.log == old(c.log) + r.log
  {
    var before := [Echo(FinalConfig), Echo(MigratingConfig), WriteJson(PackagePath(root), JObj(saved)), Exec(InstallMigrator)];
    c.pkg := saved;
    var install := shell(InstallMigrator);
    if install.code != 0 {
      c.pkg := saved["husky" := tmpCopy];
      c.log := c.log + (before + [WriteJson(PackagePath(root), JObj(c.pkg))]);
      return Threw(ExecaError(InstallMigrator, install));
    }
    var run := shell(MigratorCommand(tmp));
    if run.code != 0 {
      c.pkg := saved["husky" := tmpCopy];
      c.log := c.log + (before + [Exec(MigratorCommand(tmp)), WriteJson(PackagePath(root), JObj(c.pkg))]);
      return Threw(ExecaError(MigratorCommand(tmp), run));
    }
    c.log := c.log + (before + [Exec(MigratorCommand(tmp)), Echo(MigratedConfig), Echo(run.stdout)]);
    outcome := Completed;
  }

  /** The migration on the client, from reading `package.json` to the rollback. */
  method MigrateHusky(c: Client, root: string, tmp: string, shell: Shell) returns (outcome: Outcome)
    modifies c`pkg, c`log
    ensures var r := HuskyMigration(old(c.pkg), root, tmp, shell);
      outcome == r.outcome && c.pkg == r.pkg && c.log == old(c.log) + r.log
  {
    var pkg := c.pkg;
    var husky := Field(pkg, "husky");
    if !TruthyOpt(husky) {
      return Completed;
    }
    c.log := c.log + [Echo(CurrentConfig)];
    var tmpCopy := husky.value;
    var edited := EditHooks(pkg);
    if edited.Failure? {
      return Threw(edited.error);
    }
    ghost var before := c.log;
    outcome := SaveAndMigrate(c, edited.value, tmpCopy, root, tmp, shell);
    assert c.log == old(c.log) + ([Echo(CurrentConfig)] + RunMigrator(edited.value, tmpCopy, root, tmp, shell).log);
  }

  // ---------------------------------------------------------------------------
  // The script

  /** The gate, on the client's files and the script's arguments. */
  predicate SetupExits(args: seq<string>, packageDir: string, root: string,
                       npmGlobal: Option<string>, pnpmGlobal: Option<string>, files: map<string, Entry>) {
    ExitsEarly(AmIaDependency(packageDir), IsInstallingGlobally(npmGlobal, pnpmGlobal, Some(root)),
               PathJoin(root, ".git") !in files, IsForced(args))
  }

  function HuskyInstall(packageDir: string): string {
    PathJoin(packageDir, "node_modules/.bin/husky") + " install"
  }

  const HuskyMissing := "\U{26A0}\U{FE0F} husky not initialized yet"
  const HuskyInitialized := "\U{2705}  husky initialized:"
  const SemanticReleaseHint := "\U{26A0}\U{FE0F} Use \"semantic-release-cli setup\" to complete setting up semantic-release"
  const PublishHint := "\U{26A0}\U{FE0F} For scoped packages add {\"publishConfig\":{\"access\": \"public\"}} to package.json"

  /** `husky install` when `.husky/_` is missing; it creates `.husky/_`, and a failure throws. */
  method InitHusky(c: Client, packageDir: string, root: string, shell: Shell) returns (outcome: Outcome)
    modifies c`files, c`log
    ensures PathJoin(root, ".husky/_") in old(c.files) ==> outcome == Completed && c.files == old(c.files) && c.log == old(c.log)
    ensures PathJoin(root, ".husky/_") !in old(c.files) ==>
      var res := shell(HuskyInstall(packageDir));
      var started := old(c.log) + [Echo(HuskyMissing), Exec(HuskyInstall(packageDir))];
      if res.code != 0 then
        outcome == Threw(ExecaError(HuskyInstall(packageDir), res)) && c.files == old(c.files) && c.log == started
      else
        outcome == Completed && c.log == started + [Echo(HuskyInitialized), Echo(res.stdout)] &&
        c.files == old(c.files)[PathJoin(root, ".husky") := Dir][PathJoin(root, ".husky/_") := Dir]
  {
    if PathJoin(root, ".husky/_") in c.files {
      return Completed;
    }
    c.log := c.log + [Echo(HuskyMissing), Exec(HuskyInstall(packageDir))];
    var res := shell(HuskyInstall(packageDir));
    if res.code != 0 {
      return Threw(ExecaError(HuskyInstall(packageDir), res));
    }
    c.files := c.files[PathJoin(root, ".husky") := Dir][PathJoin(root, ".husky/_") := Dir];
    c.log := c.log + [Echo(HuskyInitialized), Echo(res.stdout)];
    outcome := Completed;
  }

  /** Everything after the scripts: configuration files, husky, the migration, the hooks. */
  method ConfigureClient(c: Client, packageDir: string, root: string, tmp: string, shell: Shell) returns (outcome: Outcome)
    modifies c`files, c`log, c`pkg
    ensures !outcome.Exited?
    ensures c.pkg == old(c.pkg) || c.pkg == HuskyMigration(old(c.pkg), root, tmp, shell).pkg
  {
    CopyConfiguration(c, packageDir, root, ".releaserc.json", [".releaserc.js"], ".releaserc.json");
    CopyConfiguration(c, packageDir, root, ".commitlintrc.cjs",
                      [".commitlintrc.cjs", ".commitlintrc.json", ".commitlintrc.mjs"], ".commitlintrc.cjs");
    outcome := InitHusky(c, packageDir, root, shell);
    if outcome != Completed {
      return;
    }
    outcome := MigrateHusky(c, root, tmp, shell);
    if outcome != Completed {
      return;
    }
    CopyConfiguration(c, packageDir, root, ".husky/commit-msg.sample", [], ".husky/commit-msg");
    CopyConfiguration(c, packageDir, root, ".husky/prepare-commit-msg", [], ".husky/prepare-commit-msg");
    c.log := c.log + [Echo(SemanticReleaseHint), Echo(PublishHint)];
  }

  /**
   * The whole postinstall run. `packageDir` is this package's directory, `root`
   * the client root, `npmGlobal` and `pnpmGlobal` the parent directories of the
   * global roots npm and pnpm report, and `tmp` the
   * temporary directory of the migration. Past the gate, the `semantic-release`
   * script is installed however the rest of the run ends.
   */
  method Setup(c: Client, args: seq<string>, packageDir: string, root: string,
               npmGlobal: Option<string>, pnpmGlobal: Option<string>, tmp: string, shell: Shell)
    returns (outcome: Outcome)
    modifies c
    ensures SetupExits(args, packageDir, root, npmGlobal, pnpmGlobal, old(c.files)) ==>
      outcome == Exited(0) && c.files == old(c.files) && c.pkg == old(c.pkg) && c.log == old(c.log)
    ensures !SetupExits(args, packageDir, root, npmGlobal, pnpmGlobal, old(c.files)) ==>
      !outcome.Exited? && AlreadyInstalled(c.pkg, "semantic-release", "scripts") &&
      c.pkg.Keys == InstallPlugins(old(c.pkg), root, Scripts).pkg.Keys &&
      forall k :: k in old(c.pkg) && k != "scripts" && k != "husky" ==> c.pkg[k] == old(c.pkg)[k]
  {
    if SetupExits(args, packageDir, root, npmGlobal, pnpmGlobal, c.files) {
      return Exited(0);
    }
    ghost var original := c.pkg;
    InstallScripts(c, root);
    ScriptsWellFormed();
    InstallPluginsInstalls(original, root, Scripts);
    assert AlreadyInstalled(c.pkg, Scripts[0].0, Scripts[0].2);
    ghost var installed := c.pkg;
    MigrationTouchesOnlyHusky(installed, root, tmp, shell);
    outcome := ConfigureClient(c, packageDir, root, tmp, shell);
  }
}
