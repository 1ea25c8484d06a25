/**
 * The option defaults both command-line entry points derive from the
 * package.json of the current directory: the version assertion, the default
 * `project` (the package name without its `@scope/` prefix) and the default
 * `repository` (the scope, or `makeomatic`), and how each generation finds
 * its rc configuration.
 */
module Cli {
  import opened Wrappers
  import opened Json
  import opened Text
  import opened Effects

  const PackageMessage := "Must contain package.json in the current dir"
  const FallbackRepository := "makeomatic"

  /** `assert(parentProject && parentProject.version, …)`: an object whose `version` is truthy. */
  predicate PackageOk(pkg: Json) {
    pkg.JObj? && TruthyOpt(Field(pkg.fields, "version"))
  }

  /** The assertion both entry points make before anything else. */
  function CheckPackage(pkg: Json): (r: Result<Json, JsError>)
    ensures r.Success? <==> pkg.JObj? && "version" in pkg.fields && Truthy(pkg.fields["version"])
    ensures r.Success? ==> r.value == pkg
    ensures r.Failure? ==> r.error == AssertionError(PackageMessage)
  {
    if PackageOk(pkg) then Success(pkg) else Failure(AssertionError(PackageMessage))
  }

  /** A package.json without a version, or with an empty one, is refused. */
  lemma MissingVersionRefused(fields: map<string, Json>)
    requires "version" !in fields || fields["version"] == JStr("")
    ensures CheckPackage(JObj(fields)) == Failure(AssertionError(PackageMessage))
  {
  }

  // ---------------------------------------------------------------- project

  /**
   * `^@[^/]+\/` matches `name` up to the slash at `k`: an `@`, at least one
   * character that is not a slash, then the first slash.
   */
  predicate ScopeSlash(name: string, k: int) {
    2 <= k < |name| && name[0] == '@' && name[k] == '/' && forall j :: 1 <= j < k ==> name[j] != '/'
  }

  /** The first slash of `name`, or -1. */
  function FirstSlash(name: string): (k: int)
    ensures -1 <= k < |name|
    ensures k >= 0 ==> name[k] == '/' && forall j :: 0 <= j < k ==> name[j] != '/'
    ensures k < 0 ==> '/' !in name
  {
    var k := IndexOf(name, "/");
    if k < 0 then
      assert '/' !in name by {
        if j :| 0 <= j < |name| && name[j] == '/' {
          assert name[j..j + 1] == "/";
          ContainsAt(name, "/", j);
        }
      }
      -1
    else
      assert StartsWith(name[k..], "/");
      assert forall j :: 0 <= j < k ==> name[j] != '/' by {
        forall j | 0 <= j < k ensures name[j] != '/' {
          assert !StartsWith(name[j..], "/");
        }
      }
      k
  }

  /** The scope slash, if `name` has one, is its first slash. */
  lemma ScopeSlashIsFirst(name: string, k: int)
    requires ScopeSlash(name, k)
    ensures FirstSlash(name) == k
  {
  }

  /** `name.replace(/^@[^/]+\//, '')`: the scope prefix removed, or the name unchanged. */
  function ProjectDefault(name: string): (r: string)
    ensures forall k :: ScopeSlash(name, k) ==> r == name[k + 1..]
    ensures (forall k :: !ScopeSlash(name, k)) ==> r == name
  {
    var k := FirstSlash(name);
    if |name| > 0 && name[0] == '@' && k >= 2 then
      assert ScopeSlash(name, k);
      name[k + 1..]
    else
      assert forall k' :: !ScopeSlash(name, k');
      name
  }

  // ------------------------------------------------------------- repository

  /** The characters `.` does not match and `$` (without the `m` flag) does not stop before. */
  predicate LineTerminator(c: char) {
    c == '\n' || c == '\r' || c == '\U{2028}' || c == '\U{2029}'
  }

  /** `.*$` matches all of `s`. */
  predicate SingleLine(s: string) {
    forall i :: 0 <= i < |s| ==> !LineTerminator(s[i])
  }

  /**
   * `name.replace(/^(?:@([^/]+)?\/)?.*$/, '$1')`. The pattern can only match
   * from the start to the end of `name`, so a match replaces all of it by the
   * capture (empty when the group or the capture is skipped). The alternatives
   * are tried in order: `@scope/` with a capture, `@/` without one, no prefix at
   * all; when none reaches the end, `name` is returned unchanged.
   */
  function ScopeReplace(name: string): (r: string)
    ensures forall k :: ScopeSlash(name, k) && SingleLine(name[k + 1..]) ==> r == name[1..k]
    ensures SingleLine(name) && (forall k :: !ScopeSlash(name, k)) ==> r == ""
    ensures !SingleLine(name) && (forall k :: ScopeSlash(name, k) ==> !SingleLine(name[k + 1..])) ==> r == name
  {
    var k := FirstSlash(name);
    if |name| > 0 && name[0] == '@' && k >= 1 && SingleLine(name[k + 1..]) then
      if k >= 2 then
        assert ScopeSlash(name, k);
        name[1..k]
      else
        assert forall k' :: !ScopeSlash(name, k');
        assert SingleLine(name) by {
          assert name == "@/" + name[k + 1..];
        }
        ""
    else
      assert forall k' :: ScopeSlash(name, k') ==> !SingleLine(name[k' + 1..]) by {
        forall k' | ScopeSlash(name, k') ensures !SingleLine(name[k' + 1..]) {
          ScopeSlashIsFirst(name, k');
        }
      }
      if SingleLine(name) then
        SuffixesSingleLine(name);
        ""
      else name
  }

  lemma SuffixesSingleLine(s: string)
    requires SingleLine(s)
    ensures forall i :: 0 <= i <= |s| ==> SingleLine(s[i..])
  {
    forall i | 0 <= i <= |s| ensures SingleLine(s[i..]) {
      assert forall j :: 0 <= j < |s| - i ==> s[i..][j] == s[i + j];
    }
  }

  /** The default repository: the replacement, or `makeomatic` when it is empty. */
  function RepositoryDefault(name: string): (r: string)
    ensures r != ""
    ensures forall k :: ScopeSlash(name, k) && SingleLine(name[k + 1..]) ==> r == name[1..k]
    ensures SingleLine(name) && (forall k :: !ScopeSlash(name, k)) ==> r == FallbackRepository
  {
    var replaced := ScopeReplace(name);
    if replaced == "" then FallbackRepository else replaced
  }

  // ---------------------------------------------------------- name lemmas

  /** For `@scope/rest` the project is `rest`: only the leading scope segment goes. */
  lemma ScopedProject(scope: string, rest: string)
    requires |scope| > 0 && '/' !in scope
    ensures ProjectDefault("@" + scope + "/" + rest) == rest
  {
    var name := "@" + scope + "/" + rest;
    assert ScopeSlash(name, |scope| + 1);
    assert name[|scope| + 2..] == rest;
  }

  /** For `@scope/rest` the repository is `scope`. */
  lemma ScopedRepository(scope: string, rest: string)
    requires |scope| > 0 && '/' !in scope && SingleLine(rest)
    ensures RepositoryDefault("@" + scope + "/" + rest) == scope
  {
    var name := "@" + scope + "/" + rest;
    assert ScopeSlash(name, |scope| + 1);
    assert name[|scope| + 2..] == rest;
    assert name[1..|scope| + 1] == scope;
  }

  /** A scoped name is rebuilt from its two defaults. */
  lemma {:induction false} ScopedNameRebuilt(name: string, k: int)
    requires ScopeSlash(name, k) && SingleLine(name[k + 1..])
    ensures "@" + RepositoryDefault(name) + "/" + ProjectDefault(name) == name
  {
    assert name == [name[0]] + name[1..k] + [name[k]] + name[k + 1..];
  }

  /** A name without a leading `@` is the project as it is, and the repository falls back. */
  lemma UnscopedName(name: string)
    requires |name| == 0 || name[0] != '@'
    ensures ProjectDefault(name) == name
    ensures SingleLine(name) ==> RepositoryDefault(name) == FallbackRepository
  {
  }

  /** `@/rest` has an empty scope: the project keeps the whole name, the repository falls back. */
  lemma EmptyScope(rest: string)
    requires SingleLine(rest)
    ensures ProjectDefault("@/" + rest) == "@/" + rest
    ensures RepositoryDefault("@/" + rest) == FallbackRepository
  {
    var name := "@/" + rest;
    assert name[1] == '/';
    assert SingleLine(name) by {
      assert forall i :: 2 <= i < |name| ==> name[i] == rest[i - 2];
    }
  }

  /** `@scope` without a slash is not a scope: the project keeps it, the repository falls back. */
  lemma ScopeWithoutSlash(scope: string)
    requires '/' !in scope && SingleLine(scope)
    ensures ProjectDefault("@" + scope) == "@" + scope
    ensures RepositoryDefault("@" + scope) == FallbackRepository
  {
    var name := "@" + scope;
    assert forall i :: 1 <= i < |name| ==> name[i] == scope[i - 1];
    assert forall i :: 1 <= i < |name| ==> name[i] != '/';
  }

  // ------------------------------------------------------------- defaults

  /** The option defaults that depend on the package. */
  datatype Defaults = Defaults(node: string, env: string, project: string, repository: string, version: Json)

  /** The `node` default: `20` in the module entry point, `10.12.0` in the older script. */
  function NodeDefault(legacy: bool): string {
    if legacy then "10.12.0" else "20"
  }

  /**
   * The defaults of one entry point: the assertion first, then the name-derived
   * defaults, which need `name` to be a string (`.replace` on anything else throws).
   */
  function OptionDefaults(pkg: Json, legacy: bool): (r: Result<Defaults, JsError>)
    ensures !PackageOk(pkg) ==> r == Failure(AssertionError(PackageMessage))
    ensures r.Success? <==> PackageOk(pkg) && "name" in pkg.fields && pkg.fields["name"].JStr?
    ensures r.Failure? && PackageOk(pkg) ==> r.error.TypeError?
    ensures r.Success? ==>
      var name := pkg.fields["name"].s;
      r.value == Defaults(NodeDefault(legacy), "production", ProjectDefault(name), RepositoryDefault(name),
                          pkg.fields["version"])
  {
    match CheckPackage(pkg)
    case Failure(e) => Failure(e)
    case Success(_) =>
      match Field(pkg.fields, "name")
      case None => Failure(TypeError("Cannot read properties of undefined (reading 'replace')"))
      case Some(JNull) => Failure(TypeError("Cannot read properties of null (reading 'replace')"))
      case Some(JStr(name)) =>
        Success(Defaults(NodeDefault(legacy), "production", ProjectDefault(name), RepositoryDefault(name),
                         pkg.fields["version"]))
      case Some(_) => Failure(TypeError("parentProject.name.replace is not a function"))
  }

  /** Both generations accept and refuse the same packages and agree on every default but `node`. */
  lemma GenerationsAgree(pkg: Json)
    ensures OptionDefaults(pkg, true).Success? <==> OptionDefaults(pkg, false).Success?
    ensures OptionDefaults(pkg, true).Success? ==>
      OptionDefaults(pkg, true).value == OptionDefaults(pkg, false).value.(node := "10.12.0")
  {
  }

  // ---------------------------------------------------------- configuration

  /** How the older entry point obtains its configuration. */
  datatype ConfigSource = NoConfig | RequireModule(path: string) | ParseJsonFile(path: string)

  /**
   * The first `.mdeprc`, `.mdeprc.js` or `.mdeprc.json` found upwards decides:
   * none gives `{}`, a `.js` file is required as a module, anything else is
   * read and parsed as JSON.
   */
  function LegacyConfigSource(configPath: Option<string>): (c: ConfigSource)
    ensures c == NoConfig <==> configPath.None? || configPath.value == ""
    ensures c.RequireModule? <==> configPath.Some? && configPath.value != "" && EndsWith(configPath.value, ".js")
    ensures !c.NoConfig? ==> c.path == configPath.value
  {
    match configPath
    case None => NoConfig
    case Some(p) => if p == "" then NoConfig else if EndsWith(p, ".js") then RequireModule(p) else ParseJsonFile(p)
  }

  /**
   * The configuration object: `{}` without an rc file, else what requiring or
   * parsing the file gives (either of which may throw).
   */
  function LegacyConfig(configPath: Option<string>, require: string -> Result<Json, JsError>,
                        parseFile: string -> Result<Json, JsError>): (r: Result<Json, JsError>)
    ensures LegacyConfigSource(configPath).NoConfig? ==> r == Success(JObj(map[]))
    ensures LegacyConfigSource(configPath).RequireModule? ==> r == require(configPath.value)
    ensures LegacyConfigSource(configPath).ParseJsonFile? ==> r == parseFile(configPath.value)
  {
    match LegacyConfigSource(configPath)
    case NoConfig => Success(JObj(map[]))
    case RequireModule(p) => require(p)
    case ParseJsonFile(p) => parseFile(p)
  }

  /** A `.mdeprc.json` is parsed, never required; `.mdeprc.js` is required. */
  lemma RcFileKinds()
    ensures LegacyConfigSource(Some("/app/.mdeprc.json")) == ParseJsonFile("/app/.mdeprc.json")
    ensures LegacyConfigSource(Some("/app/.mdeprc")) == ParseJsonFile("/app/.mdeprc")
    ensures LegacyConfigSource(Some("/app/.mdeprc.js")) == RequireModule("/app/.mdeprc.js")
  {
    assert "/app/.mdeprc.json"[|"/app/.mdeprc.json"| - 3..] == "son";
    assert "/app/.mdeprc"[|"/app/.mdeprc"| - 3..] == "prc";
  }

  /** What the configuration search of the module entry point returns, when it finds a file. */
  datatype SearchResult = SearchResult(config: Json, isEmpty: bool)

  /** `configResult !== null && !configResult.isEmpty ? configResult.config : {}`. */
  function ModuleConfig(result: Option<SearchResult>): (r: Json)
    ensures result.Some? && !result.value.isEmpty ==> r == result.value.config
    ensures result.None? || result.value.isEmpty ==> r == JObj(map[])
  {
    if result.Some? && !result.value.isEmpty then result.value.config else JObj(map[])
  }
}
