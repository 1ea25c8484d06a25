/**
 * `test init`: copy the test templates into the project where the targets do
 * not exist yet, and make sure an existing `.babelrc` lists `istanbul` among
 * the plugins of its `test` environment.
 */
module TestInit {
  import opened Wrappers
  import opened Json
  import opened Text
  import opened Effects

  const PluginsPath: seq<string> := ["env", "test", "plugins"]
  const Istanbul := JStr("istanbul")
  const Babelrc := ".babelrc"
  const MochaOpts := "test/mocha.opts"
  /** The default `docker_compose` of the `test` command. */
  const DefaultCompose := "./test/docker-compose.yml"

  // ---------------------------------------------------------------- babelrc

  /** `get(babelrc, 'env.test.plugins', [])`: the default applies only where nothing is stored. */
  function Plugins(babelrc: Json): Json {
    GetPath(babelrc, PluginsPath).GetOr(JArr([]))
  }

  /** `plugins.includes('istanbul')`, for the values on which it is defined. */
  predicate Listed(plugins: Json) {
    (plugins.JArr? && Istanbul in plugins.items) || (plugins.JStr? && Contains(plugins.s, "istanbul"))
  }

  /**
   * The edit of a parsed `.babelrc`: nothing to write when `istanbul` is
   * already listed; otherwise the plugin list with `istanbul` pushed at its
   * end is set back into the document. Calling `includes` or `push` on a
   * value that has no such method throws.
   */
  function EnsureIstanbul(babelrc: Json): (r: Result<Option<Json>, JsError>)
    ensures r == Success(None) <==> Listed(Plugins(babelrc))
    ensures r.Failure? <==> !Plugins(babelrc).JArr? && !Listed(Plugins(babelrc))
    ensures r.Success? && r.value.Some? ==>
      r.value.value == SetPath(babelrc, PluginsPath, JArr(Plugins(babelrc).items + [Istanbul]))
  {
    match Plugins(babelrc)
    case JArr(items) =>
      if Istanbul in items then Success(None)
      else Success(Some(SetPath(babelrc, PluginsPath, JArr(items + [Istanbul]))))
    case JStr(s) =>
      if Contains(s, "istanbul") then Success(None) else Failure(TypeError("plugins.push is not a function"))
    case JNull => Failure(TypeError("Cannot read properties of null (reading 'includes')"))
    case _ => Failure(TypeError("plugins.includes is not a function"))
  }

  /**
   * For an object document whose plugins are a list without `istanbul`, the
   * new list is the old one with `istanbul` appended, and every other
   * top-level key keeps its value.
   */
  lemma IstanbulAppended(babelrc: Json)
    requires babelrc.JObj? && Plugins(babelrc).JArr? && Istanbul !in Plugins(babelrc).items
    ensures EnsureIstanbul(babelrc).Success? && EnsureIstanbul(babelrc).value.Some?
    ensures var edited := EnsureIstanbul(babelrc).value.value;
      GetPath(edited, PluginsPath) == Some(JArr(Plugins(babelrc).items + [Istanbul])) &&
      edited.JObj? && forall k :: k in babelrc.fields && k != "env" ==> edited.fields[k] == babelrc.fields[k]
  {
    GetAfterSet(babelrc, PluginsPath, JArr(Plugins(babelrc).items + [Istanbul]));
  }

  /** After the edit `istanbul` is listed, so a second edit writes nothing. */
  lemma EnsureIstanbulIdempotent(babelrc: Json)
    requires babelrc.JObj? && EnsureIstanbul(babelrc).Success? && EnsureIstanbul(babelrc).value.Some?
    ensures EnsureIstanbul(EnsureIstanbul(babelrc).value.value) == Success(None)
  {
    IstanbulAppended(babelrc);
    var items := Plugins(babelrc).items + [Istanbul];
    assert items[|items| - 1] == Istanbul;
  }

  // -------------------------------------------------------------- templates

  /** The directory a path names its file in: the text before its last `/`, or `.` when it has none. */
  function ParentOf(path: string): string {
    var i := LastIndexOf(path, '/');
    if i < 0 then "." else if i == 0 then "/" else path[..i]
  }

  /** `test('-e', p)`: a file or a directory is there. */
  predicate Exists(files: map<string, string>, dirs: set<string>, p: string) {
    p in files || p in dirs
  }

  /**
   * `cp(src, dst)`: a source that is not a file, or a target whose directory
   * does not exist, makes shelljs print an error and change nothing (it does
   * not create directories); otherwise the target gets the source's content.
   */
  function Cp(files: map<string, string>, dirs: set<string>, src: string, dst: string): map<string, string> {
    if src in files && ParentOf(dst) in dirs then files[dst := files[src]] else files
  }

  /** `if (!test('-e', dst)) cp(src, dst)`. */
  function CopyIfMissing(files: map<string, string>, dirs: set<string>, src: string, dst: string): map<string, string> {
    if Exists(files, dirs, dst) then files else Cp(files, dirs, src, dst)
  }

  /**
   * A copy never overwrites, adds at most its target, and only into an
   * existing directory; afterwards its target is there, or its template is
   * absent, or the target's directory is missing, so a second identical copy
   * changes nothing.
   */
  lemma CopyIfMissingSettles(files: map<string, string>, dirs: set<string>, src: string, dst: string)
    ensures var r := CopyIfMissing(files, dirs, src, dst);
      (forall p :: p in files ==> p in r && r[p] == files[p]) &&
      (forall p :: p in r ==> p in files || p == dst) &&
      (dst in r && dst !in files ==> ParentOf(dst) in dirs && src in files && r[dst] == files[src]) &&
      (Exists(r, dirs, dst) || src !in r || ParentOf(dst) !in dirs) &&
      CopyIfMissing(r, dirs, src, dst) == r
  {
  }

  /** The (template, target) pairs of the plain copies, in the order they are checked. */
  function Templates(templates: string, dockerCompose: string): seq<(string, string)> {
    [(templates + "/.nycrc", ".nycrc"),
     (templates + "/docker-compose.yml", dockerCompose),
     (templates + "/mocha.opts", MochaOpts)]
  }

  /** The three plain template copies, in order. */
  function CopyTemplates(files: map<string, string>, dirs: set<string>, templates: string, dockerCompose: string): map<string, string> {
    var t := Templates(templates, dockerCompose);
    CopyIfMissing(CopyIfMissing(CopyIfMissing(files, dirs, t[0].0, t[0].1), dirs, t[1].0, t[1].1), dirs, t[2].0, t[2].1)
  }

  /**
   * The `.babelrc` step on the files after the copies: a missing one is
   * copied from the templates, an existing one is read, parsed and edited;
   * reading a directory throws.
   */
  function BabelrcStep(copied: map<string, string>, dirs: set<string>, templates: string,
                       parse: string -> Result<Json, JsError>, stringify: Json -> string): Result<map<string, string>, JsError>
  {
    if !Exists(copied, dirs, Babelrc) then Success(Cp(copied, dirs, templates + "/.babelrc", Babelrc))
    else if Babelrc !in copied then Failure(Error("EISDIR: illegal operation on a directory, read"))
    else
      match parse(copied[Babelrc])
      case Failure(e) => Failure(e)
      case Success(babelrc) =>
        match EnsureIstanbul(babelrc)
        case Failure(e) => Failure(e)
        case Success(None) => Success(copied)
        case Success(Some(edited)) => Success(copied[Babelrc := stringify(edited)])
  }

  /**
   * The files after `test init`, or the error it throws; `dirs` are the
   * directories that exist (none is created), and `parse` and `stringify` are
   * `JSON.parse` and `JSON.stringify(…, null, 2)`.
   */
  function InitFiles(files: map<string, string>, dirs: set<string>, templates: string, dockerCompose: string,
                     parse: string -> Result<Json, JsError>, stringify: Json -> string): Result<map<string, string>, JsError>
  {
    BabelrcStep(CopyTemplates(files, dirs, templates, dockerCompose), dirs, templates, parse, stringify)
  }

  /** The project's files, which `test init` edits in place, and its directories, which it never creates. */
  class Workspace {
    var files: map<string, string>
    const dirs: set<string>

    constructor (files: map<string, string>, dirs: set<string>)
      ensures this.files == files && this.dirs == dirs
    {
      this.files := files;
      this.dirs := dirs;
    }
  }

  /**
   * `test init`: the copies happen first, so a `.babelrc` that fails to parse
   * or to edit leaves them in place and throws.
   */
  method Init(ws: Workspace, templates: string, dockerCompose: string,
              parse: string -> Result<Json, JsError>, stringify: Json -> string) returns (outcome: Outcome)
    modifies ws
    ensures var r := InitFiles(old(ws.files), ws.dirs, templates, dockerCompose, parse, stringify);
      (r.Success? ==> outcome == Completed && ws.files == r.value) &&
      (r.Failure? ==> outcome == Threw(r.error) && ws.files == CopyTemplates(old(ws.files), ws.dirs, templates, dockerCompose))
  {
    CopyInto(ws, templates, dockerCompose);
    outcome := EditBabelrc(ws, templates, parse, stringify);
  }

  /** The three plain copies, each only where its target is missing. */
  method CopyInto(ws: Workspace, templates: string, dockerCompose: string)
    modifies ws
    ensures ws.files == CopyTemplates(old(ws.files), ws.dirs, templates, dockerCompose)
  {
    if !Exists(ws.files, ws.dirs, ".nycrc") {
      ws.files := Cp(ws.files, ws.dirs, templates + "/.nycrc", ".nycrc");
    }
    if !Exists(ws.files, ws.dirs, dockerCompose) {
      ws.files := Cp(ws.files, ws.dirs, templates + "/docker-compose.yml", dockerCompose);
    }
    if !Exists(ws.files, ws.dirs, MochaOpts) {
      ws.files := Cp(ws.files, ws.dirs, templates + "/mocha.opts", MochaOpts);
    }
  }

  /** The `.babelrc` step; a failure leaves the files as they were. */
  method EditBabelrc(ws: Workspace, templates: string,
                     parse: string -> Result<Json, JsError>, stringify: Json -> string) returns (outcome: Outcome)
    modifies ws
    ensures var r := BabelrcStep(old(ws.files), ws.dirs, templates, parse, stringify);
      (r.Success? ==> outcome == Completed && ws.files == r.value) &&
      (r.Failure? ==> outcome == Threw(r.error) && ws.files == old(ws.files))
  {
    if !Exists(ws.files, ws.dirs, Babelrc) {
      ws.files := Cp(ws.files, ws.dirs, templates + "/.babelrc", Babelrc);
    } else if Babelrc !in ws.files {
      return Threw(Error("EISDIR: illegal operation on a directory, read"));
    } else {
      var babelrc := parse(ws.files[Babelrc]);
      if babelrc.Failure? {
        return Threw(babelrc.error);
      }
      var edit := EnsureIstanbul(babelrc.value);
      if edit.Failure? {
        return Threw(edit.error);
      }
      if edit.value.Some? {
        ws.files := ws.files[Babelrc := stringify(edit.value.value)];
      }
    }
    outcome := Completed;
  }

  /** Files that existed are kept as they were, except an edited `.babelrc`. */
  lemma ExistingFilesKept(files: map<string, string>, dirs: set<string>, templates: string, dockerCompose: string,
                          parse: string -> Result<Json, JsError>, stringify: Json -> string)
    ensures var r := InitFiles(files, dirs, templates, dockerCompose, parse, stringify);
      r.Success? ==> forall p :: p in files && p != Babelrc ==> p in r.value && r.value[p] == files[p]
  {
    var t := Templates(templates, dockerCompose);
    var f1 := CopyIfMissing(files, dirs, t[0].0, t[0].1);
    var f2 := CopyIfMissing(f1, dirs, t[1].0, t[1].1);
    CopyIfMissingSettles(files, dirs, t[0].0, t[0].1);
    CopyIfMissingSettles(f1, dirs, t[1].0, t[1].1);
    CopyIfMissingSettles(f2, dirs, t[2].0, t[2].1);
  }

  /** The plain copies add only targets whose directory exists. */
  lemma CopiesAddOnlyIntoDirectories(files: map<string, string>, dirs: set<string>, templates: string, dockerCompose: string)
    ensures forall p :: p in CopyTemplates(files, dirs, templates, dockerCompose) ==> p in files || ParentOf(p) in dirs
  {
    var t := Templates(templates, dockerCompose);
    var f1 := CopyIfMissing(files, dirs, t[0].0, t[0].1);
    var f2 := CopyIfMissing(f1, dirs, t[1].0, t[1].1);
    CopyIfMissingSettles(files, dirs, t[0].0, t[0].1);
    CopyIfMissingSettles(f1, dirs, t[1].0, t[1].1);
    CopyIfMissingSettles(f2, dirs, t[2].0, t[2].1);
  }

  /** The `.babelrc` step adds at most `.babelrc`, and only when its directory exists. */
  lemma BabelrcStepAdds(copied: map<string, string>, dirs: set<string>, templates: string,
                        parse: string -> Result<Json, JsError>, stringify: Json -> string)
    ensures var r := BabelrcStep(copied, dirs, templates, parse, stringify);
      r.Success? ==> forall p :: p in r.value ==> p in copied || (p == Babelrc && ParentOf(Babelrc) in dirs)
  {
  }

  /**
   * Nothing is created in a directory that does not exist: a project without
   * `test/` gets neither `test/mocha.opts` nor a compose file there, and
   * the run goes on.
   */
  lemma NoFileInMissingDirectory(files: map<string, string>, dirs: set<string>, templates: string, dockerCompose: string,
                                 parse: string -> Result<Json, JsError>, stringify: Json -> string, p: string)
    requires p !in files && ParentOf(p) !in dirs
    ensures p !in CopyTemplates(files, dirs, templates, dockerCompose)
    ensures var r := InitFiles(files, dirs, templates, dockerCompose, parse, stringify);
      r.Success? ==> p !in r.value
  {
    CopiesAddOnlyIntoDirectories(files, dirs, templates, dockerCompose);
    BabelrcStepAdds(CopyTemplates(files, dirs, templates, dockerCompose), dirs, templates, parse, stringify);
  }

  /** The default compose target and the mocha options both live in `test/`. */
  lemma TestDirectoryTargets()
    ensures ParentOf(MochaOpts) == "test"
    ensures ParentOf(DefaultCompose) == "./test"
  {
    MochaOptsDirectory();
    ComposeDirectory();
  }

  lemma MochaOptsDirectory()
    ensures ParentOf(MochaOpts) == "test"
  {
    NamedInDirectory(MochaOpts, "test", "mocha.opts");
  }

  lemma ComposeDirectory()
    ensures ParentOf(DefaultCompose) == "./test"
  {
    var name := "docker-compose.yml";
    assert '/' !in name;
    assert DefaultCompose == "./test" + "/" + name;
    NamedInDirectory(DefaultCompose, "./test", name);
  }

  /** `path`, spelled as a directory, a `/` and a file name, has that directory as its parent. */
  lemma NamedInDirectory(path: string, dir: string, name: string)
    requires dir != "" && '/' !in name && path == dir + "/" + name
    ensures ParentOf(path) == dir
  {
    InDirectory(dir, name);
  }

  /** A file name joined to a directory has that directory as its parent. */
  lemma InDirectory(dir: string, name: string)
    requires dir != "" && '/' !in name
    ensures ParentOf(dir + "/" + name) == dir
  {
    var path := dir + "/" + name;
    assert path[|dir|] == '/' && path[|dir| + 1..] == name && path[..|dir|] == dir;
    SlashAt(path, |dir|);
  }

  /** A path whose last `/` is at `i` has the text before it as its directory. */
  lemma SlashAt(path: string, i: nat)
    requires 0 < i < |path| && path[i] == '/' && '/' !in path[i + 1..]
    ensures ParentOf(path) == path[..i]
  {
  }

  /**
   * A project without `test/` (the usual case for a new project) gets neither
   * `test/mocha.opts` nor the default compose file, and the run still goes on
   * to the `.babelrc` step.
   */
  lemma WithoutTestDirectory(files: map<string, string>, dirs: set<string>, templates: string,
                             parse: string -> Result<Json, JsError>, stringify: Json -> string)
    requires "test" !in dirs && "./test" !in dirs
    requires MochaOpts !in files && DefaultCompose !in files
    ensures var copied := CopyTemplates(files, dirs, templates, DefaultCompose);
      MochaOpts !in copied && DefaultCompose !in copied &&
      InitFiles(files, dirs, templates, DefaultCompose, parse, stringify)
        == BabelrcStep(copied, dirs, templates, parse, stringify)
  {
    TestDirectoryTargets();
    NoFileInMissingDirectory(files, dirs, templates, DefaultCompose, parse, stringify, MochaOpts);
    NoFileInMissingDirectory(files, dirs, templates, DefaultCompose, parse, stringify, DefaultCompose);
  }

  /** An existing `.babelrc` that parses to an object lists `istanbul` after the run. */
  lemma IstanbulListedAfter(files: map<string, string>, dirs: set<string>, templates: string, dockerCompose: string,
                            parse: string -> Result<Json, JsError>, stringify: Json -> string)
    requires forall j :: parse(stringify(j)) == Success(j)
    requires var copied := CopyTemplates(files, dirs, templates, dockerCompose);
      Babelrc in copied && parse(copied[Babelrc]).Success? && parse(copied[Babelrc]).value.JObj?
    ensures var r := InitFiles(files, dirs, templates, dockerCompose, parse, stringify);
      r.Success? ==> (Babelrc in r.value && parse(r.value[Babelrc]).Success? &&
                      Listed(Plugins(parse(r.value[Babelrc]).value)))
  {
    var copied := CopyTemplates(files, dirs, templates, dockerCompose);
    var babelrc := parse(copied[Babelrc]).value;
    if EnsureIstanbul(babelrc).Success? && EnsureIstanbul(babelrc).value.Some? {
      EnsureIstanbulIdempotent(babelrc);
    }
  }

  /** No template path is also a target. */
  predicate SeparateTemplates(templates: string, dockerCompose: string) {
    var t := Templates(templates, dockerCompose);
    forall i, j :: 0 <= i < 3 && 0 <= j < 3 ==> t[i].0 != t[j].1 && t[i].0 != Babelrc
  }

  /**
   * Once the plain copies have run, they change nothing more on any later
   * state that keeps their files and gains no template.
   */
  lemma {:induction false} CopiesSettled(files: map<string, string>, later: map<string, string>, dirs: set<string>,
                                         templates: string, dockerCompose: string)
    requires SeparateTemplates(templates, dockerCompose)
    requires var copied := CopyTemplates(files, dirs, templates, dockerCompose);
      (forall p :: p in copied ==> p in later) &&
      forall i :: 0 <= i < 3 && Templates(templates, dockerCompose)[i].0 in later ==>
        Templates(templates, dockerCompose)[i].0 in copied
    ensures CopyTemplates(later, dirs, templates, dockerCompose) == later
  {
    var t := Templates(templates, dockerCompose);
    var f1 := CopyIfMissing(files, dirs, t[0].0, t[0].1);
    var f2 := CopyIfMissing(f1, dirs, t[1].0, t[1].1);
    var f3 := CopyIfMissing(f2, dirs, t[2].0, t[2].1);
    CopyIfMissingSettles(files, dirs, t[0].0, t[0].1);
    CopyIfMissingSettles(f1, dirs, t[1].0, t[1].1);
    CopyIfMissingSettles(f2, dirs, t[2].0, t[2].1);
    assert CopyIfMissing(later, dirs, t[0].0, t[0].1) == later;
    assert CopyIfMissing(later, dirs, t[1].0, t[1].1) == later;
    assert CopyIfMissing(later, dirs, t[2].0, t[2].1) == later;
  }

  /**
   * A second `test init` over a project that had a `.babelrc` changes nothing,
   * when no template is also a target and `JSON.parse` reads back what
   * `JSON.stringify` wrote.
   */
  lemma InitIdempotent(files: map<string, string>, dirs: set<string>, templates: string, dockerCompose: string,
                       parse: string -> Result<Json, JsError>, stringify: Json -> string)
    requires forall j :: parse(stringify(j)) == Success(j)
    requires SeparateTemplates(templates, dockerCompose) && Babelrc in files
    requires InitFiles(files, dirs, templates, dockerCompose, parse, stringify).Success?
    ensures var once := InitFiles(files, dirs, templates, dockerCompose, parse, stringify).value;
      InitFiles(once, dirs, templates, dockerCompose, parse, stringify) == Success(once)
  {
    var once := InitFiles(files, dirs, templates, dockerCompose, parse, stringify).value;
    var copied := CopyTemplates(files, dirs, templates, dockerCompose);
    ExistingFilesKept(files, dirs, templates, dockerCompose, parse, stringify);
    assert Babelrc in copied by {
      var t := Templates(templates, dockerCompose);
      CopyIfMissingSettles(files, dirs, t[0].0, t[0].1);
      CopyIfMissingSettles(CopyIfMissing(files, dirs, t[0].0, t[0].1), dirs, t[1].0, t[1].1);
      CopyIfMissingSettles(CopyIfMissing(CopyIfMissing(files, dirs, t[0].0, t[0].1), dirs, t[1].0, t[1].1), dirs, t[2].0, t[2].1);
    }
    CopiesSettled(files, once, dirs, templates, dockerCompose);
    var babelrc := parse(copied[Babelrc]).value;
    if EnsureIstanbul(babelrc).value.Some? {
      var edited := EnsureIstanbul(babelrc).value.value;
      if babelrc.JObj? {
        EnsureIstanbulIdempotent(babelrc);
      } else {
        assert edited == babelrc;
        assert once[Babelrc] == stringify(edited);
        assert parse(once[Babelrc]) == Success(babelrc);
        assert once[Babelrc := stringify(edited)] == once;
      }
    }
  }
}
