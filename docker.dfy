/**
 * Image naming for the docker commands: the image base `repository/project`,
 * the main tag and the list of tags, derived once onto the shared `argv`.
 * The current generation guards with a flag stored on `argv` itself; the
 * older one with a flag of the command module, shared by every `argv`.
 */
module Docker {
  import opened Wrappers
  import opened Json
  import opened Text
  import opened Effects

  /** A possibly `undefined` value in a template string. */
  function TemplateText(v: Option<Json>): string {
    if v.None? then "undefined" else ValueText(v.value)
  }

  predicate VersionIsString(version: Option<Json>) {
    version.Some? && version.value.JStr?
  }

  /** `assert.ok(typeof argv.version === 'string', `version is ${argv.version}`)`. */
  function CheckVersion(version: Option<Json>): (r: Result<string, JsError>)
    ensures r.Success? <==> VersionIsString(version)
    ensures r.Success? ==> JStr(r.value) == version.value
    ensures r.Failure? ==> r.error == AssertionError("version is " + TemplateText(version))
  {
    if VersionIsString(version) then Success(version.value.s)
    else Failure(AssertionError("version is " + TemplateText(version)))
  }

  /** The image name: `repository/project`. */
  function Base(repository: string, project: string): string {
    repository + "/" + project
  }

  /** The version part of the main tag: prefixed with the node version when it is included. */
  function BaseTag(includeNode: bool, node: string, version: string): (t: string)
    ensures includeNode ==> t == node + "-" + version
    ensures !includeNode ==> t == version
  {
    if includeNode then node + "-" + version else version
  }

  /**
   * The tags of the current generation: each extra tag in its given order,
   * then the node version when it is included, then `latest` when asked for,
   * every one on the image base.
   */
  function Tags(base: string, extraTags: seq<string>, includeNode: bool, node: string, tagLatest: bool): (tags: seq<string>)
    ensures |tags| == |extraTags| + (if includeNode then 1 else 0) + (if tagLatest then 1 else 0)
    ensures forall i :: 0 <= i < |extraTags| ==> tags[i] == base + ":" + extraTags[i]
    ensures includeNode ==> tags[|extraTags|] == base + ":" + node
    ensures tagLatest ==> tags[|tags| - 1] == base + ":latest"
  {
    seq(|extraTags|, i requires 0 <= i < |extraTags| => base + ":" + extraTags[i])
      + (if includeNode then [base + ":" + node] else [])
      + (if tagLatest then [base + ":latest"] else [])
  }

  /** Every tag names the image base followed by a colon. */
  lemma TagsOnBase(base: string, extraTags: seq<string>, includeNode: bool, node: string, tagLatest: bool)
    ensures forall t :: t in Tags(base, extraTags, includeNode, node, tagLatest) ==> StartsWith(t, base + ":")
  {
    var tags := Tags(base, extraTags, includeNode, node, tagLatest);
    forall t | t in tags ensures StartsWith(t, base + ":") {
      var i :| 0 <= i < |tags| && tags[i] == t;
      var suffix := if i < |extraTags| then extraTags[i]
        else if includeNode && i == |extraTags| then node
        else "latest";
      assert t == base + ":" + suffix;
      assert t[..|base + ":"|] == base + ":";
    }
  }

  /** The tags of the older generation: `latest` first, then the node version when it is included. */
  function LegacyTags(base: string, includeNode: bool, node: string): (tags: seq<string>)
    ensures |tags| == (if includeNode then 2 else 1)
    ensures tags[0] == base + ":latest"
    ensures includeNode ==> tags[1] == base + ":" + node
  {
    [base + ":latest"] + (if includeNode then [base + ":" + node] else [])
  }

  /** The older list is the newer one with `latest` as the only extra tag and no trailing `latest`. */
  lemma LegacyTagsAsExtraTag(base: string, includeNode: bool, node: string)
    ensures LegacyTags(base, includeNode, node) == Tags(base, ["latest"], includeNode, node, false)
  {
    var tags := Tags(base, ["latest"], includeNode, node, false);
    assert tags[0] == base + ":latest";
  }

  /** The fields of `argv` the docker commands read, and those they derive. */
  class DockerArgv {
    const repository: string
    const project: string
    const node: string
    const version: Option<Json>
    const includeNode: bool     // argv.include_node
    const tagLatest: bool       // argv.tag_latest
    const extraTags: seq<string>  // argv.extra_tags
    var base: Option<string>
    var baseTag: Option<string>
    var mainTag: Option<string>
    var tags: Option<seq<string>>
    var handled: bool           // argv[kDockerHandler]

    constructor (repository: string, project: string, node: string, version: Option<Json>,
                 includeNode: bool, tagLatest: bool, extraTags: seq<string>)
      ensures this.repository == repository && this.project == project && this.node == node
      ensures this.version == version && this.includeNode == includeNode && this.tagLatest == tagLatest
      ensures this.extraTags == extraTags
      ensures base == None && baseTag == None && mainTag == None && tags == None && !handled
    {
      this.repository := repository;
      this.project := project;
      this.node := node;
      this.version := version;
      this.includeNode := includeNode;
      this.tagLatest := tagLatest;
      this.extraTags := extraTags;
      base := None;
      baseTag := None;
      mainTag := None;
      tags := None;
      handled := false;
    }

    /** Base, base tag and main tag are derived from the inputs. */
    predicate Named()
      reads this
      requires VersionIsString(version)
    {
      var b := Base(repository, project);
      var t := BaseTag(includeNode, node, version.value.s);
      base == Some(b) && baseTag == Some(t) && mainTag == Some(b + ":" + t)
    }
  }

  /**
   * The current generation's handler. A call on an `argv` that carries the
   * flag does nothing; otherwise a non-string version fails the assertion
   * before anything is written, and a string one derives every field and
   * sets the flag.
   */
  method Handler(argv: DockerArgv) returns (outcome: Outcome)
    modifies argv
    ensures old(argv.handled) ==> outcome == Completed && unchanged(argv)
    ensures !old(argv.handled) && !VersionIsString(argv.version) ==>
      outcome == Threw(CheckVersion(argv.version).error) && unchanged(argv)
    ensures !old(argv.handled) && VersionIsString(argv.version) ==>
      outcome == Completed && argv.handled && argv.Named() &&
      argv.tags == Some(Tags(argv.base.value, argv.extraTags, argv.includeNode, argv.node, argv.tagLatest))
  {
    if argv.handled {
      return Completed;
    }
    var version := CheckVersion(argv.version);
    if version.Failure? {
      return Threw(version.error);
    }
    var base := Base(argv.repository, argv.project);
    argv.base := Some(base);
    argv.baseTag := Some(BaseTag(argv.includeNode, argv.node, version.value));
    argv.mainTag := Some(base + ":" + argv.baseTag.value);
    var tags := seq(|argv.extraTags|, i requires 0 <= i < |argv.extraTags| => base + ":" + argv.extraTags[i]);
    if argv.includeNode {
      tags := tags + [base + ":" + argv.node];
    }
    if argv.tagLatest {
      tags := tags + [base + ":latest"];
    }
    ghost var spec := Tags(base, argv.extraTags, argv.includeNode, argv.node, argv.tagLatest);
    assert |tags| == |spec|;
    assert forall i :: 0 <= i < |tags| ==> tags[i] == spec[i];
    assert tags == spec;
    argv.tags := Some(tags);
    assert argv.base.value == base;
    argv.handled := true;
    outcome := Completed;
  }

  /** The older `docker` command module, whose `called` flag guards every later call. */
  class LegacyDockerCommand {
    var called: bool    // exports.called

    constructor ()
      ensures !called
    {
      called := false;
    }

    /**
     * Once any call has succeeded, later calls with any `argv` do nothing; a
     * non-string version fails the assertion and leaves the flag down.
     */
    method Handler(argv: DockerArgv) returns (outcome: Outcome)
      modifies this, argv
      ensures old(called) ==> outcome == Completed && called && unchanged(argv)
      ensures !old(called) && !VersionIsString(argv.version) ==>
        outcome == Threw(CheckVersion(argv.version).error) && !called && unchanged(argv)
      ensures !old(called) && VersionIsString(argv.version) ==>
        outcome == Completed && called && argv.Named() &&
        argv.tags == Some(LegacyTags(argv.base.value, argv.includeNode, argv.node)) &&
        argv.handled == old(argv.handled)
    {
      if called {
        return Completed;
      }
      var version := CheckVersion(argv.version);
      if version.Failure? {
        return Threw(version.error);
      }
      var base := Base(argv.repository, argv.project);
      argv.base := Some(base);
      argv.baseTag := Some(BaseTag(argv.includeNode, argv.node, version.value));
      argv.mainTag := Some(base + ":" + argv.baseTag.value);
      var tags := [base + ":latest"];
      if argv.includeNode {
        tags := tags + [base + ":" + argv.node];
      }
      argv.tags := Some(tags);
      assert argv.base.value == base;
      assert tags == LegacyTags(base, argv.includeNode, argv.node);
      called := true;
      outcome := Completed;
    }
  }
}
