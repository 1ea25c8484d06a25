/**
 * The older postinstall script: when installed as a dependency (or forced) it
 * makes sure six release settings are present, with exactly the expected
 * values, in the `release` and `scripts` objects of the client's
 * `package.json`, rewriting the file once for each setting it adds.
 */
module SetupReleaseLegacy {
  import opened Wrappers
  import opened Json
  import opened Effects
  import opened SetupRelease

  /** The settings: key, value and the holder object they go in, in the order they are installed. */
  const Settings: seq<(string, string, string)> := [
    ("analyzeCommits", "simple-commit-message", "release"),
    ("generateNotes", "github-post-release", "release"),
    ("verifyConditions", "@makeomatic/condition-codeship", "release"),
    ("branch", "master", "release"),
    ("semantic-release", "semantic-release pre && npm publish && semantic-release post", "scripts"),
    ("commit", "simple-commit-message", "scripts")
  ]

  /** `path.join(process.cwd(), '..', '..', 'package.json')`, left unnormalised. */
  function LegacyPackagePath(cwd: string): string {
    cwd + "/../../package.json"
  }

  /** `alreadyInstalled`: the holder is truthy and holds exactly the expected value under the key. */
  predicate HasSetting(pkg: map<string, Json>, name: string, script: string, holder: string) {
    TruthyOpt(Field(pkg, holder)) && TruthyOpt(KeyOf(Field(pkg, holder), name)) &&
    KeyOf(Field(pkg, holder), name) == Some(JStr(script))
  }

  /** The holder can take a key: it is missing or falsy (and becomes `{}`), or it is an object. */
  predicate Writable(pkg: map<string, Json>, holder: string) {
    !TruthyOpt(Field(pkg, holder)) || pkg[holder].JObj?
  }

  /**
   * `addPlugin`: a missing or falsy holder becomes `{}` first; the value is
   * then assigned. On a truthy holder that is not an object the assignment
   * is lost (a primitive ignores it, an array keeps it out of the JSON).
   */
  function AddPlugin(pkg: map<string, Json>, name: string, script: string, holder: string): map<string, Json> {
    if !TruthyOpt(Field(pkg, holder)) then pkg[holder := JObj(map[name := JStr(script)])]
    else if pkg[holder].JObj? then pkg[holder := JObj(pkg[holder].fields[name := JStr(script)])]
    else pkg
  }

  /** Only the holder is added or changed; every other key keeps its value. */
  lemma AddPluginFrame(pkg: map<string, Json>, name: string, script: string, holder: string)
    ensures var r := AddPlugin(pkg, name, script, holder);
      && r.Keys == pkg.Keys + (if Writable(pkg, holder) then {holder} else {})
      && forall k :: k in pkg && k != holder ==> r[k] == pkg[k]
  {
  }

  /** On a writable holder the value is installed, replacing any other value under its key, and the holder keeps its other keys. */
  lemma AddPluginInstalls(pkg: map<string, Json>, name: string, script: string, holder: string)
    requires script != "" && Writable(pkg, holder)
    ensures var r := AddPlugin(pkg, name, script, holder);
      HasSetting(r, name, script, holder) &&
      (holder in pkg && pkg[holder].JObj? ==>
        r[holder].fields.Keys == pkg[holder].fields.Keys + {name} &&
        forall k :: k in pkg[holder].fields && k != name ==> r[holder].fields[k] == pkg[holder].fields[k])
  {
  }

  /** A truthy holder that is not an object never takes the setting: the file is rewritten unchanged. */
  lemma AddPluginLostOnPrimitive(pkg: map<string, Json>, name: string, script: string, holder: string)
    requires !Writable(pkg, holder)
    ensures AddPlugin(pkg, name, script, holder) == pkg
    ensures !HasSetting(pkg, name, script, holder)
  {
  }

  /** Adding one setting keeps every other installed setting installed. */
  lemma SettingKept(pkg: map<string, Json>, name: string, script: string, holder: string,
                    otherName: string, otherScript: string, otherHolder: string)
    requires HasSetting(pkg, name, script, holder)
    requires (name, holder) != (otherName, otherHolder)
    ensures HasSetting(AddPlugin(pkg, otherName, otherScript, otherHolder), name, script, holder)
  {
  }

  /** The package after one setting: unchanged when it is already there. */
  function NextPackage(pkg: map<string, Json>, setting: (string, string, string)): map<string, Json> {
    if HasSetting(pkg, setting.0, setting.1, setting.2) then pkg
    else AddPlugin(pkg, setting.0, setting.1, setting.2)
  }

  /** What one setting prints and writes: nothing when it is already there. */
  function SettingLines(pkg: map<string, Json>, path: string, setting: (string, string, string)): seq<Action> {
    if HasSetting(pkg, setting.0, setting.1, setting.2) then []
    else InstallLines(path, setting.0, setting.1, setting.2, NextPackage(pkg, setting))
  }

  /** The `forEach` over the settings: each one not installed is announced and added, and the file saved. */
  function InstallAll(pkg: map<string, Json>, path: string, settings: seq<(string, string, string)>): Installed
    decreases |settings|
  {
    if |settings| == 0 then Installed(pkg, [])
    else
      var rest := InstallAll(NextPackage(pkg, settings[0]), path, settings[1..]);
      Installed(rest.pkg, SettingLines(pkg, path, settings[0]) + rest.log)
  }

  /** Holders mentioned by the settings. */
  predicate HolderOf(settings: seq<(string, string, string)>, holder: string) {
    exists i :: 0 <= i < |settings| && settings[i].2 == holder
  }

  /** Once writable, a holder stays writable under every addition. */
  lemma {:induction false} InstallAllWritable(pkg: map<string, Json>, path: string, settings: seq<(string, string, string)>, holder: string)
    requires Writable(pkg, holder)
    ensures Writable(InstallAll(pkg, path, settings).pkg, holder)
    decreases |settings|
  {
    if |settings| > 0 {
      var next := NextPackage(pkg, settings[0]);
      InstallAllWritable(next, path, settings[1..], holder);
    }
  }

  /** An installed setting stays installed while the others are added. */
  lemma {:induction false} InstallAllKeeps(pkg: map<string, Json>, path: string, settings: seq<(string, string, string)>,
                                           name: string, script: string, holder: string)
    requires HasSetting(pkg, name, script, holder)
    requires forall i :: 0 <= i < |settings| ==> (settings[i].0, settings[i].2) != (name, holder)
    ensures HasSetting(InstallAll(pkg, path, settings).pkg, name, script, holder)
    decreases |settings|
  {
    if |settings| > 0 {
      var next := NextPackage(pkg, settings[0]);
      SettingKept(pkg, name, script, holder, settings[0].0, settings[0].1, settings[0].2);
      InstallAllKeeps(next, path, settings[1..], name, script, holder);
    }
  }

  /**
   * When every holder the settings use is writable, the loop ends with every
   * setting installed, and keys that hold no setting are untouched.
   */
  lemma {:induction false} InstallAllInstalls(pkg: map<string, Json>, path: string, settings: seq<(string, string, string)>)
    requires WellFormedScripts(settings)
    requires forall i :: 0 <= i < |settings| ==> Writable(pkg, settings[i].2)
    ensures var r := InstallAll(pkg, path, settings).pkg;
      (forall i :: 0 <= i < |settings| ==> HasSetting(r, settings[i].0, settings[i].1, settings[i].2)) &&
      (forall k :: k in pkg && !HolderOf(settings, k) ==> k in r && r[k] == pkg[k])
    decreases |settings|
  {
    if |settings| > 0 {
      var name := settings[0].0;
      var script := settings[0].1;
      var holder := settings[0].2;
      var next := NextPackage(pkg, settings[0]);
      if !HasSetting(pkg, name, script, holder) {
        AddPluginInstalls(pkg, name, script, holder);
      }
      var tail := settings[1..];
      assert forall i :: 0 <= i < |tail| ==> tail[i] == settings[i + 1];
      assert WellFormedScripts(tail) by {
        forall i, j | 0 <= i < j < |tail|
          ensures (tail[i].0, tail[i].2) != (tail[j].0, tail[j].2)
        {
          assert tail[i] == settings[i + 1] && tail[j] == settings[j + 1];
        }
      }
      forall i | 0 <= i < |tail| ensures Writable(next, tail[i].2) {
        assert Writable(pkg, settings[i + 1].2);
        InstallAllWritable(pkg, path, [settings[0]], tail[i].2);
        assert [settings[0]][1..] == [];
      }
      InstallAllInstalls(next, path, tail);
      InstallAllKeeps(next, path, tail, name, script, holder);
      var r := InstallAll(pkg, path, settings).pkg;
      forall i | 0 <= i < |settings| ensures HasSetting(r, settings[i].0, settings[i].1, settings[i].2) {
        if i > 0 {
          assert settings[i] == tail[i - 1];
        }
      }
      forall k | k in pkg && !HolderOf(settings, k)
        ensures k in r && r[k] == pkg[k]
      {
        assert settings[0].2 != k;
        assert !HolderOf(tail, k) by {
          forall i | 0 <= i < |tail| ensures tail[i].2 != k {
            assert tail[i] == settings[i + 1];
          }
        }
      }
    }
  }

  /** A package that already has every setting is not written again. */
  lemma {:induction false} InstallAllNoop(pkg: map<string, Json>, path: string, settings: seq<(string, string, string)>)
    requires forall i :: 0 <= i < |settings| ==> HasSetting(pkg, settings[i].0, settings[i].1, settings[i].2)
    ensures InstallAll(pkg, path, settings) == Installed(pkg, [])
    decreases |settings|
  {
    if |settings| > 0 {
      InstallAllNoop(pkg, path, settings[1..]);
    }
  }

  lemma SettingsWellFormed()
    ensures WellFormedScripts(Settings)
  {
  }

  /** A second run after one that installed everything writes nothing. */
  lemma SecondRunQuiet(pkg: map<string, Json>, path: string)
    requires Writable(pkg, "release") && Writable(pkg, "scripts")
    ensures var once := InstallAll(pkg, path, Settings).pkg;
      InstallAll(once, path, Settings) == Installed(once, [])
  {
    SettingsWellFormed();
    assert forall i :: 0 <= i < |Settings| ==> Settings[i].2 in {"release", "scripts"};
    InstallAllInstalls(pkg, path, Settings);
    InstallAllNoop(InstallAll(pkg, path, Settings).pkg, path, Settings);
  }

  /** The loop: one `alreadyInstalled`/`addPlugin` pair per setting, in order. */
  method InstallSettings(c: Client, path: string, settings: seq<(string, string, string)>)
    modifies c`pkg, c`log
    ensures var r := InstallAll(old(c.pkg), path, settings);
      c.pkg == r.pkg && c.log == old(c.log) + r.log
  {
    ghost var all := InstallAll(c.pkg, path, settings);
    ghost var start := c.log;
    for i := 0 to |settings|
      invariant InstallAll(c.pkg, path, settings[i..]).pkg == all.pkg
      invariant c.log + InstallAll(c.pkg, path, settings[i..]).log == start + all.log
    {
      InstallAllStep(c.pkg, path, settings, i);
      ghost var rest := InstallAll(NextPackage(c.pkg, settings[i]), path, settings[i + 1..]);
      ghost var before, pkg := c.log, c.pkg;
      InstallOne(c, path, settings[i]);
      LogsAssociate(before, SettingLines(pkg, path, settings[i]), rest.log);
    }
    assert settings[|settings|..] == [];
  }

  /** The loop body for one setting: announce it, add it and save the file, unless it is already there. */
  method InstallOne(c: Client, path: string, setting: (string, string, string))
    modifies c`pkg, c`log
    ensures c.pkg == NextPackage(old(c.pkg), setting)
    ensures c.log == old(c.log) + SettingLines(old(c.pkg), path, setting)
  {
    var (name, script, holder) := setting;
    if !HasSetting(c.pkg, name, script, holder) {
      var saved := AddPlugin(c.pkg, name, script, holder);
      c.pkg := saved;
      c.log := c.log + InstallLines(path, name, script, holder, saved);
    }
  }

  lemma LogsAssociate(a: seq<Action>, b: seq<Action>, c: seq<Action>)
    ensures a + (b + c) == a + b + c
  {
  }

  /** One step of the loop: the first remaining setting, then the ones after it. */
  lemma InstallAllStep(pkg: map<string, Json>, path: string, settings: seq<(string, string, string)>, i: nat)
    requires i < |settings|
    ensures var rest := InstallAll(NextPackage(pkg, settings[i]), path, settings[i + 1..]);
      InstallAll(pkg, path, settings[i..]) == Installed(rest.pkg, SettingLines(pkg, path, settings[i]) + rest.log)
  {
    assert settings[i..][0] == settings[i] && settings[i..][1..] == settings[i + 1..];
  }

  /**
   * The script: without being a dependency and without `--force` it exits
   * with 0; otherwise it installs the settings in order, then prints the two
   * closing hints.
   */
  method LegacySetup(c: Client, isDependency: bool, args: seq<string>, cwd: string) returns (outcome: Outcome)
    modifies c`pkg, c`log
    ensures !isDependency && !IsForced(args) ==> outcome == Exited(0) && c.pkg == old(c.pkg) && c.log == old(c.log)
    ensures isDependency || IsForced(args) ==>
      var r := InstallAll(old(c.pkg), LegacyPackagePath(cwd), Settings);
      outcome == Completed && c.pkg == r.pkg && c.log == old(c.log) + r.log + [Echo(SemanticReleaseHint), Echo(PublishHint)]
  {
    if !isDependency && !IsForced(args) {
      return Exited(0);
    }
    InstallSettings(c, LegacyPackagePath(cwd), Settings);
    c.log := c.log + [Echo(SemanticReleaseHint), Echo(PublishHint)];
    outcome := Completed;
  }
}
