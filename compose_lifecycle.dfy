/**
 * The `test compose` command: find or download docker-compose, assemble the
 * `-f` file arguments (generating a compose file first when asked), store the
 * resulting command line in `argv.compose`, and register the handler that
 * tears the containers down when the process ends.
 */
module ComposeLifecycle {
  import opened Wrappers
  import opened Text
  import opened Effects
  import opened TestArgv
  import AutoComposeLegacy
  import ComposeSpec

  // The version probe: the first match of /\d+\.\d+\.\d+/ in the output of `--version`.

  predicate IsDigit(ch: char) {
    '0' <= ch <= '9'
  }

  /** The length of the longest run of digits starting at `i`. */
  function DigitRun(s: string, i: nat): (n: nat)
    requires i <= |s|
    ensures i + n <= |s|
    ensures forall k :: i <= k < i + n ==> IsDigit(s[k])
    ensures i + n < |s| ==> !IsDigit(s[i + n])
    decreases |s| - i
  {
    if i < |s| && IsDigit(s[i]) then 1 + DigitRun(s, i + 1) else 0
  }

  /** Three non-empty digit groups separated by two dots, and nothing else. */
  predicate VersionShape(t: string) {
    var parts := Split(t, '.');
    |parts| == 3 && forall p :: p in parts ==> Digits(p)
  }

  predicate Digits(p: string) {
    |p| > 0 && forall ch :: ch in p ==> IsDigit(ch)
  }

  /**
   * Where a match starting at `i` ends, if one does. The greedy digit groups
   * cannot give back a digit to reach a dot, so each group is a maximal run.
   */
  function MatchAt(s: string, i: nat): Option<nat>
    requires i <= |s|
  {
    var a := DigitRun(s, i);
    var j := i + a;
    if a == 0 || j >= |s| || s[j] != '.' then None
    else
      var b := DigitRun(s, j + 1);
      var k := j + 1 + b;
      if b == 0 || k >= |s| || s[k] != '.' then None
      else
        var c := DigitRun(s, k + 1);
        if c == 0 then None else Some(k + 1 + c)
  }

  /** The leftmost match at or after `i`. */
  function FindFrom(s: string, i: nat): Option<string>
    requires i <= |s|
    decreases |s| - i
  {
    match MatchAt(s, i)
    case Some(e) => Some(s[i..e])
    case None => if i == |s| then None else FindFrom(s, i + 1)
  }

  /** `s.match(/\d+\.\d+\.\d+/)`, reduced to the matched text. */
  function FindVersion(s: string): Option<string> {
    FindFrom(s, 0)
  }

  /** Splitting three dot-free groups joined by dots gives the groups back. */
  lemma SplitThree(p: string, q: string, r: string)
    requires '.' !in p && '.' !in q && '.' !in r
    ensures Split(p + "." + q + "." + r, '.') == [p, q, r]
  {
    assert p + "." + q + "." + r == p + ['.'] + (q + ['.'] + r);
    SplitConcat(p, q + ['.'] + r, '.');
    SplitConcat(q, r, '.');
    SplitNoSeparator(r, '.');
  }

  /** A match is a version number found inside the text. */
  lemma MatchShape(s: string, i: nat)
    requires i <= |s| && MatchAt(s, i).Some?
    ensures i < MatchAt(s, i).value <= |s|
    ensures VersionShape(s[i..MatchAt(s, i).value])
  {
    var a := DigitRun(s, i);
    var j := i + a;
    var b := DigitRun(s, j + 1);
    var k := j + 1 + b;
    var c := DigitRun(s, k + 1);
    var e := k + 1 + c;
    assert a > 0 && j < |s| && s[j] == '.' && b > 0 && k < |s| && s[k] == '.' && c > 0 && MatchAt(s, i).value == e;
    RunIsDigits(s, i, a);
    RunIsDigits(s, j + 1, b);
    RunIsDigits(s, k + 1, c);
    var p, q, r := s[i..j], s[j + 1..k], s[k + 1..e];
    DotsJoin(s, i, j, k, e);
    GroupsShape(p, q, r);
  }

  /** Three digit groups joined by dots have the shape of a version number. */
  lemma GroupsShape(p: string, q: string, r: string)
    requires Digits(p) && Digits(q) && Digits(r)
    ensures VersionShape(p + "." + q + "." + r)
  {
    assert '.' !in p && '.' !in q && '.' !in r;
    SplitThree(p, q, r);
  }

  /** A run of digits, taken out of the text, is made of digits. */
  lemma RunIsDigits(s: string, i: nat, n: nat)
    requires i + n <= |s| && forall k :: i <= k < i + n ==> IsDigit(s[k])
    ensures forall ch :: ch in s[i..i + n] ==> IsDigit(ch)
  {
    forall ch | ch in s[i..i + n] ensures IsDigit(ch) {
      var t :| 0 <= t < n && s[i..i + n][t] == ch;
      assert s[i + t] == ch;
    }
  }

  lemma DotsJoin(s: string, i: nat, j: nat, k: nat, e: nat)
    requires i <= j < k < e <= |s| && s[j] == '.' && s[k] == '.'
    ensures s[i..e] == s[i..j] + "." + s[j + 1..k] + "." + s[k + 1..e]
  {
    assert s[i..e] == s[i..j] + s[j..k] + s[k..e];
    assert s[j..k] == [s[j]] + s[j + 1..k];
    assert s[k..e] == [s[k]] + s[k + 1..e];
  }

  /** The result of the search is a version number occurring in the text. */
  lemma {:induction false} FoundIsVersion(s: string, i: nat)
    requires i <= |s| && FindFrom(s, i).Some?
    ensures VersionShape(FindFrom(s, i).value) && Contains(s, FindFrom(s, i).value)
    decreases |s| - i
  {
    match MatchAt(s, i)
    case Some(e) =>
      MatchShape(s, i);
      ContainsAt(s, s[i..e], i);
    case None =>
      FoundIsVersion(s, i + 1);
  }

  /** Digits occupying `s[i..i+n]` make the run at `i` at least that long, and exactly that long before a non-digit. */
  lemma {:induction false} DigitRunCovers(s: string, i: nat, n: nat)
    requires i + n <= |s| && forall t :: i <= t < i + n ==> IsDigit(s[t])
    ensures DigitRun(s, i) >= n
    ensures i + n < |s| && !IsDigit(s[i + n]) ==> DigitRun(s, i) == n
    decreases n
  {
    if n > 0 {
      DigitRunCovers(s, i + 1, n - 1);
    }
  }

  /** A version number is its three digit groups joined by dots. */
  lemma VersionParts(t: string) returns (p: string, q: string, r: string)
    requires VersionShape(t)
    ensures t == p + "." + q + "." + r
    ensures Digits(p) && Digits(q) && Digits(r)
  {
    var parts := Split(t, '.');
    p, q, r := parts[0], parts[1], parts[2];
    assert p in parts && q in parts && r in parts;
    SplitJoin(t, '.');
    assert Join(parts[2..], ".") == r;
    assert Join(parts[1..], ".") == q + "." + r;
  }

  /** A version number anywhere in the text is matched at its own position. */
  lemma VersionMatchesAt(s: string, i: nat, e: nat)
    requires i <= e <= |s| && VersionShape(s[i..e])
    ensures MatchAt(s, i).Some?
  {
    var p, q, r := VersionParts(s[i..e]);
    GroupsAt(s[i..e], p, q, r);
    var j := i + |p|;
    var k := j + 1 + |q|;
    assert s[j] == s[i..e][|p|] && s[k] == s[i..e][|p| + 1 + |q|];
    forall t | i <= t < j ensures IsDigit(s[t]) {
      assert s[t] == s[i..e][t - i] == p[t - i];
    }
    forall t | j < t < k ensures IsDigit(s[t]) {
      assert s[t] == s[i..e][t - i] == q[t - j - 1];
    }
    forall t | k < t < e ensures IsDigit(s[t]) {
      assert s[t] == s[i..e][t - i] == r[t - k - 1];
    }
    PartsMatchAt(s, i, j, k, e);
  }

  /** Where the groups and the dots of a version number sit. */
  lemma GroupsAt(t: string, p: string, q: string, r: string)
    requires t == p + "." + q + "." + r
    ensures |t| == |p| + |q| + |r| + 2
    ensures t[..|p|] == p && t[|p|] == '.'
    ensures t[|p| + 1..|p| + 1 + |q|] == q && t[|p| + 1 + |q|] == '.'
    ensures t[|p| + 2 + |q|..] == r
  {
  }

  lemma PartsMatchAt(s: string, i: nat, j: nat, k: nat, e: nat)
    requires i < j && j + 1 < k && k + 1 < e <= |s| && s[j] == '.' && s[k] == '.'
    requires forall t :: i <= t < j ==> IsDigit(s[t])
    requires forall t :: j < t < k ==> IsDigit(s[t])
    requires forall t :: k < t < e ==> IsDigit(s[t])
    ensures MatchAt(s, i).Some?
  {
    DigitRunCovers(s, i, j - i);
    DigitRunCovers(s, j + 1, k - j - 1);
    DigitRunCovers(s, k + 1, e - k - 1);
  }

  lemma {:induction false} FindFromReaches(s: string, i: nat, m: nat)
    requires i <= m <= |s| && MatchAt(s, m).Some?
    ensures FindFrom(s, i).Some?
    decreases m - i
  {
    if i < m && MatchAt(s, i).None? {
      FindFromReaches(s, i + 1, m);
    }
  }

  /** The probe finds a version exactly when the output contains one. */
  lemma VersionFound(s: string)
    ensures FindVersion(s).Some? ==> VersionShape(FindVersion(s).value) && Contains(s, FindVersion(s).value)
    ensures (exists i, e :: 0 <= i <= e <= |s| && VersionShape(s[i..e])) ==> FindVersion(s).Some?
  {
    if FindVersion(s).Some? {
      FoundIsVersion(s, 0);
    }
    if exists i, e :: 0 <= i <= e <= |s| && VersionShape(s[i..e]) {
      var i, e :| 0 <= i <= e <= |s| && VersionShape(s[i..e]);
      VersionMatchesAt(s, i, e);
      FindFromReaches(s, 0, i);
    }
  }

  // The install decision.

  /** `null[0]`: what `.match(...)[0]` throws when the output holds no version. */
  const NullIndexError := TypeError("Cannot read properties of null (reading '0')")

  function VersionCmd(binary: string): string {
    "\"" + binary + "\" --version"
  }

  /**
   * `which` and the version probe: the version of the binary found on the
   * path, nothing when there is none, or the error of a probe without a match.
   */
  function Detect(found: Option<string>, shell: Shell): (r: Result<Option<string>, JsError>)
    ensures r.Success? ==> (r.value.None? <==> found.None?)
    ensures r.Failure? <==> found.Some? && FindVersion(shell(VersionCmd(found.value)).stdout).None?
  {
    if found.None? then Success(None)
    else match FindVersion(shell(VersionCmd(found.value)).stdout)
      case None => Failure(NullIndexError)
      case Some(v) => Success(Some(v))
  }

  /** Download when nothing was found, or when forced and the version found is not the one asked for. */
  predicate NeedsInstall(opts: Options, detected: Option<string>) {
    detected.None? || (opts.dcf && detected.value != opts.dcv)
  }

  predicate Installs(opts: Options, found: Option<string>, shell: Shell) {
    Detect(found, shell).Success? && NeedsInstall(opts, Detect(found, shell).value)
  }

  // The messages and URL pieces of the handler.
  const NotFoundNotice := "docker-compose was not found on the system, installing v"
  const IntoBinDir := " into ./node_modules/.bin"
  const FoundNotice := "docker-compose of "
  const FoundAt := " was found at "
  const ForcedUpdate := ", but force install provided, updating"
  const InstallFailed := "failed to install docker-compose: "
  const ReleasesUrl := "https://github.com/docker/compose/releases/download/"
  const CurlTarget := "\" -o ./node_modules/.bin/docker-compose"
  const AssetPrefix := "/docker-compose-"
  const CleaningUp := "\nAutomatically cleaning up after "
  const LocalEnvironment := "\nLocal environment detected.\nTo stop containers write:\n\n"

  const BinDir := "./node_modules/.bin"

  function DownloadCmd(dcv: string, shell: Shell): string {
    var link := ReleasesUrl + dcv + AssetPrefix
      + Trim(shell("uname -s").stdout) + "-" + Trim(shell("uname -m").stdout);
    "curl -L \"" + link + CurlTarget
  }

  predicate DownloadFails(opts: Options, shell: Shell) {
    shell(DownloadCmd(opts.dcv, shell)).code != 0
  }

  /** Where a downloaded binary is placed. */
  function InstalledPath(host: Host): string {
    host.cwd + "/node_modules/.bin/docker-compose"
  }

  /** The binary the command line uses: the downloaded one, or the one found at version `version`. */
  function Chosen(opts: Options, found: Option<string>, version: Option<string>, host: Host): string
    requires version.Some? ==> found.Some?
  {
    if NeedsInstall(opts, version) then InstalledPath(host) else found.value
  }

  function Binary(opts: Options, found: Option<string>, shell: Shell, host: Host): string
    requires Detect(found, shell).Success?
  {
    Chosen(opts, found, Detect(found, shell).value, host)
  }

  // The file arguments.

  function WithComposeFile(path: string): string {
    "-f " + path
  }

  /**
   * The `-f` arguments given the file configured (`original`) and the one the
   * compose generator left in `argv.docker_compose` (`generated`).
   */
  function FileArgs(opts: Options, original: string, generated: string): string {
    if !opts.autoCompose then WithComposeFile(original)
    else if opts.withLocalCompose then WithComposeFile(original) + " " + WithComposeFile(generated)
    else WithComposeFile(generated)
  }

  lemma FlagWords(p: string, rest: string)
    requires ' ' !in p
    ensures Split(WithComposeFile(p) + " " + rest, ' ') == ["-f", p] + Split(rest, ' ')
  {
    assert WithComposeFile(p) + " " + rest == "-f" + [' '] + (p + [' '] + rest);
    SplitConcat("-f", p + [' '] + rest, ' ');
    SplitConcat(p, rest, ' ');
  }

  lemma FlagWord(p: string)
    requires ' ' !in p
    ensures Split(WithComposeFile(p), ' ') == ["-f", p]
  {
    assert WithComposeFile(p) == "-f" + [' '] + p;
    SplitConcat("-f", p, ' ');
    SplitNoSeparator(p, ' ');
  }

  /**
   * As shell words, the arguments are one `-f` pair for the configured file,
   * one for the generated file, or the configured one followed by the generated one.
   */
  lemma FileArgsWords(opts: Options, original: string, generated: string)
    requires ' ' !in original && ' ' !in generated
    ensures !opts.autoCompose ==> Split(FileArgs(opts, original, generated), ' ') == ["-f", original]
    ensures opts.autoCompose && opts.withLocalCompose ==>
      Split(FileArgs(opts, original, generated), ' ') == ["-f", original, "-f", generated]
    ensures opts.autoCompose && !opts.withLocalCompose ==>
      Split(FileArgs(opts, original, generated), ' ') == ["-f", generated]
  {
    FlagWord(original);
    FlagWord(generated);
    if opts.autoCompose && opts.withLocalCompose {
      FlagWords(original, WithComposeFile(generated));
    }
  }

  /** The command line stored in `argv.compose`: the quoted binary, a space, the file arguments. */
  function ComposeLine(binary: string, files: string): string {
    "\"" + binary + "\" " + files
  }

  // The run as a whole.

  /** A run of the handler: how it ended, what it did, and the two fields of `argv` it leaves. */
  datatype Composed = Composed(run: Run, dockerCompose: string, compose: Option<string>)

  /** The log of the download step: nothing when no download is needed. */
  function InstallLog(opts: Options, found: Option<string>, version: Option<string>, host: Host, shell: Shell): seq<Action>
    requires version.None? <==> found.None?
  {
    if !NeedsInstall(opts, version) then []
    else
      var notice := if found.None?
        then Echo(NotFoundNotice + opts.dcv + IntoBinDir)
        else Echo(FoundNotice + version.value + FoundAt + found.value + ForcedUpdate);
      var fetch := [notice, Mkdir(BinDir), Exec("uname -s"), Exec("uname -m"), Exec(DownloadCmd(opts.dcv, shell))];
      if DownloadFails(opts, shell)
      then fetch + [Echo(InstallFailed + shell(DownloadCmd(opts.dcv, shell)).stderr)]
      else fetch + [Chmod("+x", InstalledPath(host))]
  }

  /**
   * The second half of the handler given the binary `compose`, the compose
   * document the generator builds (`built`) and where it writes it (`location`);
   * `dockerCompose` and `prior` are the fields of `argv` beforehand.
   */
  function Assembled(opts: Options, built: Result<ComposeSpec.Compose, JsError>, location: string,
                     compose: string, dockerCompose: string, prior: Option<string>): Composed
  {
    if !opts.autoCompose then
      Composed(Run(Completed, [RegisterCleanup]), dockerCompose,
               Some(ComposeLine(compose, FileArgs(opts, dockerCompose, dockerCompose))))
    else if built.Failure? then
      Composed(Run(Threw(built.error), []), dockerCompose, prior)
    else
      Composed(Run(Completed, [WriteYaml(location, ComposeSpec.ToJson(built.value)), RegisterCleanup]), location,
               Some(ComposeLine(compose, FileArgs(opts, dockerCompose, location))))
  }

  /** The handler after a probe that found `version` (nothing when no binary was found). */
  function Installed(opts: Options, host: Host, found: Option<string>, version: Option<string>, shell: Shell,
                     built: Result<ComposeSpec.Compose, JsError>, dockerCompose: string, prior: Option<string>): Composed
    requires version.None? <==> found.None?
  {
    var install := InstallLog(opts, found, version, host, shell);
    if NeedsInstall(opts, version) && DownloadFails(opts, shell) then
      Composed(Run(Exited(1), install), dockerCompose, prior)
    else
      var rest := Assembled(opts, built, AutoComposeLegacy.Location(host), Chosen(opts, found, version, host), dockerCompose, prior);
      rest.(run := Run(rest.run.outcome, install + rest.run.log))
  }

  /** The whole handler, with `built` standing for the compose document the generator builds. */
  function ComposeRun(opts: Options, host: Host, found: Option<string>, shell: Shell,
                      built: Result<ComposeSpec.Compose, JsError>, dockerCompose: string, prior: Option<string>): Composed
  {
    var probe := if found.Some? then [Exec(VersionCmd(found.value))] else [];
    match Detect(found, shell)
    case Failure(e) => Composed(Run(Threw(e), probe), dockerCompose, prior)
    case Success(version) =>
      var r := Installed(opts, host, found, version, shell, built, dockerCompose, prior);
      r.(run := Run(r.run.outcome, probe + r.run.log))
  }

  /** After the probe, a failed download exits with 1, ending the log with curl's error and leaving `argv` alone. */
  lemma DownloadFailureExits(opts: Options, host: Host, found: Option<string>, version: Option<string>, shell: Shell,
                             built: Result<ComposeSpec.Compose, JsError>, dockerCompose: string, prior: Option<string>)
    requires version.None? <==> found.None?
    ensures var r := Installed(opts, host, found, version, shell, built, dockerCompose, prior);
      && (r.run.outcome == Exited(1) <==> NeedsInstall(opts, version) && DownloadFails(opts, shell))
      && (r.run.outcome == Exited(1) ==>
            |r.run.log| > 0 && r.run.log[|r.run.log| - 1] == Echo(InstallFailed + shell(DownloadCmd(opts.dcv, shell)).stderr) &&
            r.dockerCompose == dockerCompose && r.compose == prior)
  {
    if NeedsInstall(opts, version) && DownloadFails(opts, shell) {
      var install := InstallLog(opts, found, version, host, shell);
      assert install[5] == Echo(InstallFailed + shell(DownloadCmd(opts.dcv, shell)).stderr);
    }
  }

  /** After the probe, the directory is created exactly when a download is needed. */
  lemma DirectoryOnlyForDownload(opts: Options, host: Host, found: Option<string>, version: Option<string>, shell: Shell,
                                 built: Result<ComposeSpec.Compose, JsError>, dockerCompose: string, prior: Option<string>)
    requires version.None? <==> found.None?
    ensures Mkdir(BinDir) in Installed(opts, host, found, version, shell, built, dockerCompose, prior).run.log
        <==> NeedsInstall(opts, version)
  {
    var install := InstallLog(opts, found, version, host, shell);
    InstallLogDirectory(opts, found, version, host, shell);
    if !(NeedsInstall(opts, version) && DownloadFails(opts, shell)) {
      var rest := Assembled(opts, built, AutoComposeLegacy.Location(host), Chosen(opts, found, version, host), dockerCompose, prior);
      AssembledNoDirectory(opts, built, AutoComposeLegacy.Location(host), Chosen(opts, found, version, host), dockerCompose, prior);
      ProbeFirst(install, rest.run.log);
    }
  }

  /** The download step creates the directory exactly when a download is needed. */
  lemma InstallLogDirectory(opts: Options, found: Option<string>, version: Option<string>, host: Host, shell: Shell)
    requires version.None? <==> found.None?
    ensures Mkdir(BinDir) in InstallLog(opts, found, version, host, shell) <==> NeedsInstall(opts, version)
  {
    if NeedsInstall(opts, version) {
      assert InstallLog(opts, found, version, host, shell)[1] == Mkdir(BinDir);
    }
  }

  /** The second half never creates a directory. */
  lemma AssembledNoDirectory(opts: Options, built: Result<ComposeSpec.Compose, JsError>, location: string,
                             compose: string, dockerCompose: string, prior: Option<string>)
    ensures Mkdir(BinDir) !in Assembled(opts, built, location, compose, dockerCompose, prior).run.log
  {
  }

  /**
   * After the probe and a download that did not fail, a failed generation
   * throws its error and leaves `argv` alone; otherwise the run completes.
   */
  lemma GenerationDecides(opts: Options, host: Host, found: Option<string>, version: Option<string>, shell: Shell,
                          built: Result<ComposeSpec.Compose, JsError>, dockerCompose: string, prior: Option<string>)
    requires version.None? <==> found.None?
    ensures var r := Installed(opts, host, found, version, shell, built, dockerCompose, prior);
      && (r.run.outcome.Threw? <==>
            !(NeedsInstall(opts, version) && DownloadFails(opts, shell)) && opts.autoCompose && built.Failure?)
      && (r.run.outcome.Threw? ==> r.run.outcome.error == built.error && r.dockerCompose == dockerCompose && r.compose == prior)
      && (r.run.outcome == Completed <==>
            !(NeedsInstall(opts, version) && DownloadFails(opts, shell)) && (opts.autoCompose ==> built.Success?))
  {
  }

  /**
   * A completed run after the probe leaves the generated file (when one is
   * generated) in `argv.docker_compose` and the command line for the chosen
   * binary and the `-f` arguments in `argv.compose`.
   */
  lemma CompletedFields(opts: Options, host: Host, found: Option<string>, version: Option<string>, shell: Shell,
                        built: Result<ComposeSpec.Compose, JsError>, dockerCompose: string, prior: Option<string>)
    requires version.None? <==> found.None?
    requires Installed(opts, host, found, version, shell, built, dockerCompose, prior).run.outcome == Completed
    ensures var r := Installed(opts, host, found, version, shell, built, dockerCompose, prior);
      var generated := if opts.autoCompose then AutoComposeLegacy.Location(host) else dockerCompose;
      && r.dockerCompose == generated
      && r.compose == Some(ComposeLine(Chosen(opts, found, version, host), FileArgs(opts, dockerCompose, generated)))
  {
  }

  /** A completed run after the probe writes the generated file, when there is one, and ends by registering the death hook. */
  lemma CompletedLog(opts: Options, host: Host, found: Option<string>, version: Option<string>, shell: Shell,
                     built: Result<ComposeSpec.Compose, JsError>, dockerCompose: string, prior: Option<string>)
    requires version.None? <==> found.None?
    requires Installed(opts, host, found, version, shell, built, dockerCompose, prior).run.outcome == Completed
    ensures var log := Installed(opts, host, found, version, shell, built, dockerCompose, prior).run.log;
      && |log| > 0 && log[|log| - 1] == RegisterCleanup
      && (opts.autoCompose ==> WriteYaml(AutoComposeLegacy.Location(host), ComposeSpec.ToJson(built.value)) in log)
  {
    var install := InstallLog(opts, found, version, host, shell);
    var rest := Assembled(opts, built, AutoComposeLegacy.Location(host), Chosen(opts, found, version, host), dockerCompose, prior);
    ProbeFirst(install, rest.run.log);
    if opts.autoCompose {
      assert rest.run.log[0] == WriteYaml(AutoComposeLegacy.Location(host), ComposeSpec.ToJson(built.value));
    }
  }

  /** Once the probe finds a version, the run is the probe followed by the run after it. */
  lemma AfterProbe(opts: Options, host: Host, found: Option<string>, shell: Shell,
                   built: Result<ComposeSpec.Compose, JsError>, dockerCompose: string, prior: Option<string>)
    requires Detect(found, shell).Success?
    ensures var r := ComposeRun(opts, host, found, shell, built, dockerCompose, prior);
      var i := Installed(opts, host, found, Detect(found, shell).value, shell, built, dockerCompose, prior);
      && r.run.outcome == i.run.outcome && r.dockerCompose == i.dockerCompose && r.compose == i.compose
      && (Mkdir(BinDir) in r.run.log <==> Mkdir(BinDir) in i.run.log)
      && (|i.run.log| > 0 ==> |r.run.log| > 0 && r.run.log[|r.run.log| - 1] == i.run.log[|i.run.log| - 1])
      && (forall a :: a in i.run.log ==> a in r.run.log)
  {
    var probe := if found.Some? then [Exec(VersionCmd(found.value))] else [];
    ProbeFirst(probe, Installed(opts, host, found, Detect(found, shell).value, shell, built, dockerCompose, prior).run.log);
  }

  /**
   * How a run ends: a probe without a version throws the `null[0]` error, a
   * failed download exits with 1, a failed generation throws its error, and
   * otherwise the run completes; only a completed run touches `argv`.
   */
  lemma Outcomes(opts: Options, host: Host, found: Option<string>, shell: Shell,
                 built: Result<ComposeSpec.Compose, JsError>, dockerCompose: string, prior: Option<string>)
    ensures var r := ComposeRun(opts, host, found, shell, built, dockerCompose, prior);
      && (Detect(found, shell).Failure? ==> r.run == Run(Threw(NullIndexError), [Exec(VersionCmd(found.value))]))
      && (r.run.outcome == Exited(1) <==> Installs(opts, found, shell) && DownloadFails(opts, shell))
      && (r.run.outcome.Threw? && Detect(found, shell).Success? ==>
            opts.autoCompose && built.Failure? && r.run.outcome.error == built.error)
      && (r.run.outcome == Completed <==>
            Detect(found, shell).Success? && !(Installs(opts, found, shell) && DownloadFails(opts, shell)) &&
            (opts.autoCompose ==> built.Success?))
      && (!r.run.outcome.Completed? ==> r.dockerCompose == dockerCompose && r.compose == prior)
  {
    if Detect(found, shell).Success? {
      var version := Detect(found, shell).value;
      AfterProbe(opts, host, found, shell, built, dockerCompose, prior);
      DownloadFailureExits(opts, host, found, version, shell, built, dockerCompose, prior);
      GenerationDecides(opts, host, found, version, shell, built, dockerCompose, prior);
    }
  }

  /**
   * The download shows in the log: the directory is created exactly when a
   * download is needed, and a failed download ends the log with curl's error.
   */
  lemma DownloadLogged(opts: Options, host: Host, found: Option<string>, shell: Shell,
                       built: Result<ComposeSpec.Compose, JsError>, dockerCompose: string, prior: Option<string>)
    requires Detect(found, shell).Success?
    ensures var log := ComposeRun(opts, host, found, shell, built, dockerCompose, prior).run.log;
      && (Mkdir(BinDir) in log <==> Installs(opts, found, shell))
      && (Installs(opts, found, shell) && DownloadFails(opts, shell) ==>
            |log| > 0 && log[|log| - 1] == Echo(InstallFailed + shell(DownloadCmd(opts.dcv, shell)).stderr))
  {
    var version := Detect(found, shell).value;
    AfterProbe(opts, host, found, shell, built, dockerCompose, prior);
    DirectoryOnlyForDownload(opts, host, found, version, shell, built, dockerCompose, prior);
    DownloadFailureExits(opts, host, found, version, shell, built, dockerCompose, prior);
  }

  /** The probe is followed by the rest of the log. */
  lemma ProbeFirst(probe: seq<Action>, rest: seq<Action>)
    ensures Mkdir(BinDir) in probe + rest <==> Mkdir(BinDir) in probe || Mkdir(BinDir) in rest
    ensures |rest| > 0 ==> (probe + rest)[|probe + rest| - 1] == rest[|rest| - 1]
    ensures forall a :: a in rest ==> a in probe + rest
  {
  }

  /**
   * A completed run leaves the generated file (when one is generated) in
   * `argv.docker_compose`, the command line for the binary chosen and the
   * `-f` arguments in `argv.compose`, and ends by registering the death hook.
   */
  lemma CompletedRun(opts: Options, host: Host, found: Option<string>, shell: Shell,
                     built: Result<ComposeSpec.Compose, JsError>, dockerCompose: string, prior: Option<string>)
    requires ComposeRun(opts, host, found, shell, built, dockerCompose, prior).run.outcome == Completed
    ensures Detect(found, shell).Success?
    ensures var r := ComposeRun(opts, host, found, shell, built, dockerCompose, prior);
      var generated := if opts.autoCompose then AutoComposeLegacy.Location(host) else dockerCompose;
      && r.dockerCompose == generated
      && r.compose == Some(ComposeLine(Binary(opts, found, shell, host), FileArgs(opts, dockerCompose, generated)))
      && |r.run.log| > 0 && r.run.log[|r.run.log| - 1] == RegisterCleanup
      && (opts.autoCompose ==> WriteYaml(generated, ComposeSpec.ToJson(built.value)) in r.run.log)
  {
    var version := Detect(found, shell).value;
    AfterProbe(opts, host, found, shell, built, dockerCompose, prior);
    CompletedFields(opts, host, found, version, shell, built, dockerCompose, prior);
    CompletedLog(opts, host, found, version, shell, built, dockerCompose, prior);
  }

  /** The command reaches its end (the death hook is registered) rather than exiting or throwing. */
  predicate Completes(opts: Options, host: Host, found: Option<string>, shell: Shell) {
    Detect(found, shell).Success? && !(Installs(opts, found, shell) && DownloadFails(opts, shell)) &&
    (opts.autoCompose ==> AutoComposeLegacy.Build(opts, host).Success?)
  }

  /** What `argv.compose` holds after a completed run that started with `argv.docker_compose` = `original`. */
  function ComposeCommand(opts: Options, host: Host, found: Option<string>, shell: Shell, original: string): string
    requires Detect(found, shell).Success?
  {
    var generated := if opts.autoCompose then AutoComposeLegacy.Location(host) else original;
    ComposeLine(Binary(opts, found, shell, host), FileArgs(opts, original, generated))
  }

  /** With the generator's own document, a run completes exactly when `Completes` holds, leaving `ComposeCommand`. */
  lemma GeneratedRun(opts: Options, host: Host, found: Option<string>, shell: Shell, dockerCompose: string, prior: Option<string>)
    ensures var r := ComposeRun(opts, host, found, shell, AutoComposeLegacy.Build(opts, host), dockerCompose, prior);
      && (r.run.outcome == Completed <==> Completes(opts, host, found, shell))
      && (r.run.outcome == Completed ==> r.compose == Some(ComposeCommand(opts, host, found, shell, dockerCompose)))
  {
    var built := AutoComposeLegacy.Build(opts, host);
    Outcomes(opts, host, found, shell, built, dockerCompose, prior);
    if ComposeRun(opts, host, found, shell, built, dockerCompose, prior).run.outcome == Completed {
      CompletedRun(opts, host, found, shell, built, dockerCompose, prior);
    }
  }

  /** The version probe: `<binary> --version`, and the match of its output. */
  method ProbeVersion(found: Option<string>, shell: Shell) returns (detected: Result<Option<string>, JsError>, actions: seq<Action>)
    ensures detected == Detect(found, shell)
    ensures actions == if found.Some? then [Exec(VersionCmd(found.value))] else []
  {
    if found.None? {
      return Success(None), [];
    }
    var probe := shell(VersionCmd(found.value));
    actions := [Exec(VersionCmd(found.value))];
    var matched := FindVersion(probe.stdout);
    if matched.None? {
      return Failure(NullIndexError), actions;
    }
    detected := Success(matched);
  }

  /** The download of the pinned docker-compose, when one is needed. */
  method InstallBinary(opts: Options, found: Option<string>, version: Option<string>, host: Host, shell: Shell)
    returns (compose: string, failed: bool, actions: seq<Action>)
    requires Detect(found, shell) == Success(version)
    ensures actions == InstallLog(opts, found, version, host, shell)
    ensures failed <==> NeedsInstall(opts, version) && DownloadFails(opts, shell)
    ensures !failed ==> compose == Chosen(opts, found, version, host)
  {
    actions := [];
    failed := false;
    compose := if found.Some? then found.value else "";
    if found.None? || (opts.dcf && version.value != opts.dcv) {
      var notice := if found.None?
        then Echo(NotFoundNotice + opts.dcv + IntoBinDir)
        else Echo(FoundNotice + version.value + FoundAt + compose + ForcedUpdate);
      var distribution := Trim(shell("uname -s").stdout);
      var arch := Trim(shell("uname -m").stdout);
      var link := ReleasesUrl + opts.dcv + AssetPrefix + distribution + "-" + arch;
      var download := "curl -L \"" + link + CurlTarget;
      assert download == DownloadCmd(opts.dcv, shell);
      var curl := shell(download);
      actions := [notice, Mkdir(BinDir), Exec("uname -s"), Exec("uname -m"), Exec(download)];
      if curl.code != 0 {
        actions := actions + [Echo(InstallFailed + curl.stderr)];
        return compose, true, actions;
      }
      compose := InstalledPath(host);
      actions := actions + [Chmod("+x", compose)];
    }
  }

  /**
   * `handler`. `found` is what `which('docker-compose')` returns and `shell`
   * answers every command run. The death hook it registers is `StopDocker`.
   */
  method Handler(argv: Argv, host: Host, found: Option<string>, shell: Shell) returns (outcome: Outcome, actions: seq<Action>)
    modifies argv`dockerCompose, argv`compose
    ensures Composed(Run(outcome, actions), argv.dockerCompose, argv.compose)
         == ComposeRun(argv.opts, host, found, shell, AutoComposeLegacy.Build(argv.opts, host),
                       old(argv.dockerCompose), old(argv.compose))
  {
    var detected;
    detected, actions := ProbeVersion(found, shell);
    if detected.Failure? {
      return Threw(detected.error), actions;
    }
    var rest;
    outcome, rest := Install(argv, host, found, detected.value, shell);
    actions := actions + rest;
  }

  /** The handler once the probe has found `version`: the download, then the command line. */
  method Install(argv: Argv, host: Host, found: Option<string>, version: Option<string>, shell: Shell)
    returns (outcome: Outcome, actions: seq<Action>)
    modifies argv`dockerCompose, argv`compose
    requires Detect(found, shell) == Success(version)
    ensures Composed(Run(outcome, actions), argv.dockerCompose, argv.compose)
         == Installed(argv.opts, host, found, version, shell, AutoComposeLegacy.Build(argv.opts, host),
                      old(argv.dockerCompose), old(argv.compose))
  {
    var compose, failed;
    compose, failed, actions := InstallBinary(argv.opts, found, version, host, shell);
    if failed {
      return Exited(1), actions;
    }
    var written;
    outcome, written := AssembleCommand(argv, host, compose);
    actions := actions + written;
  }

  /**
   * The second half of the handler: the optional compose file generation,
   * then the command line stored on `argv` and the death hook registered.
   */
  method AssembleCommand(argv: Argv, host: Host, compose: string) returns (outcome: Outcome, actions: seq<Action>)
    modifies argv`dockerCompose, argv`compose
    ensures Composed(Run(outcome, actions), argv.dockerCompose, argv.compose)
         == Assembled(argv.opts, AutoComposeLegacy.Build(argv.opts, host), AutoComposeLegacy.Location(host),
                      compose, old(argv.dockerCompose), old(argv.compose))
  {
    var opts := argv.opts;
    actions := [];
    var files := WithComposeFile(argv.dockerCompose);
    if opts.autoCompose {
      var generated, written := AutoComposeLegacy.Handler(argv, host);
      if generated.Threw? {
        return generated, actions;
      }
      actions := actions + written;
      var autoComposeFile := WithComposeFile(argv.dockerCompose);
      if opts.withLocalCompose {
        files := files + " " + autoComposeFile;
      } else {
        files := autoComposeFile;
      }
    }
    argv.compose := Some(ComposeLine(compose, files));
    actions := actions + [RegisterCleanup];
    outcome := Completed;
  }

  // The exit and signal hook.

  /** `argv.on_fail` runs when it is set and the process is exiting with a code other than 0. */
  predicate RunsOnFail(opts: Options, signal: string, code: Option<int>) {
    Given(opts.onFail) && signal == "exit" && code != Some(0)
  }

  /** `code || 0`, with an absent code as `undefined`. */
  function ExitCode(code: Option<int>): int {
    code.GetOr(0)
  }

  function DownCmd(compose: string): string {
    compose + " down; true"
  }

  function DeleteCmd(isWin: bool, dockerCompose: string): string {
    (if isWin then "del " else "rm ") + dockerCompose
  }

  function CleanupBanner(signal: string): string {
    CleaningUp + signal + "\n"
  }

  function ManualStop(compose: string): string {
    LocalEnvironment + compose + " down;\n"
  }

  /**
   * `stopDocker(signal, code)` with `argv.compose` = `compose` and
   * `argv.docker_compose` = `dockerCompose`: the effects it causes, in order.
   * `h` is the number of leading on-fail entries (0 or 1).
   */
  function StopDocker(opts: Options, compose: string, dockerCompose: string, isWin: bool,
                      signal: string, code: Option<int>): (log: seq<Action>)
    ensures RunsOnFail(opts, signal, code) ==> |log| > 0 && log[0] == Exec(opts.onFail.value)
    ensures var h := if RunsOnFail(opts, signal, code) then 1 else 0;
      |log| == h + (if opts.noCleanup then 1 else 2 + (if opts.autoCompose then 2 else 0) + (if signal == "exit" then 1 else 0))
    ensures opts.noCleanup ==> log[|log| - 1] == Echo(ManualStop(compose))
    ensures opts.noCleanup ==> forall i :: 0 <= i < |log| && log[i].Exec? ==> i == 0 && RunsOnFail(opts, signal, code)
    ensures !opts.noCleanup ==> var h := if RunsOnFail(opts, signal, code) then 1 else 0;
      log[h] == Echo(CleanupBanner(signal)) && log[h + 1] == Exec(DownCmd(compose))
    ensures !opts.noCleanup && opts.autoCompose ==> var h := if RunsOnFail(opts, signal, code) then 1 else 0;
      log[h + 2] == Echo(DeleteCmd(isWin, dockerCompose)) && log[h + 3] == Exec(DeleteCmd(isWin, dockerCompose))
    ensures log[|log| - 1].ForceExit? <==> !opts.noCleanup && signal == "exit"
    ensures forall i :: 0 <= i < |log| && log[i].ForceExit? ==> i == |log| - 1 && log[i].code == ExitCode(code)
  {
    var hook := if RunsOnFail(opts, signal, code) then [Exec(opts.onFail.value)] else [];
    if opts.noCleanup then
      hook + [Echo(ManualStop(compose))]
    else
      var delete := if opts.autoCompose then [Echo(DeleteCmd(isWin, dockerCompose)), Exec(DeleteCmd(isWin, dockerCompose))] else [];
      var exit := if signal == "exit" then [ForceExit(ExitCode(code))] else [];
      hook + [Echo(CleanupBanner(signal)), Exec(DownCmd(compose))] + delete + exit
  }

  /** Whether the on-fail hook runs does not depend on `no_cleanup`. */
  lemma OnFailIgnoresNoCleanup(opts: Options, compose: string, dockerCompose: string, isWin: bool,
                               signal: string, code: Option<int>)
    ensures var a := StopDocker(opts.(noCleanup := true), compose, dockerCompose, isWin, signal, code);
      var b := StopDocker(opts.(noCleanup := false), compose, dockerCompose, isWin, signal, code);
      (RunsOnFail(opts, signal, code) ==> a[0] == b[0] == Exec(opts.onFail.value)) &&
      (!RunsOnFail(opts, signal, code) ==> !a[0].Exec? && !b[0].Exec?)
  {
  }

  /** An exit with code 0 never runs the on-fail hook, and the forced exit keeps the 0. */
  lemma CleanExit(opts: Options, compose: string, dockerCompose: string, isWin: bool)
    requires !opts.noCleanup
    ensures var log := StopDocker(opts, compose, dockerCompose, isWin, "exit", Some(0));
      log[0] == Echo(CleanupBanner("exit")) && log[|log| - 1] == ForceExit(0)
  {
  }

  /** An exit without a code (`undefined !== 0`) does run the hook, then exits with 0. */
  lemma ExitWithoutCode(opts: Options, compose: string, dockerCompose: string, isWin: bool)
    requires Given(opts.onFail) && !opts.noCleanup
    ensures var log := StopDocker(opts, compose, dockerCompose, isWin, "exit", None);
      log[0] == Exec(opts.onFail.value) && log[|log| - 1] == ForceExit(0)
  {
  }
}
