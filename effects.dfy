/**
 * The outside world as the model sees it: every external effect the tool causes
 * (printing, shell commands, file writes) is an `Action` appended to a log, and
 * the way a run ends is an `Outcome`. Shell commands are answered by an oracle.
 */
module Effects {
  import opened Json

  /** What a finished shell command reports back. */
  datatype ExecResult = ExecResult(code: int, stdout: string, stderr: string)

  /** Answers every shell command the model issues; the same command gets the same answer. */
  type Shell = string -> ExecResult

  /** The JavaScript exceptions the modelled code can throw. */
  datatype JsError =
    | Error(message: string)
    | TypeError(message: string)
    | SyntaxError(message: string)
    | AssertionError(message: string)

  datatype Action =
    | Echo(text: string)                       // console output (echo, console.log)
    | Warn(text: string)                       // console.warn
    | Exec(cmd: string)                        // a shell command run to completion
    | ExecConcurrently(cmds: seq<string>, limit: int)  // commands started under a concurrency limit
    | Mkdir(path: string)                      // shelljs mkdir, without -p
    | Chmod(mode: string, path: string)
    | WriteYaml(path: string, doc: Json)       // a YAML dump of `doc`
    | WriteJson(path: string, doc: Json)       // a JSON.stringify of `doc`
    | WriteText(path: string, text: string)
    | Copy(src: string, dst: string)
    | Remove(path: string)
    | RegisterCleanup                          // the exit and signal handler is installed
    | ForceExit(code: int)                     // process.exit inside a handler

  datatype Outcome =
    | Completed            // the code ran to its end
    | Exited(code: int)    // process.exit(code) ended the run
    | Threw(error: JsError)

  /** How a stretch of a run ended, and what it did. */
  datatype Run = Run(outcome: Outcome, log: seq<Action>)

  /** `a`, then `b` when `a` ran to its end. */
  function Then(a: Run, b: Run): Run {
    if a.outcome == Completed then Run(b.outcome, a.log + b.log) else a
  }

  /** The log of `echoAndExec` over a list of commands: each one printed, then run. */
  function EchoExec(cmds: seq<string>): seq<Action> {
    if |cmds| == 0 then [] else [Echo(cmds[0]), Exec(cmds[0])] + EchoExec(cmds[1..])
  }

  /** Each command is printed just before it is run. */
  lemma {:induction false} EchoExecEntries(cmds: seq<string>)
    ensures |EchoExec(cmds)| == 2 * |cmds|
    ensures forall i :: 0 <= i < |cmds| ==> EchoExec(cmds)[2 * i] == Echo(cmds[i]) && EchoExec(cmds)[2 * i + 1] == Exec(cmds[i])
    decreases |cmds|
  {
    if |cmds| > 0 {
      EchoExecEntries(cmds[1..]);
      var rest := EchoExec(cmds[1..]);
      forall i | 1 <= i < |cmds|
        ensures EchoExec(cmds)[2 * i] == Echo(cmds[i]) && EchoExec(cmds)[2 * i + 1] == Exec(cmds[i])
      {
        assert EchoExec(cmds)[2 * i] == rest[2 * (i - 1)];
        assert EchoExec(cmds)[2 * i + 1] == rest[2 * (i - 1) + 1];
      }
    }
  }

  lemma {:induction false} EchoExecAppend(cmds: seq<string>, c: string)
    ensures EchoExec(cmds + [c]) == EchoExec(cmds) + [Echo(c), Exec(c)]
    decreases |cmds|
  {
    if |cmds| > 0 {
      assert (cmds + [c])[1..] == cmds[1..] + [c];
      EchoExecAppend(cmds[1..], c);
    }
  }
}
