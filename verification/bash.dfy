/** The `bash` and `bash_output` tools (`tools/bash.py`): the refusal of
    obviously dangerous commands, the permission gate, how a finished
    command's output is put together and cut, and the background task
    table. The shell itself is an input: a command either exits with its
    decoded output and exit status, runs past its timeout, or fails to
    start. */
module BashTool {
  import opened Wrappers
  import opened Text
  import opened OrderedMaps

  /** Substrings that make a command refused, matched against its
      lower-cased text. */
  const DangerousPatterns: seq<string> :=
    ["rm -rf /", "rm -rf /*", ":(){:|:&};:", "mkfs.", "dd if=/dev/zero", "> /dev/sda"]

  /** The first pattern at or after `from` that occurs in `lowered`. */
  function MatchedPattern(lowered: string, from: nat): (r: Option<nat>)
    decreases |DangerousPatterns| - from
    ensures r.Some? ==> from <= r.value < |DangerousPatterns| && Contains(lowered, DangerousPatterns[r.value])
    ensures r.None? ==> forall i :: from <= i < |DangerousPatterns| ==> !Contains(lowered, DangerousPatterns[i])
  {
    if from >= |DangerousPatterns| then None
    else if Contains(lowered, DangerousPatterns[from]) then Some(from)
    else MatchedPattern(lowered, from + 1)
  }

  /** Some dangerous pattern occurs in the command, ignoring case. */
  predicate Dangerous(command: string) {
    MatchedPattern(Lower(command), 0).Some?
  }

  /** A command is dangerous exactly when one of the patterns occurs in
      its lower-cased text. */
  lemma DangerousIff(command: string)
    ensures Dangerous(command) <==>
              exists i :: 0 <= i < |DangerousPatterns| && Contains(Lower(command), DangerousPatterns[i])
  {
  }

  /** Capitalization never lets a dangerous command through. */
  lemma DangerousIgnoresCase(command: string)
    ensures Dangerous(Lower(command)) <==> Dangerous(command)
  {
    LowerIdempotent(command);
  }

  /** What the permission check answers for a command. */
  datatype Permission = Permission(allowed: bool, message: string)

  /** What running the command gives: its decoded output and exit status,
      a timeout, or an exception. */
  datatype Proc = Exited(stdout: string, stderr: string, code: int) | TimedOut | Failed(error: string)

  const RefusedText: string := "Error: Refusing to execute potentially dangerous command"
  const PermissionHead: string := "\U{26A0}\U{FE0F}  Permission required:\n"
  const PermissionTail: string := "\n\nUse approve_operation tool to approve, or modify the command."
  const NoOutputText: string := "(no output)"
  const StderrHead: string := "STDERR:\n"
  const ExitCodeHead: string := "\nExit code: "
  const MaxOutput: nat := 50000

  function TimeoutText(timeout: int): string {
    "Error: Command timed out after " + IntToString(timeout) + " seconds"
  }

  /** The parts of a foreground command's output, given whether each
      stream is blank. */
  function PartsOf(out: bool, err: bool, stdout: string, stderr: string, code: int): (r: seq<string>)
    ensures |r| <= 3
    ensures |r| == 0 <==> !out && !err && code == 0
    ensures out ==> r[0] == stdout
    ensures !out && err ==> r[0] == StderrHead + stderr
    ensures code != 0 ==> r[|r| - 1] == ExitCodeHead + IntToString(code)
    ensures code == 0 ==> forall i :: 0 <= i < |r| ==> r[i] == stdout || r[i] == StderrHead + stderr
    ensures out && err ==> |r| >= 2 && r[1] == StderrHead + stderr
  {
    var exit: seq<string> := if code != 0 then [ExitCodeHead + IntToString(code)] else [];
    if out then
      if err then [stdout, StderrHead + stderr] + exit else [stdout] + exit
    else if err then [StderrHead + stderr] + exit
    else exit
  }

  /** The parts of a foreground command's output: stdout and stderr when
      not blank, then the exit status when it is not zero. */
  function Parts(stdout: string, stderr: string, code: int): (r: seq<string>)
    ensures |r| <= 3
    ensures |r| == 0 <==> Strip(stdout) == "" && Strip(stderr) == "" && code == 0
    ensures Strip(stdout) != "" ==> r[0] == stdout
    ensures Strip(stdout) == "" && Strip(stderr) != "" ==> r[0] == StderrHead + stderr
    ensures code != 0 ==> r[|r| - 1] == ExitCodeHead + IntToString(code)
    ensures code == 0 ==> forall i :: 0 <= i < |r| ==> r[i] == stdout || r[i] == StderrHead + stderr
    ensures Strip(stdout) != "" && Strip(stderr) != "" ==> |r| >= 2 && r[1] == StderrHead + stderr
  {
    PartsOf(Strip(stdout) != "", Strip(stderr) != "", stdout, stderr, code)
  }

  /** The parts joined by newlines, or "(no output)" when there are none. */
  function Assemble(stdout: string, stderr: string, code: int): string {
    var parts := Parts(stdout, stderr, code);
    if |parts| > 0 then Join(parts, "\n") else NoOutputText
  }

  /** A silent, successful command reports "(no output)"; a silent failing
      one reports only its exit status. */
  lemma SilentCommands(stdout: string, stderr: string, code: int)
    requires Strip(stdout) == "" && Strip(stderr) == ""
    ensures code == 0 ==> Assemble(stdout, stderr, code) == NoOutputText
    ensures code != 0 ==> Assemble(stdout, stderr, code) == ExitCodeHead + IntToString(code)
  {
  }

  /** Each non-blank stream appears in the output. */
  lemma StreamsReported(stdout: string, stderr: string, code: int)
    ensures Strip(stdout) != "" ==> StartsWith(Assemble(stdout, stderr, code), stdout)
    ensures Strip(stderr) != "" ==> Contains(Assemble(stdout, stderr, code), StderrHead + stderr)
  {
    var parts := Parts(stdout, stderr, code);
    if Strip(stderr) != "" {
      var i: nat := if Strip(stdout) != "" then 1 else 0;
      JoinContains(parts, "\n", i);
    }
    if Strip(stdout) != "" {
      JoinStartsWithFirst(parts, "\n");
    }
  }

  /** Output longer than 50000 characters is cut to its first 50000 and a
      note with the full length; shorter output is unchanged. */
  function Truncate(result: string): (r: string)
    ensures |result| <= MaxOutput ==> r == result
    ensures |result| > MaxOutput ==>
              StartsWith(r, result[..MaxOutput])
              && r[MaxOutput..] == "\n\n... (truncated, " + NatToString(|result|) + " total characters)"
  {
    if |result| > MaxOutput then
      result[..MaxOutput] + "\n\n... (truncated, " + NatToString(|result|) + " total characters)"
    else result
  }

  /** A truncated output still names the length of the original, so two
      outputs cut to the same text had the same length and the same first
      50000 characters. */
  lemma TruncateKeepsLength(a: string, b: string)
    requires |a| > MaxOutput && |b| > MaxOutput && Truncate(a) == Truncate(b)
    ensures |a| == |b| && a[..MaxOutput] == b[..MaxOutput]
  {
    var note := "\n\n... (truncated, ";
    var ra, rb := Truncate(a), Truncate(b);
    assert ra[MaxOutput..] == rb[MaxOutput..];
    var ta, tb := ra[MaxOutput..], rb[MaxOutput..];
    assert ta[|note|..|ta| - |" total characters)"|] == NatToString(|a|);
    assert tb[|note|..|tb| - |" total characters)"|] == NatToString(|b|);
    NatToStringInjective(|a|, |b|);
    assert ra[..MaxOutput] == a[..MaxOutput];
  }

  /** A background command. */
  datatype BgTask = BgTask(id: string, command: string, output: string, completed: bool, exitCode: Option<int>)

  /** `BackgroundTaskManager._tasks`. */
  type Manager = OMap<BgTask>

  const BgPrefix: string := "bg-"
  const StartedHead: string := "Background task started with ID: "
  const StartedTail: string := "\nUse bash_output tool to check status."

  /** `_run_background`: a new, unfinished task is registered under
      `bg-<first 8 hex digits>`. */
  function StartBackground(m: Manager, command: string, hex: string): (r: (Manager, string))
    requires UniqueKeys(m)
    ensures UniqueKeys(r.0)
    ensures var id := BgPrefix + Take(hex, 8);
            && Get(r.0, id) == Some(BgTask(id, command, "", false, None))
            && (forall k :: k != id ==> Get(r.0, k) == Get(m, k))
            && r.1 == StartedHead + id + StartedTail
  {
    var id := BgPrefix + Take(hex, 8);
    (Put(m, id, BgTask(id, command, "", false, None)), StartedHead + id + StartedTail)
  }

  /** The output a background command records: both streams when not
      empty (no blank test, no exit line and no cut here). */
  function BackgroundOutput(stdout: string, stderr: string): (r: string)
    ensures stdout == "" && stderr == "" ==> r == NoOutputText
    ensures stdout != "" && stderr == "" ==> r == stdout
    ensures stdout == "" && stderr != "" ==> r == StderrHead + stderr
    ensures stdout != "" && stderr != "" ==> r == stdout + "\n" + StderrHead + stderr
  {
    var parts := (if stdout != "" then [stdout] else []) + (if stderr != "" then [StderrHead + stderr] else []);
    if |parts| > 0 then
      assert stdout != "" && stderr != "" ==> Join(parts, "\n") == stdout + "\n" + (StderrHead + stderr);
      Join(parts, "\n")
    else NoOutputText
  }

  /** `run_command` finished: the task is marked complete with its output,
      and with its exit status when the command exited. A task that is not
      in the table is left alone. */
  function FinishBackground(m: Manager, id: string, timeout: int, proc: Proc): (r: Manager)
    requires UniqueKeys(m)
    ensures UniqueKeys(r)
    ensures Get(m, id).None? ==> r == m
    ensures Get(m, id).Some? ==> Get(r, id).Some?
    ensures Get(m, id).Some? ==>
              var t := Get(r, id).value;
              && t.completed && t.id == Get(m, id).value.id && t.command == Get(m, id).value.command
              && (proc.Exited? ==> t.exitCode == Some(proc.code) && t.output == BackgroundOutput(proc.stdout, proc.stderr))
              && (proc.TimedOut? ==> t.output == TimeoutText(timeout) && t.exitCode == Get(m, id).value.exitCode)
              && (proc.Failed? ==> t.output == "Error: " + proc.error && t.exitCode == Get(m, id).value.exitCode)
    ensures forall k :: k != id ==> Get(r, k) == Get(m, k)
  {
    match Get(m, id)
    case None => m
    case Some(t) =>
      var done := match proc
        case Exited(out, err, code) => t.(output := BackgroundOutput(out, err), exitCode := Some(code), completed := true)
        case TimedOut => t.(output := TimeoutText(timeout), completed := true)
        case Failed(e) => t.(output := "Error: " + e, completed := true);
      Put(m, id, done)
  }

  /** `execute`: a dangerous command is refused before anything else; then
      the permission check; then either a background start or a run in the
      foreground. */
  function Execute(m: Manager, command: string, timeout: int, background: bool,
                   permit: string -> Permission, proc: Proc, hex: string): (r: (Manager, string))
    requires UniqueKeys(m)
    ensures UniqueKeys(r.0)
    ensures Dangerous(command) ==> r == (m, RefusedText)
    ensures !Dangerous(command) && !permit(command).allowed ==>
              r == (m, PermissionHead + permit(command).message + PermissionTail)
    ensures !background ==> r.0 == m
    ensures !Dangerous(command) && permit(command).allowed && background ==> r == StartBackground(m, command, hex)
    ensures !Dangerous(command) && permit(command).allowed && !background ==>
              match proc
              case Exited(out, err, code) => r.1 == Truncate(Assemble(out, err, code))
              case TimedOut => r.1 == TimeoutText(timeout)
              case Failed(e) => r.1 == "Error executing command: " + e
  {
    if Dangerous(command) then (m, RefusedText)
    else
      var p := permit(command);
      if !p.allowed then (m, PermissionHead + p.message + PermissionTail)
      else if background then
        var (m', text) := StartBackground(m, command, hex);
        (m', text)
      else
        match proc
        case Exited(out, err, code) => (m, Truncate(Assemble(out, err, code)))
        case TimedOut => (m, TimeoutText(timeout))
        case Failed(e) => (m, "Error executing command: " + e)
  }

  /** A dangerous command is refused whatever the permission check, the
      shell and the background flag would have done. */
  lemma RefusedBeforeAnythingElse(m: Manager, command: string, timeout: int, background: bool,
                                  permit: string -> Permission, proc: Proc, hex: string,
                                  permit2: string -> Permission, proc2: Proc, background2: bool)
    requires UniqueKeys(m) && Dangerous(command)
    ensures Execute(m, command, timeout, background, permit, proc, hex)
            == Execute(m, command, timeout, background2, permit2, proc2, hex)
  {
  }

  const StillRunningAfterWait: string := " is still running after 5 minutes"
  const StillRunning: string := " is still running..."

  function NotFoundText(id: string): string {
    "Error: No background task found with ID " + id
  }

  /** The report on a finished task. */
  function DoneText(t: BgTask): string {
    var status := if t.exitCode.Some? then "Exit code: " + IntToString(t.exitCode.value) else "Completed";
    "Task " + t.id + " - " + status + "\n\n" + t.output
  }

  /** `bash_output`: an unknown id is an error; an unfinished task is
      waited for when asked (its command, run with `timeout`, ends as
      `proc`, unless the five-minute wait runs out first, `inTime` false);
      a finished task reports its status and output. */
  function BashOutput(m: Manager, id: string, wait: bool, timeout: int, proc: Proc, inTime: bool): (r: (Manager, string))
    requires UniqueKeys(m)
    ensures UniqueKeys(r.0)
    ensures Get(m, id).None? ==> r == (m, NotFoundText(id))
    ensures Get(m, id).Some? && Get(m, id).value.completed ==> r == (m, DoneText(Get(m, id).value))
    ensures Get(m, id).Some? && !Get(m, id).value.completed && !wait ==> r == (m, "Task " + id + StillRunning)
    ensures Get(m, id).Some? && !Get(m, id).value.completed && wait && !inTime ==>
              r == (m, "Task " + id + StillRunningAfterWait)
    ensures Get(m, id).Some? && !Get(m, id).value.completed && wait && inTime ==>
              r.0 == FinishBackground(m, id, timeout, proc) && r.1 == DoneText(Get(r.0, id).value)
  {
    match Get(m, id)
    case None => (m, NotFoundText(id))
    case Some(t) =>
      if !t.completed && wait then
        if !inTime then (m, "Task " + id + StillRunningAfterWait)
        else
          var m' := FinishBackground(m, id, timeout, proc);
          (m', DoneText(Get(m', id).value))
      else if t.completed then (m, DoneText(t))
      else (m, "Task " + id + StillRunning)
  }

  /** A command that `execute` lets through with `run_in_background` set
      reports running until it ends, and then its exit status and output. */
  lemma BackgroundLifecycle(m: Manager, command: string, hex: string, timeout: int, out: string, err: string, code: int,
                            permit: string -> Permission, proc: Proc, inTime: bool)
    requires UniqueKeys(m)
    requires !Dangerous(command) && permit(command).allowed
    ensures var (started, _) := Execute(m, command, timeout, true, permit, proc, hex);
            var id := BgPrefix + Take(hex, 8);
            && BashOutput(started, id, false, timeout, proc, inTime).1 == "Task " + id + StillRunning
            && var finished := FinishBackground(started, id, timeout, Exited(out, err, code));
            BashOutput(finished, id, false, timeout, proc, inTime).1
              == DoneText(BgTask(id, command, BackgroundOutput(out, err), true, Some(code)))
  {
    var (started, _) := Execute(m, command, timeout, true, permit, proc, hex);
    assert started == StartBackground(m, command, hex).0;
    var id := BgPrefix + Take(hex, 8);
    var t := BgTask(id, command, "", false, None);
    assert Get(started, id) == Some(t);
    var finished := FinishBackground(started, id, timeout, Exited(out, err, code));
    var done := Get(finished, id).value;
    assert done == BgTask(id, command, BackgroundOutput(out, err), true, Some(code));
    assert BashOutput(finished, id, false, timeout, proc, inTime).1 == DoneText(done);
  }
}
