/** The `task` and `task_output` tools (`tools/agents.py`): spawning a
    sub-agent through the agent runner, in the foreground or in the
    background, and fetching a background agent's output. The runner is
    optional: until `set_runner` connects one, both tools answer with an
    error and spawn nothing. */
module AgentTools {
  import opened Wrappers
  import opened Text
  import opened OrderedMaps
  import opened Wire
  import opened AgentBase
  import opened AgentRunner
  import ToolBase

  const NoRunnerText: string := "Error: Agent runner not configured"
  const StartedText: string := "Agent started in background with ID: "
  const FailedText: string := "Agent failed: "
  const PartialText: string := "\n\nPartial output:\n"
  const SpawnErrorText: string := "Error spawning agent: "
  const CompletedText: string := "Agent completed.\n\n"
  const NotFoundText: string := "Error: No agent found with ID "
  const DescriptionWidth: nat := 50

  /** The arguments of `task`. */
  datatype TaskArgs = TaskArgs(agentType: string, prompt: string, background: bool,
                               subagentType: Option<string>, description: Option<string>)

  /** `subagent_type or agent_type`: the alias wins when it is a non-empty
      string. */
  function ChosenType(a: TaskArgs): (r: string)
    ensures Truthy(a.subagentType) ==> r == a.subagentType.value
    ensures !Truthy(a.subagentType) ==> r == a.agentType
  {
    if Truthy(a.subagentType) then a.subagentType.value else a.agentType
  }

  /** `description or prompt[:50]`: the text shown when the agent starts. */
  function Description(a: TaskArgs): (r: string)
    ensures Truthy(a.description) ==> r == a.description.value
    ensures !Truthy(a.description) ==> |r| <= DescriptionWidth && r <= a.prompt
    ensures !Truthy(a.description) && |a.prompt| <= DescriptionWidth ==> r == a.prompt
  {
    if Truthy(a.description) then a.description.value else Take(a.prompt, DescriptionWidth)
  }

  /** An f-string of an optional error: `None` prints as "None". */
  function ErrorText(e: Option<string>): string {
    if e.Some? then e.value else "None"
  }

  /** The answer to a finished foreground agent: its output on success;
      otherwise the error followed by the partial output. */
  function Report(result: AgentResult): (r: string)
    ensures result.success ==> r == result.output
    ensures !result.success ==> StartsWith(r, FailedText) && EndsWith(r, PartialText + result.output)
  {
    if result.success then result.output
    else FailedText + ErrorText(result.error) + PartialText + result.output
  }

  /** The error and the partial output are read back from a failure report
      whose error text has no blank line before "Partial output:". */
  lemma ReportParts(result: AgentResult)
    requires !result.success && result.error.Some?
    ensures Report(result)[|FailedText|..|FailedText| + |result.error.value|] == result.error.value
    ensures Report(result)[|Report(result)| - |result.output|..] == result.output
  {
    var r := Report(result);
    assert r == FailedText + result.error.value + (PartialText + result.output);
  }

  /** `TaskTool.execute`, with the runner it is connected to. `uuid` is the
      id source of the new agent and `run` what that agent's run gives. The
      runner comes back as the call leaves it. */
  function Task(runner: Option<Runner>, a: TaskArgs, uuid: string, run: (Spawn, string) -> RunOutcome): (out: (Option<Runner>, string))
    requires runner.Some? ==> Valid(runner.value)
    ensures runner.None? ==> out == (None, NoRunnerText)
    ensures runner.Some? ==> out.0.Some? && Valid(out.0.value)
    ensures runner.Some? && a.background ==>
              var (after, id) := RunBackground(runner.value, Named(ChosenType(a)), a.prompt, uuid);
              out == (Some(after), StartedText + id)
    ensures runner.Some? && !a.background ==>
              var (after, ret) := RunAgent(runner.value, Named(ChosenType(a)), a.prompt, uuid, run);
              out.0 == Some(after)
              && (ret.Result? ==> out.1 == Report(ret.result))
              && (ret.Raised? ==> out.1 == SpawnErrorText + ret.error)
  {
    if runner.None? then (None, NoRunnerText)
    else
      var req := Named(ChosenType(a));
      if a.background then
        var (after, id) := RunBackground(runner.value, req, a.prompt, uuid);
        (Some(after), StartedText + id)
      else
        var (after, ret) := RunAgent(runner.value, req, a.prompt, uuid, run);
        match ret
        case Result(result) => (Some(after), Report(result))
        case Raised(e) => (Some(after), SpawnErrorText + e)
  }

  /** The `timeout` argument: its value, and its text as Python prints it
      (`60.0` for the default). */
  datatype Seconds = Seconds(amount: real, shown: string)

  const DefaultTimeout: Seconds := Seconds(60.0, "60.0")

  function StillRunningText(id: string): string {
    "Agent " + id + " is still running"
  }

  function TimedOutText(id: string, timeout: Seconds): string {
    "Agent " + id + " did not complete within " + timeout.shown + " seconds"
  }

  /** `TaskOutputTool.execute`: a stored result first, then an unknown id,
      then a running agent without waiting, then the wait itself. The wait
      ends with the background run (`outcome`) unless the timeout runs out
      first (`inTime` false); a run that raised passes its exception on. */
  function TaskOutput(runner: Option<Runner>, id: string, wait: bool, timeout: Seconds,
                      outcome: RunOutcome, inTime: bool): (out: (Option<Runner>, ToolBase.HandlerOutcome))
    requires runner.Some? ==> Valid(runner.value)
    ensures runner.None? ==> out == (None, ToolBase.Returned(NoRunnerText))
    ensures runner.Some? ==> out.0.Some? && Valid(out.0.value)
    ensures runner.Some? && GetResult(runner.value, id).Some? ==>
              out == (runner, ToolBase.Returned(CompletedText + GetResult(runner.value, id).value.output))
    ensures runner.Some? && GetResult(runner.value, id).None? && id !in RunningIds(runner.value) ==>
              out == (runner, ToolBase.Returned(NotFoundText + id))
    ensures runner.Some? && GetResult(runner.value, id).None? && id in RunningIds(runner.value) && !wait ==>
              out == (runner, ToolBase.Returned(StillRunningText(id)))
    ensures runner.Some? && out.0 != runner ==>
              outcome.Finished? && out.1 == ToolBase.Returned(CompletedText + outcome.result.output)
              && GetResult(out.0.value, id) == Some(outcome.result)
    ensures runner.Some? && GetResult(runner.value, id).None? && id in RunningIds(runner.value) && wait
            && timeout.amount != 0.0 && !inTime ==>
              out == (runner, ToolBase.Returned(TimedOutText(id, timeout)))
    ensures out.1.Raised? ==> outcome == Crashed(out.1.message)
  {
    if runner.None? then (None, ToolBase.Returned(NoRunnerText))
    else
      var r := runner.value;
      var done := GetResult(r, id);
      if done.Some? then (runner, ToolBase.Returned(CompletedText + done.value.output))
      else if id !in RunningIds(r) then (runner, ToolBase.Returned(NotFoundText + id))
      else if !wait then (runner, ToolBase.Returned(StillRunningText(id)))
      else
        var (after, w) := WaitForAgent(r, id, Some(timeout.amount), outcome, inTime);
        match w
        case Got(result) => (Some(after), ToolBase.Returned(CompletedText + result.output))
        case Nothing => (Some(after), ToolBase.Returned(TimedOutText(id, timeout)))
        case WaitRaised(e) => (Some(after), ToolBase.Raised(e))
  }

  /** A background task is reported as running until its run finishes,
      and then as completed with its output. */
  lemma BackgroundThenOutput(r: Runner, a: TaskArgs, uuid: string, run: (Spawn, string) -> RunOutcome,
                             timeout: Seconds, outcome: RunOutcome, inTime: bool, result: AgentResult)
    requires Valid(r) && a.background
    requires GetResult(r, NewAgent(None, uuid).agentId).None?
    ensures var (started, text) := Task(Some(r), a, uuid, run);
            var id := NewAgent(None, uuid).agentId;
            && text == StartedText + id
            && TaskOutput(started, id, false, timeout, outcome, inTime).1 == ToolBase.Returned(StillRunningText(id))
            && var finished := Complete(started.value, id, Finished(result));
            TaskOutput(Some(finished), id, false, timeout, outcome, inTime).1 == ToolBase.Returned(CompletedText + result.output)
  {
    var id := NewAgent(None, uuid).agentId;
    var (started, text) := Task(Some(r), a, uuid, run);
    assert started.value == RunBackground(r, Named(ChosenType(a)), a.prompt, uuid).0;
    assert HasKey(started.value.running, id);
    assert GetResult(started.value, id) == GetResult(r, id);
  }

  /** A foreground task's result stays available to `task_output` under
      the agent's id. */
  lemma ForegroundThenOutput(r: Runner, a: TaskArgs, uuid: string, run: (Spawn, string) -> RunOutcome,
                             wait: bool, timeout: Seconds, outcome: RunOutcome, inTime: bool)
    requires Valid(r) && !a.background
    requires run(Create(r.plugins, Named(ChosenType(a))), a.prompt).Finished?
    ensures var (after, text) := Task(Some(r), a, uuid, run);
            var result := run(Create(r.plugins, Named(ChosenType(a))), a.prompt).result;
            && text == Report(result)
            && TaskOutput(after, NewAgent(None, uuid).agentId, wait, timeout, outcome, inTime).1
                 == ToolBase.Returned(CompletedText + result.output)
  {
  }

  /** With no runner connected, neither tool spawns or changes anything. */
  lemma NoRunnerNoEffect(a: TaskArgs, uuid: string, run: (Spawn, string) -> RunOutcome,
                         id: string, wait: bool, timeout: Seconds, outcome: RunOutcome, inTime: bool)
    ensures Task(None, a, uuid, run) == (None, NoRunnerText)
    ensures TaskOutput(None, id, wait, timeout, outcome, inTime) == (None, ToolBase.Returned(NoRunnerText))
  {
  }
}
