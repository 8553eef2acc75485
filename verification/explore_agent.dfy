/** `ExploreAgent` (`agents/explore.py`): a read-only agent with at most ten
    rounds, offered only `read_file`, `glob` and `grep`, refusing any other
    tool without running it. The wording of its system prompt is a
    parameter (`system`). */
module ExploreAgent {
  import opened Wrappers
  import opened Text
  import opened Json
  import opened PyValues
  import opened Wire
  import opened ToolBase
  import opened ToolRegistry
  import opened AgentBase

  const MaxTurns: nat := 10

  const AllowedTools: seq<string> := ["read_file", "glob", "grep"]

  /** `[t for t in all_schemas if t["function"]["name"] in self.allowed_tools]`. */
  function OfferedTools(reg: Registry): (r: seq<Json>)
    ensures forall s :: s in r <==> exists t :: t in ListTools(reg) && t.name in AllowedTools && s == ToOpenAISchema(t)
  {
    SchemasWhere(ListTools(reg), n => n in AllowedTools)
  }

  /** What one tool call gets back: a refusal for a tool outside the
      allow-list, otherwise the registry's answer. */
  function Answer(env: AgentEnv, call: ToolCall): (r: string)
    ensures call.name !in AllowedTools ==> r == NotAllowedText(call.name)
    ensures call.name in AllowedTools ==> r == Exec(env, call)
  {
    if call.name !in AllowedTools then NotAllowedText(call.name) else Exec(env, call)
  }

  function AnswerFn(env: AgentEnv): ToolCall -> string {
    c => Answer(env, c)
  }

  /** The exception the status line of a call raises before the call is
      answered: `glob` reads its pattern, `grep` cuts its pattern to 30
      characters, `read_file` looks for "/" in its path; no other tool's
      arguments are read. */
  function CallError(call: ToolCall): (r: Option<string>)
    ensures call.name !in AllowedTools ==> r.None?
    ensures call.name in AllowedTools && !call.arguments.JObj? ==> r == Some(NoAttribute(call.arguments, "get"))
    ensures call.name == "glob" ==> (r.None? <==> call.arguments.JObj?)
    ensures call.name == "grep" && TextArg(call.arguments, "pattern") ==> r.None?
    ensures call.name == "read_file" && TextArg(call.arguments, "file_path") ==> r.None?
    ensures call.name == "grep" && call.arguments.JObj? && Field(call.arguments, "pattern").Some?
            && IsScalar(Field(call.arguments, "pattern").value) ==>
              r == Some("'" + TypeName(Field(call.arguments, "pattern").value) + "' object is not subscriptable")
    ensures call.name == "read_file" && call.arguments.JObj? && Field(call.arguments, "file_path").Some?
            && IsScalar(Field(call.arguments, "file_path").value) ==>
              r == Some("argument of type '" + TypeName(Field(call.arguments, "file_path").value) + "' is not iterable")
  {
    if call.name == "glob" then ErrorOf(Arg(call.arguments, "pattern"))
    else if call.name == "grep" then ErrorOf(ArgPrefix(call.arguments, "pattern", 30))
    else if call.name == "read_file" then ErrorOf(ArgSegment(call.arguments, "file_path"))
    else None
  }

  function Fails(): ToolCall -> Option<string> {
    c => CallError(c)
  }

  /** A refused call runs nothing: its answer is the same whatever the
      registry and its handlers are. */
  lemma RefusedCallRunsNothing(env1: AgentEnv, env2: AgentEnv, call: ToolCall)
    requires call.name !in AllowedTools
    ensures Answer(env1, call) == Answer(env2, call)
    ensures StartsWith(Answer(env1, call), "Error: ")
  {
  }

  /** What a run gives back, with the messages it built and the number of
      model calls it made. */
  datatype ExploreRun = ExploreRun(outcome: RunOutcome, transcript: seq<Message>, modelCalls: nat)

  function Opening(system: string, prompt: string): seq<Message> {
    [SystemMessage(system), UserMessage(prompt)]
  }

  /** The model with this agent's tools offered. */
  function ChatWith(env: AgentEnv, tools: seq<Json>): seq<Message> -> ChatOutcome {
    ms => env.chat(ms, Some(tools))
  }

  /** The round loop of a run, from the two opening messages and an empty
      output list. */
  function Rounds(env: AgentEnv, system: string, prompt: string): LoopEnd<seq<string>> {
    Loop(ChatWith(env, OfferedTools(env.reg)), env.cancelled, Collect, AnswerFn(env), Fails(), MaxTurns, Opening(system, prompt), [], 0)
  }

  lemma RoundsShape(env: AgentEnv, system: string, prompt: string)
    ensures var l := Rounds(env, system, prompt);
            |l.messages| >= 2 && Answered(l.messages[2..], AnswerFn(env), Fails())
            && l.state == Absorbed(Collect, [], Replies(l.messages[2..]))
            && CutBy(l.messages[2..], Fails()) == if l.stop.CallRaised? then Some(l.stop.error) else None
  {
    var chat := ChatWith(env, OfferedTools(env.reg));
    LoopAnswered(chat, env.cancelled, Collect, AnswerFn(env), Fails(), MaxTurns, Opening(system, prompt), [], 0);
    LoopState(chat, env.cancelled, Collect, AnswerFn(env), Fails(), MaxTurns, Opening(system, prompt), [], 0);
  }

  function Outcome(stop: Stop, agentId: string, collected: seq<string>): (r: RunOutcome)
    ensures r.Finished? ==> r.result.agentId == agentId && r.result.agentType == Explore
    ensures r.Finished? && !r.result.success ==>
              stop == Cancelled && r.result.error == Some("Agent cancelled") && r.result.output == Join(collected, "\n")
    ensures r.Finished? && r.result.success ==>
              r.result.error.None? &&
              r.result.output == if |collected| > 0 then Join(collected, "\n") else "Exploration complete."
    ensures r.Crashed? <==> stop.ChatRaised? || stop.CallRaised?
    ensures r.Crashed? ==> r.error == stop.error
  {
    match stop
    case Cancelled => Finished(FailedResult(agentId, Explore, Join(collected, "\n"), "Agent cancelled"))
    case ChatRaised(e) => Crashed(e)
    case CallRaised(e) => Crashed(e)
    case _ => Finished(NewResult(agentId, Explore, true, if |collected| > 0 then Join(collected, "\n") else "Exploration complete."))
  }

  /** `ExploreAgent.run`. */
  function Run(env: AgentEnv, agentId: string, system: string, prompt: string): (r: ExploreRun)
    ensures r.modelCalls <= MaxTurns
    ensures Opening(system, prompt) <= r.transcript
    ensures Answered(r.transcript[2..], AnswerFn(env), Fails())
    ensures forall t :: 0 <= t < r.modelCalls ==> !env.cancelled(t)
    ensures r.outcome.Finished? ==> r.outcome.result.agentId == agentId && r.outcome.result.agentType == Explore
    ensures r.outcome.Finished? && !r.outcome.result.success ==>
              env.cancelled(r.modelCalls) && r.outcome.result.error == Some("Agent cancelled")
              && r.outcome.result.output == Join(Contents(Replies(r.transcript[2..])), "\n")
    ensures r.outcome.Finished? && r.outcome.result.success ==>
              var collected := Contents(Replies(r.transcript[2..]));
              r.outcome.result.error.None? &&
              r.outcome.result.output == if |collected| > 0 then Join(collected, "\n") else "Exploration complete."
    ensures r.outcome.Crashed? ==> 0 < r.modelCalls
    ensures CutBy(r.transcript[2..], Fails()).Some? ==> r.outcome == Crashed(CutBy(r.transcript[2..], Fails()).value)
    ensures r.outcome.Crashed? && CutBy(r.transcript[2..], Fails()).None? ==>
              env.chat(r.transcript, Some(OfferedTools(env.reg))) == ChatFailed(r.outcome.error)
  {
    var l := Rounds(env, system, prompt);
    assert |l.messages| >= 2 by { assert Opening(system, prompt) <= l.messages; }
    RoundsShape(env, system, prompt);
    var collected := Contents(Replies(l.messages[2..]));
    CollectedContents([], Replies(l.messages[2..]));
    assert l.state == collected;
    ExploreRun(Outcome(l.stop, agentId, collected), l.messages, l.calls)
  }

  /** A cancellation seen before the first round: no model call, failure
      with empty output. */
  lemma CancelledBeforeFirstRound(env: AgentEnv, agentId: string, system: string, prompt: string)
    requires env.cancelled(0)
    ensures Run(env, agentId, system, prompt).modelCalls == 0
    ensures Run(env, agentId, system, prompt).outcome == Finished(FailedResult(agentId, Explore, "", "Agent cancelled"))
  {
  }

  /** A first reply without tool calls ends the run successfully with that
      reply's content (or the fixed message when it has none). */
  lemma PlainFirstReply(env: AgentEnv, agentId: string, system: string, prompt: string, reply: Message)
    requires !env.cancelled(0)
    requires env.chat(Opening(system, prompt), Some(OfferedTools(env.reg))) == Got(reply)
    requires |Calls(reply)| == 0
    ensures Run(env, agentId, system, prompt).modelCalls == 1
    ensures Run(env, agentId, system, prompt).outcome ==
              Finished(NewResult(agentId, Explore, true,
                                 if Truthy(reply.content) then reply.content.value else "Exploration complete."))
  {
    var l := Rounds(env, system, prompt);
    assert l.messages == Opening(system, prompt) + [reply] && l.stop == Replied;
    var ms := l.messages[2..];
    assert ms == [reply];
    assert Replies(ms) == [reply] + Replies(ms[1..]);
  }
}
