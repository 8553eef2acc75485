/** `PluginAgent` (`agents/plugin_agent.py`): an agent defined by a plugin
    file. It is offered the registry tools its definition lists, runs at
    most twenty rounds, executes every call it is asked for, and reports a
    failed model call, or a status label that raised, as a failed result
    rather than raising. */
module PluginAgent {
  import opened Wrappers
  import opened Text
  import opened OrderedMaps
  import opened Json
  import opened PyValues
  import opened Wire
  import opened ToolBase
  import opened ToolRegistry
  import opened AgentBase
  import PluginLoader

  const MaxTurns: nat := 20

  const ExploreWord: string := "explore"
  const PlanWord: string := "plan"
  const ArchitectWord: string := "architect"

  /** The closest built-in kind, read from the definition's name in any
      capitalization: "explore" first, then "plan" or "architect". */
  function TypeOf(name: string): (r: AgentType)
    ensures r != Bash
    ensures r == Explore <==> Contains(Lower(name), ExploreWord)
    ensures r == Plan <==> !Contains(Lower(name), ExploreWord) &&
                           (Contains(Lower(name), PlanWord) || Contains(Lower(name), ArchitectWord))
  {
    var n := Lower(name);
    if Contains(n, ExploreWord) then Explore
    else if Contains(n, PlanWord) || Contains(n, ArchitectWord) then Plan
    else General
  }

  /** The kind does not depend on capitalization. */
  lemma TypeOfIgnoresCase(name: string)
    ensures TypeOf(Lower(name)) == TypeOf(name)
  {
    LowerIdempotent(name);
  }

  const RulesSeparator: string := "\n---\n\n"

  /** The shared agent rules, a separator, then the definition's prompt. */
  function SystemPrompt(prompt: string): (r: string)
    ensures StartsWith(r, BaseAgentRules) && EndsWith(r, prompt)
    ensures |r| == |BaseAgentRules| + |RulesSeparator| + |prompt|
    ensures r[|BaseAgentRules|..|BaseAgentRules| + |RulesSeparator|] == RulesSeparator
    ensures r[|BaseAgentRules| + |RulesSeparator|..] == prompt
  {
    BaseAgentRules + RulesSeparator + prompt
  }

  /** The prompt is recovered from the system prompt, so different
      definitions never share one. */
  lemma SystemPromptInjective(p1: string, p2: string)
    requires SystemPrompt(p1) == SystemPrompt(p2)
    ensures p1 == p2
  {
    assert p1 == SystemPrompt(p1)[|BaseAgentRules| + |RulesSeparator|..];
  }

  /** The lower-cased names of the definition's tools. */
  function LoweredAll(names: seq<string>): (r: seq<string>)
    ensures |r| == |names|
    ensures forall i :: 0 <= i < |names| ==> r[i] == Lower(names[i])
  {
    if |names| == 0 then [] else [Lower(names[0])] + LoweredAll(names[1..])
  }

  /** The schemas of the registry tools whose names match one of `tools`
      ignoring case, in registry order; none when `tools` is empty. */
  function OfferedTools(reg: Registry, tools: seq<string>): (r: seq<Json>)
    ensures |tools| == 0 ==> r == []
    ensures forall s :: s in r <==>
              (exists t :: t in ListTools(reg) && |tools| > 0 && Lower(t.name) in LoweredAll(tools) && s == ToOpenAISchema(t))
  {
    if |tools| == 0 then []
    else
      var wanted := LoweredAll(tools);
      SchemasWhere(ListTools(reg), n => Lower(n) in wanted)
  }

  /** A tool is offered exactly when some listed name equals its name
      ignoring case. */
  lemma OfferedIgnoresCase(reg: Registry, tools: seq<string>, t: Tool)
    requires t in ListTools(reg)
    ensures ToOpenAISchema(t) in OfferedTools(reg, tools) <==>
            exists i :: 0 <= i < |tools| && Lower(tools[i]) == Lower(t.name)
  {
    var wanted := LoweredAll(tools);
    if exists i :: 0 <= i < |tools| && Lower(tools[i]) == Lower(t.name) {
      var i :| 0 <= i < |tools| && Lower(tools[i]) == Lower(t.name);
      assert wanted[i] == Lower(t.name);
    }
  }

  /** `tools if tools else None`: an empty selection passes no tools. */
  function ToolsArg(offered: seq<Json>): (r: Option<seq<Json>>)
    ensures r.None? <==> |offered| == 0
    ensures r.Some? ==> r.value == offered
  {
    if |offered| > 0 then Some(offered) else None
  }

  /** Every call goes to the registry: the definition's tool list is not
      consulted when a call is answered. */
  function AnswerFn(env: AgentEnv): ToolCall -> string {
    c => Exec(env, c)
  }

  const BashCut: nat := 40
  const GrepCut: nat := 30

  /** The exception a call's status label raises before the call runs. */
  function CallError(call: ToolCall): (r: Option<string>)
    ensures r == LabelError(call.name, call.arguments, BashCut, GrepCut)
    ensures !ReadsArgument(call.name) ==> r.None?
    ensures ReadsArgument(call.name) && !call.arguments.JObj? ==> r == Some(NoAttribute(call.arguments, "get"))
  {
    var show := (v: Json) => "";
    var lbl := ToolLabel(call.name, call.arguments, BashCut, GrepCut, show);
    ErrorOf(lbl)
  }

  function Fails(): ToolCall -> Option<string> {
    c => CallError(c)
  }

  /** A call to a tool the definition does not list is run all the same. */
  lemma UnlistedToolStillRuns(env: AgentEnv, def: PluginLoader.AgentDef, call: ToolCall)
    requires forall i :: 0 <= i < |def.tools| ==> Lower(def.tools[i]) != Lower(call.name)
    ensures AnswerFn(env)(call) == Execute(env.reg, call.name, call.arguments, env.run)
  {
  }

  /** `full_output`: each reply's content followed by a newline. */
  function Lines(xs: seq<string>): string {
    if |xs| == 0 then "" else xs[0] + "\n" + Lines(xs[1..])
  }

  /** The output is the contents joined by newlines, plus one final newline. */
  lemma {:induction false} LinesJoin(xs: seq<string>)
    requires |xs| > 0
    ensures Lines(xs) == Join(xs, "\n") + "\n"
    decreases |xs|
  {
    if |xs| > 1 {
      LinesJoin(xs[1..]);
      assert Lines(xs) == xs[0] + "\n" + (Join(xs[1..], "\n") + "\n");
      assert Join(xs, "\n") == xs[0] + "\n" + Join(xs[1..], "\n");
    } else {
      assert Lines(xs[1..]) == "";
    }
  }

  /** What a run gives back, with the messages it built and the number of
      model calls it made. */
  datatype PluginRun = PluginRun(outcome: RunOutcome, transcript: seq<Message>, modelCalls: nat)

  function ChatWith(env: AgentEnv, tools: Option<seq<Json>>): seq<Message> -> ChatOutcome {
    ms => env.chat(ms, tools)
  }

  function Opening(def: PluginLoader.AgentDef, prompt: string, context: OMap<string>): seq<Message> {
    AgentBase.Opening(SystemPrompt(def.prompt), prompt, context)
  }

  /** The round loop of a run, from the opening messages and no output. */
  function Rounds(env: AgentEnv, def: PluginLoader.AgentDef, prompt: string, context: OMap<string>): LoopEnd<seq<string>> {
    var tools := ToolsArg(OfferedTools(env.reg, def.tools));
    Loop(ChatWith(env, tools), env.cancelled, Collect, AnswerFn(env), Fails(), MaxTurns, Opening(def, prompt, context), [], 0)
  }

  lemma RoundsShape(env: AgentEnv, def: PluginLoader.AgentDef, prompt: string, context: OMap<string>)
    ensures var l := Rounds(env, def, prompt, context);
            var n := |Opening(def, prompt, context)|;
            |l.messages| >= n && Answered(l.messages[n..], AnswerFn(env), Fails())
            && l.state == Absorbed(Collect, [], Replies(l.messages[n..]))
            && CutBy(l.messages[n..], Fails()) == if l.stop.CallRaised? then Some(l.stop.error) else None
  {
    var chat := ChatWith(env, ToolsArg(OfferedTools(env.reg, def.tools)));
    var start := Opening(def, prompt, context);
    LoopAnswered(chat, env.cancelled, Collect, AnswerFn(env), Fails(), MaxTurns, start, [], 0);
    LoopState(chat, env.cancelled, Collect, AnswerFn(env), Fails(), MaxTurns, start, [], 0);
  }

  const CancelledText: string := "Agent was cancelled"

  /** A cancellation, a failed model call or a raising status label gives
      a failed result with the output gathered so far; otherwise the
      stripped output is the result. */
  function Outcome(stop: Stop, agentId: string, kind: AgentType, collected: seq<string>): (r: RunOutcome)
    ensures r.Finished?
    ensures r.result.agentId == agentId && r.result.agentType == kind
    ensures r.result.success <==> stop == Replied || stop == Exhausted
    ensures stop == Cancelled ==> r.result.error == Some(CancelledText) && r.result.output == Lines(collected)
    ensures stop.ChatRaised? || stop.CallRaised? ==> r.result.error == Some(stop.error) && r.result.output == Lines(collected)
    ensures r.result.success ==> r.result.error.None? && r.result.output == Strip(Lines(collected))
  {
    match stop
    case Cancelled => Finished(FailedResult(agentId, kind, Lines(collected), CancelledText))
    case ChatRaised(e) => Finished(FailedResult(agentId, kind, Lines(collected), e))
    case CallRaised(e) => Finished(FailedResult(agentId, kind, Lines(collected), e))
    case _ => Finished(NewResult(agentId, kind, true, Strip(Lines(collected))))
  }

  /** `PluginAgent.run`. */
  function Run(env: AgentEnv, def: PluginLoader.AgentDef, agentId: string, prompt: string, context: OMap<string>): (r: PluginRun)
    ensures r.modelCalls <= MaxTurns
    ensures Opening(def, prompt, context) <= r.transcript
    ensures Answered(r.transcript[|Opening(def, prompt, context)|..], AnswerFn(env), Fails())
    ensures forall t :: 0 <= t < r.modelCalls ==> !env.cancelled(t)
    ensures r.outcome.Finished?
    ensures r.outcome.result.agentId == agentId && r.outcome.result.agentType == TypeOf(def.name)
    ensures var collected := Contents(Replies(r.transcript[|Opening(def, prompt, context)|..]));
            && (!r.outcome.result.success ==> r.outcome.result.output == Lines(collected))
            && (r.outcome.result.success ==> r.outcome.result.output == Strip(Lines(collected)))
    ensures var cut := CutBy(r.transcript[|Opening(def, prompt, context)|..], Fails());
            cut.Some? ==> !r.outcome.result.success && r.outcome.result.error == cut
    ensures !r.outcome.result.success ==>
              (env.cancelled(r.modelCalls) && r.outcome.result.error == Some(CancelledText))
              || (r.modelCalls > 0 && r.outcome.result.error.Some?
                  && env.chat(r.transcript, ToolsArg(OfferedTools(env.reg, def.tools))) == ChatFailed(r.outcome.result.error.value))
              || (r.modelCalls > 0 && r.outcome.result.error == CutBy(r.transcript[|Opening(def, prompt, context)|..], Fails()))
    ensures r.outcome.result.success && r.modelCalls < MaxTurns ==>
              |r.transcript| > 0 && |Calls(r.transcript[|r.transcript| - 1])| == 0
  {
    var l := Rounds(env, def, prompt, context);
    var start := Opening(def, prompt, context);
    assert |l.messages| >= |start| by { assert start <= l.messages; }
    RoundsShape(env, def, prompt, context);
    var collected := Contents(Replies(l.messages[|start|..]));
    CollectedContents([], Replies(l.messages[|start|..]));
    assert l.state == collected;
    PluginRun(Outcome(l.stop, agentId, TypeOf(def.name), collected), l.messages, l.calls)
  }

  /** A cancellation seen before the first round: no model call, failure
      with empty output. */
  lemma CancelledBeforeFirstRound(env: AgentEnv, def: PluginLoader.AgentDef, agentId: string, prompt: string, context: OMap<string>)
    requires env.cancelled(0)
    ensures Run(env, def, agentId, prompt, context).modelCalls == 0
    ensures Run(env, def, agentId, prompt, context).outcome ==
              Finished(FailedResult(agentId, TypeOf(def.name), "", CancelledText))
  {
  }

  /** A model call that fails on the first round gives a failed result
      carrying the error, never a crash. */
  lemma FirstChatFails(env: AgentEnv, def: PluginLoader.AgentDef, agentId: string, prompt: string, context: OMap<string>, e: string)
    requires !env.cancelled(0)
    requires env.chat(Opening(def, prompt, context), ToolsArg(OfferedTools(env.reg, def.tools))) == ChatFailed(e)
    ensures Run(env, def, agentId, prompt, context).outcome ==
              Finished(FailedResult(agentId, TypeOf(def.name), "", e))
  {
  }

  /** The status label of a call: bash commands cut to 40 characters,
      grep patterns to 30; `show` is how a list or dict argument prints. */
  function StatusLabel(call: ToolCall, show: Json -> string): (r: Py<string>)
    ensures ErrorOf(r) == CallError(call)
    ensures call.name == "bash" && TextArg(call.arguments, "command") ==>
              var cmd := ArgText(call.arguments, "command");
              r.Success? && |r.value| <= 5 + 40 + 3 + 1
              && (|cmd| <= 40 ==> r.value == "Bash(" + cmd + ")")
              && (|cmd| > 40 ==> r.value == "Bash(" + cmd[..40] + "...)")
    ensures call.name == "grep" && TextArg(call.arguments, "pattern") ==>
              r == Success("Grep(" + Take(ArgText(call.arguments, "pattern"), 30) + ")")
  {
    ToolLabel(call.name, call.arguments, BashCut, GrepCut, show)
  }
}
