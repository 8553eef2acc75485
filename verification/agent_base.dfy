/** What every sub-agent shares (`agents/base.py`): the agent kinds, the
    result record, the id and cancel flag, the base rules, and the round
    loop that the explore, plan and plugin agents run — call the model,
    keep the reply, answer each of its tool calls in order, stop at a reply
    without calls, at the round limit, at a cancellation seen at the top of
    a round, or at an exception from the model. */
module AgentBase {
  import opened Wrappers
  import opened OrderedMaps
  import opened Text
  import opened Json
  import opened PyValues
  import opened Wire
  import opened ToolBase
  import opened ToolRegistry

  datatype AgentType = Explore | Plan | General | Bash

  /** The enum's value string. */
  function TypeValue(t: AgentType): string {
    match t
    case Explore => "explore"
    case Plan => "plan"
    case General => "general"
    case Bash => "bash"
  }

  /** `AgentType(s)`: `None` where Python raises `ValueError`. */
  function ParseAgentType(s: string): (r: Option<AgentType>)
    ensures r.Some? <==> s in {"explore", "plan", "general", "bash"}
    ensures r.Some? ==> TypeValue(r.value) == s
  {
    if s == "explore" then Some(Explore)
    else if s == "plan" then Some(Plan)
    else if s == "general" then Some(General)
    else if s == "bash" then Some(Bash)
    else None
  }

  lemma ParseTypeValue(t: AgentType)
    ensures ParseAgentType(TypeValue(t)) == Some(t)
  {
  }

  /** `AgentResult`; `metadata` is a string-keyed dict. */
  datatype AgentResult = AgentResult(agentId: string, agentType: AgentType, success: bool, output: string,
                                     error: Option<string>, metadata: OMap<Json>)

  /** `AgentResult(...)` with only the four required fields given. */
  function NewResult(agentId: string, agentType: AgentType, success: bool, output: string): (r: AgentResult)
    ensures r.error.None? && r.metadata == []
    ensures r.agentId == agentId && r.agentType == agentType && r.success == success && r.output == output
  {
    AgentResult(agentId, agentType, success, output, None, [])
  }

  /** A failed result with its error text. */
  function FailedResult(agentId: string, agentType: AgentType, output: string, error: string): (r: AgentResult)
    ensures !r.success && r.error == Some(error) && r.output == output && r.metadata == []
  {
    AgentResult(agentId, agentType, false, output, Some(error), [])
  }

  /** What `await agent.run(...)` gives: a result, or the exception that
      escaped it. */
  datatype RunOutcome = Finished(result: AgentResult) | Crashed(error: string)

  /** The identity and cancel flag every agent carries. */
  datatype Agent = Agent(agentId: string, cancelled: bool)

  /** `Agent.__init__`: `agent_id or str(uuid.uuid4())[:8]`, where `uuid`
      is the freshly generated UUID text. */
  function NewAgent(supplied: Option<string>, uuid: string): (a: Agent)
    ensures !a.cancelled
    ensures Truthy(supplied) ==> a.agentId == supplied.value
    ensures !Truthy(supplied) ==> a.agentId == Take(uuid, 8) && |a.agentId| <= 8
  {
    if Truthy(supplied) then Agent(supplied.value, false) else Agent(Take(uuid, 8), false)
  }

  /** `cancel`. */
  function Cancel(a: Agent): (r: Agent)
    ensures r.cancelled && r.agentId == a.agentId
  {
    a.(cancelled := true)
  }

  /** Cancelling is idempotent and nothing in the class clears the flag. */
  lemma CancelIdempotent(a: Agent)
    ensures Cancel(Cancel(a)) == Cancel(a)
    ensures Cancel(a).cancelled
  {
  }

  const BaseAgentRules: string :=
    "## Base Rules (Always Follow)\n"
    + "1. Use your tools - NEVER ask the user for file contents. Use Read tool.\n"
    + "2. Read before modify - Always read a file before editing or writing to it.\n"
    + "3. Work autonomously - Don't ask for permission. Just do the work.\n"
    + "4. Be thorough - Complete the entire task. No placeholders or TODOs.\n"
    + "5. Mark tasks complete - If tasks exist, use task_update to mark them done.\n"

  function SystemMessage(content: string): Message {
    Message(System, Some(content), None, None, None)
  }

  function UserMessage(content: string): Message {
    Message(User, Some(content), None, None, None)
  }

  /** The "k: v" lines of a context dict, in insertion order. */
  function ContextLines(context: OMap<string>): (r: seq<string>)
    ensures |r| == |context|
    ensures forall i :: 0 <= i < |context| ==> r[i] == context[i].0 + ": " + context[i].1
  {
    seq(|context|, i requires 0 <= i < |context| => context[i].0 + ": " + context[i].1)
  }

  /** The opening messages of the general and plugin agents: the system
      prompt, then a "Context:" user message when the context dict is
      non-empty (inserted at index 1), then the prompt. */
  function Opening(system: string, prompt: string, context: OMap<string>): (r: seq<Message>)
    ensures |r| == if |context| == 0 then 2 else 3
    ensures r[0] == SystemMessage(system) && r[|r| - 1] == UserMessage(prompt)
    ensures |context| > 0 ==> r[1] == UserMessage("Context:\n" + Join(ContextLines(context), "\n"))
  {
    var base := [SystemMessage(system), UserMessage(prompt)];
    if |context| == 0 then base
    else base[..1] + [UserMessage("Context:\n" + Join(ContextLines(context), "\n"))] + base[1..]
  }

  /** "Error: Tool <name> not allowed for this agent". */
  function NotAllowedText(name: string): string {
    "Error: Tool " + name + " not allowed for this agent"
  }

  /** `path.split("/")[-1] if "/" in path else path`. */
  function ShortName(path: string): (r: string)
    ensures r == AfterLast(path, '/')
    ensures '/' !in r && EndsWith(path, r)
  {
    if '/' in path then
      SplitLast(path, '/');
      Split(path, '/')[|Split(path, '/')| - 1]
    else
      AfterLastAbsent(path, '/');
      path
  }

  /** The first `n` characters, with "..." when something was cut. */
  function Shortened(s: string, n: nat): (r: string)
    ensures |s| <= n ==> r == s
    ensures |s| > n ==> |r| == n + 3 && StartsWith(r, s[..n]) && EndsWith(r, "...")
  {
    Take(s, n) + (if |s| > n then "..." else "")
  }

  /** The three file tools, whose label shows the file's last path segment. */
  predicate IsFileTool(name: string) {
    name == "read_file" || name == "write_file" || name == "edit_file"
  }

  /** The six tools whose label reads an argument. */
  predicate ReadsArgument(name: string) {
    IsFileTool(name) || name == "bash" || name == "glob" || name == "grep"
  }

  function FileHead(name: string): string {
    if name == "read_file" then "Read(" else if name == "write_file" then "Write(" else "Edit("
  }

  /** A label before it is printed: a fixed head, the value shown, and a
      fixed tail. */
  datatype Shown = Shown(head: string, value: Json, tail: string)

  /** What `_format_tool_status` (general agent) and `_format_tool_label`
      (plugin agents) compute before printing: the file's last path
      segment, the command cut to `bashCut` with "..." when it was longer,
      the whole glob pattern, the grep pattern cut to `grepCut`, or the
      title-cased name of any other tool — or the exception that reading
      the argument raised. */
  function LabelParts(name: string, args: Json, bashCut: nat, grepCut: nat): Py<Shown> {
    if IsFileTool(name) then
      var p :- Arg(args, "file_path");
      var short :- LastSegment(p);
      Success(Shown(FileHead(name), short, ")"))
    else if name == "bash" then
      var c :- Arg(args, "command");
      var cut :- Prefix(c, bashCut);
      var n := Len(c).value;
      Success(Shown("Bash(", cut, (if n > bashCut then "..." else "") + ")"))
    else if name == "glob" then
      var p :- Arg(args, "pattern");
      Success(Shown("Glob(", p, ")"))
    else if name == "grep" then
      var p :- Arg(args, "pattern");
      var cut :- Prefix(p, grepCut);
      Success(Shown("Grep(", cut, ")"))
    else Success(Shown("", JStr(Title(ReplaceAll(name, "_", " "))), ""))
  }

  /** The exception formatting a call's label raises, if any: reading the
      argument, then searching a path for "/" or cutting a command or a
      grep pattern, are the only steps that can raise. */
  function LabelError(name: string, args: Json, bashCut: nat, grepCut: nat): Option<string> {
    if IsFileTool(name) then ErrorOf(ArgSegment(args, "file_path"))
    else if name == "bash" then ErrorOf(ArgPrefix(args, "command", bashCut))
    else if name == "glob" then ErrorOf(Arg(args, "pattern"))
    else if name == "grep" then ErrorOf(ArgPrefix(args, "pattern", grepCut))
    else None
  }

  /** Computing the label raises exactly what `LabelError` says: the
      `len` of a bash command that was cut without raising cannot raise. */
  lemma LabelErrorAgrees(name: string, args: Json, bashCut: nat, grepCut: nat)
    ensures ErrorOf(LabelParts(name, args, bashCut, grepCut)) == LabelError(name, args, bashCut, grepCut)
  {
  }

  /** The status label of a tool call, printed with `show` for list and
      dict values; it raises exactly when `LabelError` says so. */
  function ToolLabel(name: string, args: Json, bashCut: nat, grepCut: nat, show: Json -> string): (r: Py<string>)
    ensures ErrorOf(r) == LabelError(name, args, bashCut, grepCut)
    ensures IsFileTool(name) && TextArg(args, "file_path") ==>
              r == Success(FileHead(name) + ShortName(ArgText(args, "file_path")) + ")")
    ensures name == "bash" && TextArg(args, "command") ==>
              var cmd := ArgText(args, "command");
              r.Success? && StartsWith(r.value, "Bash(" + Take(cmd, bashCut)) && |r.value| <= 5 + bashCut + 3 + 1
              && (|cmd| <= bashCut ==> r.value == "Bash(" + cmd + ")")
              && (|cmd| > bashCut ==> r.value == "Bash(" + cmd[..bashCut] + "...)")
    ensures name == "glob" && TextArg(args, "pattern") ==> r == Success("Glob(" + ArgText(args, "pattern") + ")")
    ensures name == "grep" && TextArg(args, "pattern") ==>
              r == Success("Grep(" + Take(ArgText(args, "pattern"), grepCut) + ")")
    ensures !ReadsArgument(name) ==> r.Success? && Lower(r.value) == Lower(ReplaceAll(name, "_", " "))
    ensures ReadsArgument(name) && !args.JObj? ==> r == Failure(NoAttribute(args, "get"))
    ensures IsFileTool(name) && args.JObj? && Field(args, "file_path").Some? && IsScalar(Field(args, "file_path").value) ==>
              r == Failure("argument of type '" + TypeName(Field(args, "file_path").value) + "' is not iterable")
    ensures (name == "bash" || name == "grep") && args.JObj?
            && Field(args, if name == "bash" then "command" else "pattern").Some?
            && IsScalar(Field(args, if name == "bash" then "command" else "pattern").value) ==>
              r == Failure("'" + TypeName(Field(args, if name == "bash" then "command" else "pattern").value)
                           + "' object is not subscriptable")
  {
    TextLabels(name, args, bashCut, grepCut, show);
    RaisingLabels(name, args, bashCut, grepCut);
    LabelErrorAgrees(name, args, bashCut, grepCut);
    Render(LabelParts(name, args, bashCut, grepCut), show)
  }

  /** The labels of calls whose arguments are text. */
  lemma TextLabels(name: string, args: Json, bashCut: nat, grepCut: nat, show: Json -> string)
    ensures var r := Render(LabelParts(name, args, bashCut, grepCut), show);
            && (IsFileTool(name) && TextArg(args, "file_path") ==>
                  r == Success(FileHead(name) + ShortName(ArgText(args, "file_path")) + ")"))
            && (name == "bash" && TextArg(args, "command") ==>
                  var cmd := ArgText(args, "command");
                  r.Success? && StartsWith(r.value, "Bash(" + Take(cmd, bashCut)) && |r.value| <= 5 + bashCut + 3 + 1
                  && (|cmd| <= bashCut ==> r.value == "Bash(" + cmd + ")")
                  && (|cmd| > bashCut ==> r.value == "Bash(" + cmd[..bashCut] + "...)"))
            && (name == "glob" && TextArg(args, "pattern") ==> r == Success("Glob(" + ArgText(args, "pattern") + ")"))
            && (name == "grep" && TextArg(args, "pattern") ==>
                  r == Success("Grep(" + Take(ArgText(args, "pattern"), grepCut) + ")"))
            && (!ReadsArgument(name) ==> r.Success? && Lower(r.value) == Lower(ReplaceAll(name, "_", " ")))
  {
    TextArgsRead(args);
    if name == "bash" {
      if TextArg(args, "command") {
        var cmd := ArgText(args, "command");
        BashShown(cmd, bashCut);
        assert LabelParts(name, args, bashCut, grepCut)
               == Success(Shown("Bash(", JStr(Take(cmd, bashCut)), (if |cmd| > bashCut then "..." else "") + ")"));
      }
    } else if !ReadsArgument(name) {
      TitleIdempotent(ReplaceAll(name, "_", " "));
    }
  }

  /** The labels that raise: arguments that are not a dict, a number,
      boolean or null where a path is searched for "/" or a text is cut. */
  lemma RaisingLabels(name: string, args: Json, bashCut: nat, grepCut: nat)
    ensures var r := LabelParts(name, args, bashCut, grepCut);
            && (ReadsArgument(name) && !args.JObj? ==> r == Failure(NoAttribute(args, "get")))
            && (IsFileTool(name) && args.JObj? && Field(args, "file_path").Some? && IsScalar(Field(args, "file_path").value) ==>
                  r == Failure("argument of type '" + TypeName(Field(args, "file_path").value) + "' is not iterable"))
            && ((name == "bash" || name == "grep") && args.JObj?
                && Field(args, if name == "bash" then "command" else "pattern").Some?
                && IsScalar(Field(args, if name == "bash" then "command" else "pattern").value) ==>
                  r == Failure("'" + TypeName(Field(args, if name == "bash" then "command" else "pattern").value)
                               + "' object is not subscriptable"))
  {
  }

  /** The label printed: head, the value as an f-string shows it, tail. */
  function Render(p: Py<Shown>, show: Json -> string): (r: Py<string>)
    ensures ErrorOf(r) == ErrorOf(p)
  {
    var s :- p;
    Success(s.head + Str(s.value, show) + s.tail)
  }

  /** The arguments the labels read, when they are text. */
  lemma TextArgsRead(args: Json)
    ensures TextArg(args, "file_path") ==> Arg(args, "file_path") == Success(JStr(ArgText(args, "file_path")))
    ensures TextArg(args, "command") ==> Arg(args, "command") == Success(JStr(ArgText(args, "command")))
    ensures TextArg(args, "pattern") ==> Arg(args, "pattern") == Success(JStr(ArgText(args, "pattern")))
  {
    if TextArg(args, "file_path") { TextArgReads(args, "file_path"); }
    if TextArg(args, "command") { TextArgReads(args, "command"); }
    if TextArg(args, "pattern") { TextArgReads(args, "pattern"); }
  }

  /** The bash label of a command: its first `n` characters, "..." when
      it was longer. */
  lemma BashShown(cmd: string, n: nat)
    ensures var t := "Bash(" + Take(cmd, n) + ((if |cmd| > n then "..." else "") + ")");
            StartsWith(t, "Bash(" + Take(cmd, n)) && |t| <= 5 + n + 3 + 1
            && (|cmd| <= n ==> t == "Bash(" + cmd + ")")
            && (|cmd| > n ==> t == "Bash(" + cmd[..n] + "...)")
  {
    var h := "Bash(" + Take(cmd, n);
    var t := h + ((if |cmd| > n then "..." else "") + ")");
    assert t[..|h|] == h;
  }

  /** The model as an agent sees it: the conversation so far and the tool
      schemas it is offered (`None` when none are passed). */
  type Chat = (seq<Message>, Option<seq<Json>>) -> ChatOutcome

  /** What an agent run depends on: the model, the tool registry with its
      handlers, and what the cancellation check at the top of round `t`
      sees. */
  datatype AgentEnv = AgentEnv(chat: Chat, reg: Registry, run: (Tool, Json) -> HandlerOutcome,
                               cancelled: nat -> bool)

  /** `registry.execute(call.name, call.arguments)`. */
  function Exec(env: AgentEnv, call: ToolCall): string {
    Execute(env.reg, call.name, call.arguments, env.run)
  }

  /** The schemas of the registered tools that `keep` selects, in
      registration order. */
  function SchemasWhere(tools: seq<Tool>, keep: string -> bool): (r: seq<Json>)
    ensures forall s :: s in r <==> exists t :: t in tools && keep(t.name) && s == ToOpenAISchema(t)
    ensures |r| <= |tools|
  {
    if |tools| == 0 then []
    else
      var rest := SchemasWhere(tools[1..], keep);
      assert forall t :: t in tools <==> t == tools[0] || t in tools[1..];
      if keep(tools[0].name) then [ToOpenAISchema(tools[0])] + rest else rest
  }

  /** The reply contents an agent collects: each truthy content, in order. */
  function Contents(replies: seq<Message>): (r: seq<string>)
    ensures |r| <= |replies|
    ensures forall x :: x in r ==> x != ""
  {
    if |replies| == 0 then []
    else (if Truthy(replies[0].content) then [replies[0].content.value] else []) + Contents(replies[1..])
  }

  /** `if response.content: full_output.append(response.content)`. */
  function Collect(out: seq<string>, reply: Message): seq<string> {
    if Truthy(reply.content) then out + [reply.content.value] else out
  }

  /** Collecting reply by reply gathers exactly the truthy contents. */
  lemma {:induction false} CollectedContents(out: seq<string>, replies: seq<Message>)
    ensures Absorbed(Collect, out, replies) == out + Contents(replies)
    decreases |replies|
  {
    if |replies| > 0 {
      CollectedContents(Collect(out, replies[0]), replies[1..]);
    }
  }

  /** One tool message per call, in call order, each answering its call. */
  function ToolMessages(calls: seq<ToolCall>, answer: ToolCall -> string): (r: seq<Message>)
    ensures |r| == |calls|
    ensures forall j :: 0 <= j < |calls| ==> r[j] == ResultMessage(calls[j], answer(calls[j]))
  {
    seq(|calls|, j requires 0 <= j < |calls| => ResultMessage(calls[j], answer(calls[j])))
  }

  /** The index of the first call whose handling raises before it is
      answered (`fails` gives the exception), or the number of calls. */
  function FirstRaising(calls: seq<ToolCall>, fails: ToolCall -> Option<string>): (i: nat)
    decreases |calls|
    ensures i <= |calls|
    ensures forall j :: 0 <= j < i ==> fails(calls[j]).None?
    ensures i < |calls| ==> fails(calls[i]).Some?
  {
    if |calls| == 0 || fails(calls[0]).Some? then 0
    else
      var k := FirstRaising(calls[1..], fails);
      assert forall j :: 1 <= j < 1 + k ==> calls[j] == calls[1..][j - 1];
      1 + k
  }

  /** A reply as far as its calls were handled: its first `n` calls. */
  function Upto(reply: Message, n: nat): (r: Message)
    requires n <= |Calls(reply)|
    ensures Calls(r) == Calls(reply)[..n] && r.content == reply.content
  {
    reply.(toolCalls := Some(Calls(reply)[..n]))
  }

  /** The messages a loop appends, read as blocks: a reply, then one tool
      message per call of that reply, in call order, with `answer`'s text.
      A block whose call raises is the last one and stops just before that
      call. */
  predicate Answered(ms: seq<Message>, answer: ToolCall -> string, fails: ToolCall -> Option<string>)
    decreases |ms|
  {
    |ms| == 0 ||
    (var cs := Calls(ms[0]);
     var i := FirstRaising(cs, fails);
     if i < |cs| then ms[1..] == ToolMessages(cs[..i], answer)
     else 1 + |cs| <= |ms| && ms[1..1 + |cs|] == ToolMessages(cs, answer) && Answered(ms[1 + |cs|..], answer, fails))
  }

  /** The exception that cut the last block short, if one did. */
  function CutBy(ms: seq<Message>, fails: ToolCall -> Option<string>): Option<string>
    decreases |ms|
  {
    if |ms| == 0 then None
    else
      var cs := Calls(ms[0]);
      var i := FirstRaising(cs, fails);
      if i < |cs| then fails(cs[i])
      else if 1 + |cs| <= |ms| then CutBy(ms[1 + |cs|..], fails)
      else None
  }

  /** Message `m` answers call `c`: a tool message with its id and tool name. */
  predicate Answers(m: Message, c: ToolCall) {
    m.role == ToolResult && m.toolCallId == Some(c.id) && m.name == Some(c.name)
  }

  /** The same block structure, saying only that every call that has a
      message after it is answered by one carrying its id, whatever the
      text. */
  predicate Paired(ms: seq<Message>)
    decreases |ms|
  {
    |ms| == 0 ||
    (var n := |Calls(ms[0])|;
     if 1 + n <= |ms| then
       (forall j :: 0 <= j < n ==> Answers(ms[1 + j], Calls(ms[0])[j])) && Paired(ms[1 + n..])
     else forall j :: 0 <= j < |ms| - 1 ==> Answers(ms[1 + j], Calls(ms[0])[j]))
  }

  /** A transcript answered with any texts pairs every call with its answer. */
  lemma {:induction false} AnsweredPaired(ms: seq<Message>, answer: ToolCall -> string, fails: ToolCall -> Option<string>)
    requires Answered(ms, answer, fails)
    ensures Paired(ms)
    decreases |ms|
  {
    if |ms| > 0 {
      var cs := Calls(ms[0]);
      var n := |cs|;
      var i := FirstRaising(cs, fails);
      if i < n {
        forall j | 0 <= j < |ms| - 1
          ensures Answers(ms[1 + j], cs[j])
        {
          assert ms[1 + j] == ms[1..][j];
        }
      } else {
        forall j | 0 <= j < n
          ensures Answers(ms[1 + j], cs[j])
        {
          assert ms[1 + j] == ms[1..1 + n][j];
        }
        AnsweredPaired(ms[1 + n..], answer, fails);
      }
    }
  }

  /** The replies of a transcript, block by block; a block cut short by a
      raising call gives the reply as far as it was handled. */
  function Replies(ms: seq<Message>): seq<Message>
    decreases |ms|
  {
    if |ms| == 0 then []
    else if 1 + |Calls(ms[0])| <= |ms| then [ms[0]] + Replies(ms[1 + |Calls(ms[0])|..])
    else [Upto(ms[0], |ms| - 1)]
  }

  /** `absorb` applied to each reply in turn. */
  function Absorbed<S>(absorb: (S, Message) -> S, st: S, replies: seq<Message>): S
    decreases |replies|
  {
    if |replies| == 0 then st else Absorbed(absorb, absorb(st, replies[0]), replies[1..])
  }

  /** How the loop stopped: a reply without tool calls (`break`), the round
      limit, a cancellation seen at the top of a round, an exception from
      the model call, or an exception from the agent's own handling of a
      tool call (its status label, its bookkeeping) before the call was
      answered. */
  datatype Stop = Replied | Exhausted | Cancelled | ChatRaised(error: string) | CallRaised(error: string)

  /** The loop's final messages, its accumulated state (the output so far,
      and for the plan agent the task board), how many model calls it made,
      and how it stopped. */
  datatype LoopEnd<S> = LoopEnd(messages: seq<Message>, state: S, calls: nat, stop: Stop)

  /** The `for turn in range(max_turns)` loop from round `turn`. `absorb`
      is what a reply does to the state (collect content, extract tasks),
      `answer` is what a tool call gets back, and `fails` is the exception
      handling a call raises before it is answered. */
  function Loop<S>(chat: seq<Message> -> ChatOutcome, cancelled: nat -> bool, absorb: (S, Message) -> S,
                   answer: ToolCall -> string, fails: ToolCall -> Option<string>, maxTurns: nat,
                   msgs: seq<Message>, st: S, turn: nat): (r: LoopEnd<S>)
    requires turn <= maxTurns
    decreases maxTurns - turn
    ensures turn <= r.calls <= maxTurns
    ensures msgs <= r.messages
    ensures forall t :: turn <= t < r.calls ==> !cancelled(t)
    ensures r.stop == Cancelled ==> r.calls < maxTurns && cancelled(r.calls)
    ensures r.stop == Exhausted ==> r.calls == maxTurns
    ensures r.stop == Replied ==> |r.messages| > |msgs| && |Calls(r.messages[|r.messages| - 1])| == 0
    ensures r.stop.ChatRaised? ==> r.calls > turn && chat(r.messages) == ChatFailed(r.stop.error)
    ensures r.stop.CallRaised? ==> r.calls > turn && |r.messages| > |msgs|
  {
    if turn == maxTurns then LoopEnd(msgs, st, turn, Exhausted)
    else if cancelled(turn) then LoopEnd(msgs, st, turn, Cancelled)
    else match chat(msgs)
      case ChatFailed(e) => LoopEnd(msgs, st, turn + 1, ChatRaised(e))
      case Got(reply) =>
        var cs := Calls(reply);
        var i := FirstRaising(cs, fails);
        if |cs| == 0 then LoopEnd(msgs + [reply], absorb(st, reply), turn + 1, Replied)
        else if i < |cs| then
          LoopEnd(msgs + [reply] + ToolMessages(cs[..i], answer), absorb(st, Upto(reply, i)), turn + 1,
                  CallRaised(fails(cs[i]).value))
        else
          var msgs1 := msgs + [reply] + ToolMessages(cs, answer);
          Loop(chat, cancelled, absorb, answer, fails, maxTurns, msgs1, absorb(st, reply), turn + 1)
  }

  /** A reply whose calls all pass, its answers and an answered rest are
      answered, and cut by what cuts the rest. */
  lemma AnsweredCons(reply: Message, rest: seq<Message>, answer: ToolCall -> string, fails: ToolCall -> Option<string>)
    requires FirstRaising(Calls(reply), fails) == |Calls(reply)|
    requires Answered(rest, answer, fails)
    ensures Answered([reply] + ToolMessages(Calls(reply), answer) + rest, answer, fails)
    ensures CutBy([reply] + ToolMessages(Calls(reply), answer) + rest, fails) == CutBy(rest, fails)
  {
    var tm := ToolMessages(Calls(reply), answer);
    var ms := [reply] + tm + rest;
    assert ms[0] == reply;
    assert ms[1..1 + |tm|] == tm;
    assert ms[1 + |tm|..] == rest;
  }

  /** The replies of a block followed by more blocks. */
  lemma RepliesCons(reply: Message, tm: seq<Message>, rest: seq<Message>)
    requires |tm| == |Calls(reply)|
    ensures Replies([reply] + tm + rest) == [reply] + Replies(rest)
  {
    var ms := [reply] + tm + rest;
    assert ms[0] == reply;
    assert ms[1 + |tm|..] == rest;
  }

  /** What the messages after `msgs` are once the loop has run. */
  function Appended<S>(chat: seq<Message> -> ChatOutcome, cancelled: nat -> bool, absorb: (S, Message) -> S,
                       answer: ToolCall -> string, fails: ToolCall -> Option<string>, maxTurns: nat,
                       msgs: seq<Message>, st: S, turn: nat): seq<Message>
    requires turn <= maxTurns
  {
    var r := Loop(chat, cancelled, absorb, answer, fails, maxTurns, msgs, st, turn);
    r.messages[|msgs|..]
  }

  /** One round whose tool calls all pass: the loop continues from the
      round's messages, and what it appends starts with that round's block. */
  lemma LoopRound<S>(chat: seq<Message> -> ChatOutcome, cancelled: nat -> bool, absorb: (S, Message) -> S,
                     answer: ToolCall -> string, fails: ToolCall -> Option<string>, maxTurns: nat,
                     msgs: seq<Message>, st: S, turn: nat)
    requires turn < maxTurns && !cancelled(turn) && chat(msgs).Got? && |Calls(chat(msgs).reply)| > 0
    requires FirstRaising(Calls(chat(msgs).reply), fails) == |Calls(chat(msgs).reply)|
    ensures var reply := chat(msgs).reply;
            var msgs1 := msgs + [reply] + ToolMessages(Calls(reply), answer);
            Loop(chat, cancelled, absorb, answer, fails, maxTurns, msgs, st, turn)
              == Loop(chat, cancelled, absorb, answer, fails, maxTurns, msgs1, absorb(st, reply), turn + 1)
            && Appended(chat, cancelled, absorb, answer, fails, maxTurns, msgs, st, turn)
              == [reply] + ToolMessages(Calls(reply), answer)
                 + Appended(chat, cancelled, absorb, answer, fails, maxTurns, msgs1, absorb(st, reply), turn + 1)
  {
    var reply := chat(msgs).reply;
    var msgs1 := msgs + [reply] + ToolMessages(Calls(reply), answer);
    var r := Loop(chat, cancelled, absorb, answer, fails, maxTurns, msgs1, absorb(st, reply), turn + 1);
    AppendedSplit(msgs, reply, ToolMessages(Calls(reply), answer), r.messages);
  }

  /** The last round: a reply without tool calls is all the loop appends. */
  lemma LoopLastRound<S>(chat: seq<Message> -> ChatOutcome, cancelled: nat -> bool, absorb: (S, Message) -> S,
                         answer: ToolCall -> string, fails: ToolCall -> Option<string>, maxTurns: nat,
                         msgs: seq<Message>, st: S, turn: nat)
    requires turn < maxTurns && !cancelled(turn) && chat(msgs).Got? && |Calls(chat(msgs).reply)| == 0
    ensures var reply := chat(msgs).reply;
            Loop(chat, cancelled, absorb, answer, fails, maxTurns, msgs, st, turn).state == absorb(st, reply)
            && Appended(chat, cancelled, absorb, answer, fails, maxTurns, msgs, st, turn) == [reply] + ToolMessages(Calls(reply), answer) + []
  {
    var r := Loop(chat, cancelled, absorb, answer, fails, maxTurns, msgs, st, turn);
    assert r.messages == msgs + [chat(msgs).reply];
  }

  /** A round whose call `i` raises: the loop ends there, with the reply
      and the answers of the calls before `i`, the reply absorbed as far as
      it was handled, and that call's exception. */
  lemma LoopRaisedRound<S>(chat: seq<Message> -> ChatOutcome, cancelled: nat -> bool, absorb: (S, Message) -> S,
                           answer: ToolCall -> string, fails: ToolCall -> Option<string>, maxTurns: nat,
                           msgs: seq<Message>, st: S, turn: nat)
    requires turn < maxTurns && !cancelled(turn) && chat(msgs).Got?
    requires FirstRaising(Calls(chat(msgs).reply), fails) < |Calls(chat(msgs).reply)|
    ensures var reply := chat(msgs).reply;
            var cs := Calls(reply);
            var i := FirstRaising(cs, fails);
            var r := Loop(chat, cancelled, absorb, answer, fails, maxTurns, msgs, st, turn);
            r.stop == CallRaised(fails(cs[i]).value) && r.state == absorb(st, Upto(reply, i)) && r.calls == turn + 1
            && Appended(chat, cancelled, absorb, answer, fails, maxTurns, msgs, st, turn) == [reply] + ToolMessages(cs[..i], answer)
  {
    var reply := chat(msgs).reply;
    var cs := Calls(reply);
    var i := FirstRaising(cs, fails);
    var r := Loop(chat, cancelled, absorb, answer, fails, maxTurns, msgs, st, turn);
    assert r.messages == msgs + [reply] + ToolMessages(cs[..i], answer);
  }

  /** What a loop appends is answered block by block, and is cut short by
      a call's exception exactly when the loop stopped on it. */
  lemma {:induction false} LoopAnswered<S>(chat: seq<Message> -> ChatOutcome, cancelled: nat -> bool, absorb: (S, Message) -> S,
                                           answer: ToolCall -> string, fails: ToolCall -> Option<string>, maxTurns: nat,
                                           msgs: seq<Message>, st: S, turn: nat)
    requires turn <= maxTurns
    decreases maxTurns - turn
    ensures Answered(Appended(chat, cancelled, absorb, answer, fails, maxTurns, msgs, st, turn), answer, fails)
    ensures var r := Loop(chat, cancelled, absorb, answer, fails, maxTurns, msgs, st, turn);
            CutBy(Appended(chat, cancelled, absorb, answer, fails, maxTurns, msgs, st, turn), fails)
              == if r.stop.CallRaised? then Some(r.stop.error) else None
  {
    if turn < maxTurns && !cancelled(turn) && chat(msgs).Got? {
      var reply := chat(msgs).reply;
      var cs := Calls(reply);
      var i := FirstRaising(cs, fails);
      if |cs| == 0 {
        LoopLastRound(chat, cancelled, absorb, answer, fails, maxTurns, msgs, st, turn);
        AnsweredCons(reply, [], answer, fails);
      } else if i < |cs| {
        LoopRaisedRound(chat, cancelled, absorb, answer, fails, maxTurns, msgs, st, turn);
        var ms := [reply] + ToolMessages(cs[..i], answer);
        assert ms[0] == reply && ms[1..] == ToolMessages(cs[..i], answer);
      } else {
        var msgs1 := msgs + [reply] + ToolMessages(cs, answer);
        LoopRound(chat, cancelled, absorb, answer, fails, maxTurns, msgs, st, turn);
        LoopAnswered(chat, cancelled, absorb, answer, fails, maxTurns, msgs1, absorb(st, reply), turn + 1);
        AnsweredCons(reply, Appended(chat, cancelled, absorb, answer, fails, maxTurns, msgs1, absorb(st, reply), turn + 1), answer, fails);
      }
    } else {
      assert Loop(chat, cancelled, absorb, answer, fails, maxTurns, msgs, st, turn).messages == msgs;
    }
  }

  /** The loop's state is the starting state with each reply absorbed in
      turn, the last one only as far as it was handled. */
  lemma {:induction false} LoopState<S>(chat: seq<Message> -> ChatOutcome, cancelled: nat -> bool, absorb: (S, Message) -> S,
                                        answer: ToolCall -> string, fails: ToolCall -> Option<string>, maxTurns: nat,
                                        msgs: seq<Message>, st: S, turn: nat)
    requires turn <= maxTurns
    decreases maxTurns - turn
    ensures Loop(chat, cancelled, absorb, answer, fails, maxTurns, msgs, st, turn).state
            == Absorbed(absorb, st, Replies(Appended(chat, cancelled, absorb, answer, fails, maxTurns, msgs, st, turn)))
  {
    if turn < maxTurns && !cancelled(turn) && chat(msgs).Got? {
      var reply := chat(msgs).reply;
      var cs := Calls(reply);
      var i := FirstRaising(cs, fails);
      var tm := ToolMessages(cs, answer);
      if |cs| == 0 {
        LoopLastRound(chat, cancelled, absorb, answer, fails, maxTurns, msgs, st, turn);
        RepliesCons(reply, tm, []);
      } else if i < |cs| {
        LoopRaisedRound(chat, cancelled, absorb, answer, fails, maxTurns, msgs, st, turn);
        var ms := [reply] + ToolMessages(cs[..i], answer);
        assert ms[0] == reply && |ms| == 1 + i;
        assert Replies(ms) == [Upto(reply, i)];
      } else {
        var msgs1 := msgs + [reply] + tm;
        LoopRound(chat, cancelled, absorb, answer, fails, maxTurns, msgs, st, turn);
        LoopState(chat, cancelled, absorb, answer, fails, maxTurns, msgs1, absorb(st, reply), turn + 1);
        RepliesCons(reply, tm, Appended(chat, cancelled, absorb, answer, fails, maxTurns, msgs1, absorb(st, reply), turn + 1));
      }
    } else {
      assert Loop(chat, cancelled, absorb, answer, fails, maxTurns, msgs, st, turn).messages == msgs;
    }
  }

  lemma AppendedSplit(msgs: seq<Message>, reply: Message, tm: seq<Message>, all: seq<Message>)
    requires msgs + [reply] + tm <= all
    ensures all[|msgs|..] == [reply] + tm + all[|msgs + [reply] + tm|..]
  {
    var m1 := msgs + [reply] + tm;
    assert all[..|m1|] == m1;
  }


}
