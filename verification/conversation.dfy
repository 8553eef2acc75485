/** The conversation log (`Conversation`) and the system prompt it opens
    with, including the active-plan-task section built from the task board.
    Reading `.grok/GROK.md` and `.grok/WORKFLOW.md`, the working directory and
    the plugin agent list are inputs (`PromptEnv`). */
module Conversation {
  import opened Wrappers
  import opened Text
  import opened OrderedMaps
  import opened Wire
  import opened Tasks

  /** What the prompt builder reads from its surroundings: the base prompt
      with the working directory already filled in, the project-agents
      section, and the two project files (`None` when missing). */
  datatype PromptEnv = PromptEnv(basePrompt: string, agentsContext: Option<string>,
                                 grokMd: Option<string>, workflowMd: Option<string>)

  /** The tasks still to do: PENDING or IN_PROGRESS, in board order. */
  function ActiveTasks(ts: seq<TaskItem>): (r: seq<TaskItem>)
    ensures forall t :: t in r <==> t in ts && (t.status == Pending || t.status == InProgress)
    ensures |r| <= |ts|
  {
    if |ts| == 0 then []
    else (if ts[0].status == Pending || ts[0].status == InProgress then [ts[0]] else []) + ActiveTasks(ts[1..])
  }

  function ActiveLine(t: TaskItem): string {
    "- " + (if t.status == InProgress then "\U{25D0}" else "\U{2610}") + " Task #" + Id(t) + ": " + t.subject
  }

  const ActiveHeader: seq<string> := ["## Active Plan Tasks", ActiveHint, ""]

  const ActiveHint: string := "Mark these complete with `task_update` as you implement them:"

  /** `_get_active_plan_tasks`. */
  function ActivePlanTasks(st: TaskStore): (r: Option<string>)
    ensures r.None? <==> |ActiveTasks(ListAll(st))| == 0
  {
    var active := ActiveTasks(ListAll(st));
    if |active| == 0 then None
    else Some(Join(ActiveHeader + ActiveLines(active), "\n"))
  }

  function ActiveLines(active: seq<TaskItem>): (r: seq<string>)
    ensures |r| == |active|
    ensures forall i :: 0 <= i < |active| ==> r[i] == ActiveLine(active[i])
  {
    seq(|active|, i requires 0 <= i < |active| => ActiveLine(active[i]))
  }

  /** The line of the `k`-th active task appears in the section text. */
  lemma {:induction false} ActiveLineInSection(active: seq<TaskItem>, k: nat)
    requires k < |active|
    ensures Contains(Join(ActiveHeader + ActiveLines(active), "\n"), ActiveLine(active[k]))
  {
    var lines := ActiveHeader + ActiveLines(active);
    assert lines[3 + k] == ActiveLine(active[k]);
    JoinContains(lines, "\n", 3 + k);
  }

  /** A pending or in-progress task on the board is listed in the context
      with its id and subject. */
  lemma ActiveTaskListed(st: TaskStore, t: TaskItem)
    requires t in Values(st.tasks) && (t.status == Pending || t.status == InProgress)
    ensures ActivePlanTasks(st).Some? && Contains(ActivePlanTasks(st).value, ActiveLine(t))
  {
    var active := ActiveTasks(ListAll(st));
    assert t in active;
    var k :| 0 <= k < |active| && active[k] == t;
    ActiveLineInSection(active, k);
  }

  lemma NoneActive(ts: seq<TaskItem>)
    requires forall i :: 0 <= i < |ts| ==> ts[i].status == Completed || ts[i].status == Deleted
    ensures ActiveTasks(ts) == []
  {
  }

  /** Once every task is completed or deleted the section disappears. */
  lemma NoActiveNoContext(st: TaskStore)
    requires forall t :: t in Values(st.tasks) ==> t.status == Completed || t.status == Deleted
    ensures ActivePlanTasks(st).None?
  {
    var ts := ListAll(st);
    assert forall i :: 0 <= i < |ts| ==> ts[i] in ts;
    NoneActive(ts);
  }

  lemma PrefixAppend(p: string, s: string, x: string)
    requires StartsWith(s, p)
    ensures StartsWith(s + x, p)
  {
    assert (s + x)[..|p|] == s[..|p|];
  }

  const ConfigHeading: string := "\n\n---\n\n## Project Configuration\n"
  const GrokHeading: string := "\n### Project Context (.grok/GROK.md)\n"
  const WorkflowHeading: string := "\n### Workflow Instructions (.grok/WORKFLOW.md)\n"

  /** The part of the prompt that does not depend on the task board: the
      base prompt, then the project agents, then the "Project Configuration"
      heading when GROK.md or WORKFLOW.md has text, then GROK.md, then
      WORKFLOW.md. Each part is there exactly when its text is non-empty. */
  function ConfiguredPrompt(env: PromptEnv): (r: string)
    ensures StartsWith(r, env.basePrompt)
    ensures !Truthy(env.agentsContext) && !Truthy(env.grokMd) && !Truthy(env.workflowMd) ==> r == env.basePrompt
    ensures Truthy(env.agentsContext) ==> Contains(r, "\n\n" + env.agentsContext.value + "\n")
    ensures Truthy(env.grokMd) || Truthy(env.workflowMd) ==> Contains(r, ConfigHeading)
    ensures Truthy(env.grokMd) ==> Contains(r, GrokHeading + env.grokMd.value + "\n")
    ensures Truthy(env.grokMd) && !Truthy(env.workflowMd) ==> EndsWith(r, GrokHeading + env.grokMd.value + "\n")
    ensures Truthy(env.workflowMd) ==> EndsWith(r, WorkflowHeading + env.workflowMd.value + "\n")
    ensures Truthy(env.grokMd) && Truthy(env.workflowMd) ==>
              EndsWith(r, GrokHeading + env.grokMd.value + "\n" + (WorkflowHeading + env.workflowMd.value + "\n"))
    ensures !Truthy(env.grokMd) && !Truthy(env.workflowMd) && Truthy(env.agentsContext) ==>
              EndsWith(r, "\n\n" + env.agentsContext.value + "\n")
  {
    var x1 := "\n\n" + env.agentsContext.GetOr("") + "\n";
    var x3 := GrokHeading + env.grokMd.GetOr("") + "\n";
    var x4 := WorkflowHeading + env.workflowMd.GetOr("") + "\n";
    var c1, c3, c4 := Truthy(env.agentsContext), Truthy(env.grokMd), Truthy(env.workflowMd);
    PartsFacts(env.basePrompt, c1, x1, c3 || c4, ConfigHeading, c3, x3, c4, x4);
    AddIf(AddIf(AddIf(AddIf(env.basePrompt, c1, x1), c3 || c4, ConfigHeading), c3, x3), c4, x4)
  }

  /** `s`, with `x` appended when `c` holds. */
  function AddIf(s: string, c: bool, x: string): string {
    if c then s + x else s
  }

  /** Four optional parts appended in turn: each one present is in the
      result, the last present one ends it, and nothing is added when none
      is present. */
  lemma PartsFacts(p0: string, c1: bool, x1: string, c2: bool, x2: string, c3: bool, x3: string,
                   c4: bool, x4: string)
    ensures var r := AddIf(AddIf(AddIf(AddIf(p0, c1, x1), c2, x2), c3, x3), c4, x4);
            && StartsWith(r, p0)
            && (!c1 && !c2 && !c3 && !c4 ==> r == p0)
            && (c1 ==> Contains(r, x1))
            && (c2 ==> Contains(r, x2))
            && (c3 ==> Contains(r, x3))
            && (c3 && !c4 ==> EndsWith(r, x3))
            && (c4 ==> EndsWith(r, x4))
            && (c3 && c4 ==> EndsWith(r, x3 + x4))
            && (c1 && !c2 && !c3 && !c4 ==> EndsWith(r, x1))
  {
    var p1 := AddIf(p0, c1, x1);
    var p2 := AddIf(p1, c2, x2);
    var p3 := AddIf(p2, c3, x3);
    var p4 := AddIf(p3, c4, x4);
    assert p0[..|p0|] == p0;
    AppendKeeps(p0, p0, c1, x1);
    AppendKeeps(p0, p1, c2, x2);
    AppendKeeps(p0, p2, c3, x3);
    AppendKeeps(p0, p3, c4, x4);
    if c1 {
      ContainsEnd(p0, x1);
      Kept(p1, c2, x2, x1);
      Kept(p2, c3, x3, x1);
      Kept(p3, c4, x4, x1);
    }
    if c2 {
      ContainsEnd(p1, x2);
      Kept(p2, c3, x3, x2);
      Kept(p3, c4, x4, x2);
    }
    if c3 {
      ContainsEnd(p2, x3);
      Kept(p3, c4, x4, x3);
    }
    if c3 && c4 {
      ConcatAssoc(p2, x3, x4);
      AppendKeeps(p0, p2, true, x3 + x4);
    }
  }

  /** An optional append keeps what the text contains. */
  lemma Kept(s: string, c: bool, y: string, x: string)
    requires Contains(s, x)
    ensures Contains(AddIf(s, c, y), x)
  {
    if c {
      ContainsExtend(s, x, y);
    }
  }

  /** Appending `x` when `c` holds keeps the prefix `p`, and the result
      ends with `x`. */
  lemma AppendKeeps(p: string, s: string, c: bool, x: string)
    requires StartsWith(s, p)
    ensures StartsWith(if c then s + x else s, p)
    ensures c ==> EndsWith(s + x, x)
  {
    assert (s + x)[..|p|] == s[..|p|];
    assert (s + x)[|s + x| - |x|..] == x;
  }

  /** `_build_system_prompt`: the configured prompt, then the active-task
      section when asked for and non-empty. */
  function BuildSystemPrompt(env: PromptEnv, st: TaskStore, includeTasks: bool): (r: string)
    ensures StartsWith(r, env.basePrompt)
    ensures includeTasks && ActivePlanTasks(st).Some? ==>
              EndsWith(r, "\n\n---\n\n" + ActivePlanTasks(st).value + "\n")
    ensures !includeTasks || ActivePlanTasks(st).None? ==> r == ConfiguredPrompt(env)
  {
    var p := ConfiguredPrompt(env);
    var ctx := if includeTasks then ActivePlanTasks(st) else None;
    if ctx.Some? then
      var tail := "\n\n---\n\n" + ctx.value + "\n";
      PrefixAppend(env.basePrompt, p, tail);
      assert (p + tail)[|p + tail| - |tail|..] == tail;
      p + tail
    else p
  }

  datatype Conversation = Conversation(messages: seq<Message>, projectFilesLoaded: seq<string>)

  function SystemMessage(content: string): Message {
    Message(System, Some(content), None, None, None)
  }

  /** `Conversation()` and `_init_system_prompt`: one system message. */
  function New(env: PromptEnv, st: TaskStore): (c: Conversation)
    ensures |c.messages| == 1 && c.messages[0].role == System
    ensures c.messages[0].content == Some(BuildSystemPrompt(env, st, true))
    ensures |c.projectFilesLoaded| <= 2
    ensures ".grok/GROK.md" in c.projectFilesLoaded <==> Truthy(env.grokMd)
    ensures ".grok/WORKFLOW.md" in c.projectFilesLoaded <==> Truthy(env.workflowMd)
  {
    Conversation([SystemMessage(BuildSystemPrompt(env, st, true))],
                 (if Truthy(env.grokMd) then [".grok/GROK.md"] else [])
                 + (if Truthy(env.workflowMd) then [".grok/WORKFLOW.md"] else []))
  }

  /** `refresh_task_context`: rebuilds message 0 when it is the system
      message; nothing else moves. */
  function RefreshTaskContext(c: Conversation, env: PromptEnv, st: TaskStore): (r: Conversation)
    ensures |r.messages| == |c.messages|
    ensures forall i :: 1 <= i < |c.messages| ==> r.messages[i] == c.messages[i]
    ensures |c.messages| > 0 && c.messages[0].role == System ==>
              r.messages[0] == SystemMessage(BuildSystemPrompt(env, st, true))
    ensures !(|c.messages| > 0 && c.messages[0].role == System) ==> r == c
    ensures r.projectFilesLoaded == c.projectFilesLoaded
  {
    if |c.messages| > 0 && c.messages[0].role == System then
      c.(messages := c.messages[0 := SystemMessage(BuildSystemPrompt(env, st, true))])
    else c
  }

  /** Appending one message: the log grows by exactly that message at the end. */
  function Append(c: Conversation, m: Message): (r: Conversation)
    ensures |r.messages| == |c.messages| + 1 && r.messages[|c.messages|] == m
    ensures r.messages[..|c.messages|] == c.messages
    ensures r.projectFilesLoaded == c.projectFilesLoaded
  {
    c.(messages := c.messages + [m])
  }

  /** `add_user_message`. */
  function AddUserMessage(c: Conversation, content: string): (r: Conversation)
    ensures r == Append(c, Message(User, Some(content), None, None, None))
    ensures Last(r).role == User
  {
    Append(c, Message(User, Some(content), None, None, None))
  }

  /** `add_assistant_message`. */
  function AddAssistantMessage(c: Conversation, content: Option<string>, toolCalls: Option<seq<ToolCall>>): (r: Conversation)
    ensures r == Append(c, Message(Assistant, content, toolCalls, None, None))
    ensures Last(r).role == Assistant
  {
    Append(c, Message(Assistant, content, toolCalls, None, None))
  }

  /** `add_tool_result`: carries the call id and tool name. */
  function AddToolResult(c: Conversation, toolCallId: string, name: string, result: string): (r: Conversation)
    ensures r == Append(c, Message(ToolResult, Some(result), None, Some(toolCallId), Some(name)))
    ensures Last(r).role == ToolResult && Last(r).toolCallId == Some(toolCallId) && Last(r).name == Some(name)
  {
    Append(c, Message(ToolResult, Some(result), None, Some(toolCallId), Some(name)))
  }

  function Last(c: Conversation): Message
    requires |c.messages| > 0
  {
    c.messages[|c.messages| - 1]
  }

  /** `clear`: back to the single system message, rebuilt from the current
      environment and tasks. */
  function Clear(c: Conversation, env: PromptEnv, st: TaskStore): (r: Conversation)
    ensures |r.messages| == 1 && r.messages[0].role == System
    ensures r.messages[0].content == Some(BuildSystemPrompt(env, st, true))
    ensures ".grok/GROK.md" in r.projectFilesLoaded <==> Truthy(env.grokMd)
    ensures ".grok/WORKFLOW.md" in r.projectFilesLoaded <==> Truthy(env.workflowMd)
  {
    New(env, st)
  }

  /** Adding messages never disturbs the system message at index 0. */
  lemma AppendKeepsSystem(c: Conversation, m: Message)
    requires |c.messages| > 0 && c.messages[0].role == System
    ensures Append(c, m).messages[0] == c.messages[0]
  {
  }
}
