# grok-code agent and tool core, in Dafny

A model of the core of grok-code, a terminal coding assistant. The
assistant talks to a Grok chat model and runs tools for it: reading,
writing and editing files, shell commands, web fetch and search, a task
board and plan mode. It also spawns sub-agents (explore, plan, general and
plugin-defined) that run their own rounds of model calls and tool calls.

Each source component is one Dafny module:

- `Wrappers`, `Text`, `OrderedMaps` and `Json` give the slice of Python the
  code relies on. That is `X | None`, the `str` methods used, and
  insertion-ordered dictionaries. JSON values are ordered objects; JSON
  text is outside the model.
- `PyValues`: what Python does with a tool call's argument when the code
  assumes it is a string but the model sent another JSON value. The value
  passes through or raises, with the exception's text.
- `Wire` and `Stream` (`client.py`): messages and tool calls on the wire,
  Server-Sent Events framing, the fold of streamed tool-call deltas, and the
  retry loop.
- `Conversation` (`conversation.py`): the message log and the system
  prompt with its active-plan-task section.
- `ToolBase` and `ToolRegistry` (`tools/base.py`, `tools/registry.py`):
  tool schemas and dispatch. Unknown tools and handler exceptions become
  error strings.
- `Tasks`, `FileOps`, `BashTool`, `WebTools`, `PlanMode` and `AgentTools`
  (`tools/`): the tools. The filesystem is a map from path to text. The
  shell, the HTTP exchange and the regular-expression matches of a page
  are inputs.
- `AgentBase`, `ExploreAgent`, `PlanAgent`, `GeneralAgent` and
  `PluginAgent` (`agents/`): the round loop of each sub-agent. The model's
  reply is a function of the message history (and the tools offered),
  and cancellation is a function of the round index. Each loop is a recursive function with a round bound.
- `AgentRunner` (`agents/runner.py`): which agent a request gives, and the
  foreground/background bookkeeping.
- `PluginLoader` and `PluginRegistry` (`plugins/`): the frontmatter parser,
  the agent, command, skill and hook definitions, and the name index.
- `MainTurn` and `History` (`main.py`): the interactive tool-calling turn
  with its line accounting and its status labels, and `/save history` /
  `/load history`. A tool call whose label or accounting raises ends the
  turn with that exception, as it ends a sub-agent's run.
- `ChatLayout` and `AgentDisplay` (`ui/chat_layout.py`, `ui/agents.py`):
  the state logic of the chat pane and of the background-agent board.

Nothing is executed: the model, the network, the shell, the clock and
random ids are parameters of the functions that need them.

Some behaviour of the code is easy to misread, and the model keeps it as
written:

- `grok_code/tools/registry.py:29-37` runs a tool with whatever arguments
  it is given. It checks no argument schema and consults no permission
  gate. Only `bash` asks for permission, and it refuses dangerous commands
  by itself (`BashTool.Execute`).
- `grok_code/tools/tasks.py:59-88` assigns any status over any other. A
  completed task can be set back to in progress
  (`Tasks.AnyTransitionAllowed`).
- `grok_code/agents/general.py:83-176` counts no spawn depth. A sub-agent
  that reaches its round limit returns what it has and reports success.
- `grok_code/agents/plan.py:35-36` offers the plan agent `write_file`
  itself. No mutating tool is swapped for a recorder.
- `grok_code/tools/file_ops.py:106` separates line numbers from text with
  "│", while `tests/test_tools.py:14` expects a tab.
- `grok_code/tools/web.py:205` slices `matches[:max_results]`, so a
  negative `max_results` drops matches from the end instead of being
  raised to zero (`WebTools.NegativeMaxDropsFromEnd`).

## Model

| member | source | states |
|---|---|---|
| Tasks.ParseStatus | grok_code/tools/tasks.py:11-15 | a status name is accepted only when it is the value of a `TaskStatus` member, and then names that member |
| Tasks.ParseStatusName | grok_code/tools/tasks.py:11-15 | every member's value parses back to that member |
| Tasks.FreshIdAbsent | grok_code/tools/tasks.py:44-46 | no id above the counter has been issued yet, so the next one is fresh |
| Tasks.Create | grok_code/tools/tasks.py:44-54 | the counter advances by one and its new value is the id, above every stored task's; the task is PENDING, and its active form is "Working on: <subject>" when none is given |
| Tasks.CreateTwiceDistinct | grok_code/tools/tasks.py:44-53 | two tasks created in a row get increasing, different ids and the first stays stored |
| Tasks.ApplyFields | grok_code/tools/tasks.py:73-86 | each given field replaces the old one, a given metadata map is merged into the old one key by key, and the `add_blocked_by`/`add_blocks` items are appended after the earlier entries |
| Tasks.Update | grok_code/tools/tasks.py:59-88 | an unknown id gives nothing and changes nothing; "deleted" removes exactly that entry and returns the task as it was, ignoring the other fields; an unknown status name fails with the store unchanged; otherwise the task is updated in place and no other task changes |
| Tasks.AnyTransitionAllowed | grok_code/tools/tasks.py:64-71 | any status can be assigned to any existing task whatever its current status: there is no transition rule |
| Tasks.ListAll | grok_code/tools/tasks.py:90-91 | the listed tasks are exactly the stored tasks that are not DELETED |
| Tasks.LiveTasksOrdered | grok_code/tools/tasks.py:90-91 | filtering out DELETED tasks keeps increasing ids increasing |
| Tasks.ListAllOrdered | grok_code/tools/tasks.py:90-91 | the list comes out in creation order |
| Tasks.Clear | grok_code/tools/tasks.py:93-95 | the store is empty and the counter is 0 |
| Tasks.ClearRestartsIds | grok_code/tools/tasks.py:44-95 | the first task created after `clear` gets id "1" |
| Tasks.UpdateToolOutcome | grok_code/tools/tasks.py:178-187 | the tool raises exactly for an invalid status name, and an unknown id gives "Error: Task #<id> not found" |
| Tasks.ListText | grok_code/tools/tasks.py:208-226 | the reply is "No tasks found" exactly when nothing is listed; otherwise it is the list line of each live task, in creation order, one per line |
| Tasks.ListTextShowsEach | grok_code/tools/tasks.py:208-226 | the listing opens with the line of the oldest live task and shows the line of every live task |
| Tasks.GetText | grok_code/tools/tasks.py:253-273 | the reply is the not-found error exactly when the id is unknown; for a known task it opens with the "Task #", "Status:" and "Description:" lines and shows the "Blocked by:", "Blocks:" and "Owner:" lines, each with its comma-joined ids or owner, when that field is non-empty |
| ToolRegistry.Empty | grok_code/tools/registry.py:10-11 | a new registry holds no tool and is keyed by name |
| ToolRegistry.Register | grok_code/tools/registry.py:13-19 | afterwards `get` of the tool's name gives this tool and every other name gives what it gave before; a new name joins the end of the listing order and a re-registered one keeps its place |
| ToolRegistry.ListTools | grok_code/tools/registry.py:21-23 | every registered tool, once each, in registration order |
| ToolRegistry.GetSchemas | grok_code/tools/registry.py:25-27 | one schema per listed tool, in the same order |
| ToolRegistry.SchemaNamesAreKeys | grok_code/tools/registry.py:25-27 | the i-th schema names the i-th registered tool |
| ToolRegistry.Execute | grok_code/tools/registry.py:29-37 | an unknown name gives "Error: Unknown tool '<name>'"; a handler's returned text comes back unchanged; a handler's exception becomes "Error executing <name>: <message>" instead of propagating |
| ToolRegistry.UnknownInvokesNothing | grok_code/tools/registry.py:31-33 | for an unknown name the answer does not depend on any handler, so none is invoked |
| ToolRegistry.ExecuteUsesOnlyOwnHandler | grok_code/tools/registry.py:31-35 | the answer depends only on the named tool's handler applied to the given arguments |
| ToolRegistry.ExecuteErrorPrefix | grok_code/tools/registry.py:32-37 | both dispatch failures produce text starting with "Error" |
| ToolRegistry.ConnectRunner | grok_code/tools/registry.py:86-92 | the named tool, when registered, gets the runner; nothing else changes and a missing tool is not created |
| ToolRegistry.SetupAgentRunner | grok_code/tools/registry.py:79-94 | `task` and `task_output` get the runner exactly when registered; every other tool and the listing order are unchanged |
| ToolBase.ToOpenAISchema | grok_code/tools/base.py:31-41 | the schema's top-level "type" is "function" and "function" holds an object |
| ToolBase.SchemaRoundTrip | grok_code/tools/base.py:31-41 | the tool's name, description and parameter object are read back unchanged from the schema |
| FileOps.MarkRead | grok_code/tools/file_ops.py:14-27 | afterwards the path has been read, and every other path is as before |
| FileOps.UnmarkRead | grok_code/tools/file_ops.py:35-42 | afterwards the path has not been read, every other path is as before, and unmarking an unread path changes nothing |
| FileOps.ClearReadFiles | grok_code/tools/file_ops.py:30-32 | afterwards no path has been read |
| FileOps.MarkUnmarkRestores | grok_code/tools/file_ops.py:14-42 | marking and then unmarking a path that was not read gives back the same read set |
| FileOps.ReadLines | grok_code/tools/file_ops.py:90-91 | applied to the text as read (newlines already translated), the lines are non-empty, every line but the last ends in a newline, none holds a newline elsewhere, and together they spell the text, so the split is the one `readlines()` makes |
| FileOps.ReadText | grok_code/tools/file_ops.py:90-91 | a file opened in text mode reads with no carriage return left, a text without one reads unchanged, and reading never lengthens it |
| FileOps.ReadTextLineEnds | grok_code/tools/file_ops.py:90-91 | a Windows line end "x\r\ny" reads as "x\ny" and an old Mac line end "a\rb" as "a\nb" |
| FileOps.ReadTextAppend | grok_code/tools/file_ops.py:90-91 | text-mode reading works piece by piece: two texts read together read as each read alone, unless the cut splits a "\r\n" |
| FileOps.ReadTextCrLf | grok_code/tools/file_ops.py:90-91 | a "\r\n" anywhere in a file reads as one "\n", with the text on each side read as usual |
| FileOps.ReadTextCr | grok_code/tools/file_ops.py:90-91 | a "\r" not followed by "\n" reads as one "\n", with the text on each side read as usual |
| FileOps.ReadTextJoinCrLf | grok_code/tools/file_ops.py:90-91 | lines without carriage returns, joined with "\r\n", read as the same lines joined with "\n" |
| FileOps.ReadTextJoinCr | grok_code/tools/file_ops.py:90-91 | lines without carriage returns, joined with "\r", read as the same lines joined with "\n" when no line after the first starts with "\n" |
| FileOps.WindowBounds | grok_code/tools/file_ops.py:97-100 | the window starts at line `offset` (from 1, or the first line), holds at most `limit` lines for a non-negative limit and runs to the end without one; a negative limit ends it that many lines before the end, and leaves it empty when that end is not past the start |
| FileOps.Numbered | grok_code/tools/file_ops.py:104-106 | one numbered line per selected line, numbered consecutively from the given first number |
| FileOps.Ascending | grok_code/tools/file_ops.py:124 | exactly the indentation widths of the set below the bound, in strictly increasing order |
| FileOps.SortedIndents | grok_code/tools/file_ops.py:112-124 | exactly the positive indentation widths of the non-blank, non-comment lines, in strictly increasing order |
| FileOps.ReadFile | grok_code/tools/file_ops.py:84-127 | a missing file gives "Error: File not found" and the read set is unchanged; otherwise the path is marked read and the file is read with its line ends translated; the reply is "(empty file)" exactly when the window is empty, else it begins with the numbered window lines |
| FileOps.NumberedLineHead | grok_code/tools/file_ops.py:106-109 | a numbered line never starts with "(", so a listing is never mistaken for "(empty file)" |
| FileOps.NumberedLineNoNewline | grok_code/tools/file_ops.py:106 | a numbered line holds no newline |
| FileOps.ListingLines | grok_code/tools/file_ops.py:100-120 | splitting the listing on newlines gives back exactly one numbered line per selected line, numbered from the offset |
| FileOps.WriteFile | grok_code/tools/file_ops.py:160-178 | an existing file that has not been read is refused with nothing changed; otherwise the file holds the content, no other file changes, the path is unmarked, and the reply gives the length written |
| FileOps.FirstLineWith | grok_code/tools/file_ops.py:258-270 | the first line from the start index that contains the needle, or none when no line does |
| FileOps.EditFile | grok_code/tools/file_ops.py:233-294 | a missing file, an unread file, text not found in the file as read (line ends translated), or several matches without replace_all each give their error and change nothing; otherwise the first match (or every match with replace_all) is replaced in the text as read, the path is unmarked, and the reply gives the count replaced |
| FileOps.EditRead | grok_code/tools/file_ops.py:251-292 | once the file exists and was read, and on its text as read: not found and too many matches are refused unchanged; otherwise the replacement is stored and the read is forgotten |
| FileOps.CrlfOldTextNotFound | grok_code/tools/file_ops.py:246-252 | in a file holding "x\r\ny", an old string "x\r\ny" is not found, because the file reads as "x\ny" |
| FileOps.SingleEditIsReplaceAll | grok_code/tools/file_ops.py:274-285 | with a single match in the text as read, replacing the first occurrence and replacing all give the same file |
| FileOps.ReplaceAllEditLength | grok_code/tools/file_ops.py:280-282 | replace_all changes the length of the text as read by the match count times the length difference |
| FileOps.ModificationNeedsFreshRead | grok_code/tools/file_ops.py:165-292 | right after a successful write, a second write and an edit of the same path are both refused for want of a read |
| FileOps.ReadEnablesWrite | grok_code/tools/file_ops.py:89-176 | after reading a file, writing it goes through |
| Conversation.ActiveTasks | grok_code/conversation.py:79-82 | exactly the listed tasks that are PENDING or IN_PROGRESS |
| Conversation.ActivePlanTasks | grok_code/conversation.py:71-98 | there is no task section exactly when no listed task is PENDING or IN_PROGRESS |
| Conversation.ActiveTaskListed | grok_code/conversation.py:80-96 | every pending or in-progress task on the board appears in the section as its "- <icon> Task #<id>: <subject>" line |
| Conversation.NoActiveNoContext | grok_code/conversation.py:84-85 | once every task is completed or deleted the section disappears |
| Conversation.ConfiguredPrompt | grok_code/conversation.py:121-141 | the prompt begins with the base system prompt and is exactly it when there are no project agents, GROK.md or WORKFLOW.md; the agents context, the "Project Configuration" heading (when GROK.md or WORKFLOW.md has text), the GROK.md section and the WORKFLOW.md section each appear when their text is non-empty; and the WORKFLOW.md section ends the prompt, after the GROK.md section when both are present |
| Conversation.BuildSystemPrompt | grok_code/conversation.py:121-149 | the configured prompt, followed by the task section only when tasks are asked for and the section exists |
| Conversation.New | grok_code/conversation.py:155-171 | a new log holds exactly one message, a system message carrying the prompt with tasks; each project file is recorded as loaded exactly when it has content |
| Conversation.RefreshTaskContext | grok_code/conversation.py:173-178 | only message 0 is rebuilt, only when it is a system message; the length and every later message stay as they were |
| Conversation.Append | grok_code/conversation.py:185-199 | the log grows by exactly the new message at its end, earlier messages untouched |
| Conversation.AddUserMessage | grok_code/conversation.py:185-187 | one user message is appended at the end |
| Conversation.AddAssistantMessage | grok_code/conversation.py:189-193 | one assistant message, with its tool calls, is appended at the end |
| Conversation.AddToolResult | grok_code/conversation.py:195-199 | one tool message is appended at the end, carrying the call id and the tool name |
| Conversation.Clear | grok_code/conversation.py:205-208 | exactly one message remains, a system message carrying the prompt rebuilt from the current environment and tasks, and the project files count as loaded exactly when they are present |
| Conversation.AppendKeepsSystem | grok_code/conversation.py:185-199 | appending never disturbs the system message at index 0 |
| Wire.ParseRole | grok_code/client.py:49 | a role string is accepted only as the name of one of the four roles |
| Wire.ParseRoleName | grok_code/client.py:49 | every role's name reads back as that role |
| Wire.CallsToDicts | grok_code/client.py:60-68 | one serialized entry per tool call, in call order |
| Wire.ToDict | grok_code/client.py:55-73 | the serialized message is a JSON object |
| Wire.ToDictFields | grok_code/client.py:55-73 | "role" is always present; "content" exactly when content is not None; "tool_calls" exactly when the list is non-empty; "tool_call_id" and "name" exactly when non-empty; no other key |
| Wire.CallRoundTrip | grok_code/client.py:61-67 | a serialized call has type "function" and gives back its id, name and arguments when the JSON decoder inverts the encoder |
| Wire.CallsRoundTrip | grok_code/client.py:60-68 | the serialized list gives back the calls, in order |
| Wire.CallsBackOfToDict | grok_code/client.py:60-68 | the tool calls read back from a serialized message are the message's, with an empty list read as absent |
| Wire.StrFieldsOfToDict | grok_code/client.py:57-72 | the role, content, call id and name read back from a serialized message are the message's, with omitted empty values read as absent |
| Wire.DictRoundTrip | grok_code/client.py:55-73 | serializing and reading back gives the message, up to the empty values `to_dict` omits |
| Stream.Classify | grok_code/client.py:172-177 | a line without the "data: " prefix is ignored, "data: [DONE]" stops the stream, and any other data line carries its payload |
| Stream.ChunksAppend | grok_code/client.py:172-182 | before "[DONE]" the stream is read line by line: the chunks of two runs of lines laid end to end are the chunks of each, in order |
| Stream.IgnorableLine | grok_code/client.py:173-182 | a line without the prefix, or whose payload does not decode, can be removed without any effect |
| Stream.DoneStops | grok_code/client.py:176-177 | nothing after "data: [DONE]" is read |
| Stream.Fragments | grok_code/client.py:188-192 | the content fragments passed on are the non-empty ones, in order |
| Stream.Upsert | grok_code/client.py:198-209 | storing under an index keeps the accumulator sorted by index, sets that index, and leaves every other index as it was |
| Stream.MergeDelta | grok_code/client.py:196-209 | merging one delta keeps the accumulator sorted by index |
| Stream.MergeAll | grok_code/client.py:195-215 | the fold over all deltas keeps the accumulator in strictly ascending index order, which is the order the calls are assembled in |
| Stream.MergeAllSpec | grok_code/client.py:196-209 | an index has an entry exactly when some delta names it; its id and name are the last non-empty ones sent, and its arguments are all its fragments concatenated in arrival order |
| Stream.Assemble | grok_code/client.py:212-227 | one tool call per index, in index order, with its id and name; empty or undecodable arguments become `{}` |
| Stream.Reply | grok_code/client.py:229-233 | an assistant message; content is None exactly when nothing was streamed, and tool calls are None exactly when no delta came |
| Stream.RunFrom | grok_code/client.py:163-252 | from attempt n, at least one and at most `max_retries + 1 - n` attempts are made, and a second attempt follows only a dropped connection |
| Stream.ChatStream | grok_code/client.py:163-252 | at most `max_retries + 1` attempts are made, and none when `max_retries` is negative |
| Stream.AttemptsBounded | grok_code/client.py:163 | only attempts 0 to `max_retries` are ever made |
| Stream.FirstSuccess | grok_code/client.py:163-233 | a first attempt that completes is the answer, and no other attempt is made |
| Stream.FinalDrop | grok_code/client.py:235-252 | when the last attempt drops, partial content is returned with the interruption note and no tool calls, and with no content the error names the attempt count and the last connection error |
| Stream.EscapeEndsRun | grok_code/client.py:163-252 | an exception outside the retried three (an HTTP error status, an empty "choices" list, a tool-call delta without "index") ends the run at that attempt with that exception, and no later attempt is made |
| Stream.ContentIsShownFragments | grok_code/client.py:188-233 | the reply's content is exactly the fragments shown, concatenated |
| AgentBase.ParseAgentType | grok_code/agents/base.py:20-25 | a type name is accepted exactly when it is one of explore, plan, general, bash, and then names the member with that value |
| AgentBase.ParseTypeValue | grok_code/agents/base.py:20-25 | every agent type's value parses back to that type |
| AgentBase.NewResult | grok_code/agents/base.py:28-36 | a result built from the four required fields carries them, with no error and empty metadata |
| AgentBase.FailedResult | grok_code/agents/base.py:28-36 | a failed result is unsuccessful and carries its error text and output |
| AgentBase.NewAgent | grok_code/agents/base.py:42-44 | a new agent is not cancelled; a non-empty id is kept, otherwise the id is the first 8 characters of a fresh UUID |
| AgentBase.Cancel | grok_code/agents/base.py:69-76 | after cancelling, the agent reports itself cancelled and keeps its id |
| AgentBase.CancelIdempotent | grok_code/agents/base.py:69-76 | cancelling twice is cancelling once, and the flag stays set |
| AgentBase.ContextLines | grok_code/agents/general.py:71-73 | one "key: value" line per context entry, in insertion order |
| AgentBase.Opening | grok_code/agents/general.py:62-73 | the conversation opens with the system prompt and ends with the user prompt, with a "Context:" message between them exactly when a context was given; the same opening is built at grok_code/agents/plugin_agent.py:75-82 |
| AgentBase.ShortName | grok_code/agents/explore.py:91 | the short name is the part after the last "/", contains no "/", and ends the path |
| AgentBase.Shortened | grok_code/agents/general.py:178-201 | text within the limit is shown whole; longer text is cut to the limit and marked with "..." |
| AgentBase.ToolLabel | grok_code/agents/general.py:178-201 | the label raises exactly when reading the argument, searching a path for "/" or cutting a command or grep pattern raises: arguments that are not a dict, a scalar path and a scalar command or pattern raise with Python's texts; with text arguments, file tools are labelled with the file's short name, bash with its command cut to the agent's limit, glob with the whole pattern, grep with its pattern cut; other tools with their name spaced out; the plugin agent repeats it at grok_code/agents/plugin_agent.py:45-67 |
| AgentBase.SchemasWhere | grok_code/agents/explore.py:55-57 | a schema is offered exactly when it belongs to a registered tool the agent allows, and no more schemas than tools are offered |
| AgentBase.Contents | grok_code/agents/explore.py:76-77 | the collected output holds no empty piece and no more pieces than replies |
| AgentBase.CollectedContents | grok_code/agents/explore.py:60-77 | collecting reply by reply yields the earlier output followed by exactly the non-empty reply contents, in order |
| AgentBase.ToolMessages | grok_code/agents/explore.py:83-110 | each tool call gets exactly one tool message, in call order, carrying that call's id, name and result |
| AgentBase.FirstRaising | grok_code/agents/explore.py:83-110 | the calls are handled in order up to the first whose handling raises: every call before that index raises nothing, and the call at it raises |
| AgentBase.AnsweredPaired | grok_code/agents/explore.py:73-110 | in a transcript built round by round, every tool call of a reply is followed by a message answering that call |
| AgentBase.Loop | grok_code/agents/explore.py:59-110 | the loop makes at most max_turns model calls and never drops a message; it stops on cancellation only when the flag is seen at the top of a round, on exhaustion only after max_turns calls, on a reply only when that reply has no tool calls, on a model error only when the model call failed on the final transcript, and on a call's exception only after a model call that added messages |
| AgentBase.LoopRound | grok_code/agents/explore.py:73-110 | a round with tool calls appends the reply and its answers and continues with the next round |
| AgentBase.LoopLastRound | grok_code/agents/explore.py:73-80 | a reply without tool calls is the last thing the loop appends |
| AgentBase.LoopRaisedRound | grok_code/agents/explore.py:83-110 | a round whose call raises ends the loop after that model call, with the reply and the answers of the calls before it appended, the reply absorbed up to that call, and the call's exception |
| AgentBase.LoopAnswered | grok_code/agents/explore.py:62-110 | everything the loop appends is made of reply blocks whose tool calls are answered in order up to the first that raises; the last block is cut short by a call's exception exactly when the loop stopped on it, with that exception |
| AgentBase.LoopState | grok_code/agents/explore.py:60-77 | the state the loop ends with is the start state with every reply it received absorbed in order |
| ExploreAgent.OfferedTools | grok_code/agents/explore.py:30-57 | a schema is offered exactly when it belongs to a registered tool among read_file, glob and grep |
| ExploreAgent.CallError | grok_code/agents/explore.py:83-93 | only the three allowed tools' status reads an argument, so any other call raises nothing; arguments that are not a dict raise the missing-`get` error; a glob call raises only then; a text grep pattern or read path raises nothing, a scalar grep pattern is not subscriptable, and a scalar read path is not iterable |
| ExploreAgent.Answer | grok_code/agents/explore.py:98-101 | a call outside the allow-list gets the not-allowed error; any other call gets the registry's answer |
| ExploreAgent.RefusedCallRunsNothing | grok_code/agents/explore.py:98-101 | a refused call's answer does not depend on the registry or its handlers, and is an error text |
| ExploreAgent.Run | grok_code/agents/explore.py:50-117 | at most ten model calls; the transcript keeps the opening and answers every tool call in order up to the first whose status raises; a failed result means the flag was seen and carries the joined output so far; a successful result carries the joined reply contents, or the fixed message when there were none; a run cut short by a call's status crashes with that call's exception, and any other crash is a model call that failed on the final transcript |
| ExploreAgent.CancelledBeforeFirstRound | grok_code/agents/explore.py:62-70 | cancelled before the first round, the agent makes no model call and fails with empty output |
| ExploreAgent.PlainFirstReply | grok_code/agents/explore.py:73-117 | a first reply without tool calls ends the run after one call, successfully, with that reply's content or the fixed message |
| PlanAgent.Checkboxes | grok_code/agents/plan.py:201-203 | every capture is a non-empty piece of one line that follows "- [ ] " somewhere in the text |
| PlanAgent.CheckboxLine | grok_code/agents/plan.py:202-203 | a checkbox line ending in a newline yields its text, and matching resumes after that newline |
| PlanAgent.ChecklistRoundTrip | grok_code/agents/plan.py:202-203 | a checklist written item by item is read back as exactly those items, in order |
| PlanAgent.NewPlanTask | grok_code/agents/plan.py:209-213 | a new subject becomes a pending task with the "Plan task:" description and the active form cut to 40 characters, under a fresh id, with every earlier task kept |
| PlanAgent.Stripped | grok_code/agents/plan.py:205-206 | each capture is stripped of surrounding whitespace, one for one |
| PlanAgent.NewSubjectsFresh | grok_code/agents/plan.py:207 | only non-empty subjects the agent had not yet made are added |
| PlanAgent.NewSubjectsDistinct | grok_code/agents/plan.py:207-214 | the agent's subjects stay free of duplicates |
| PlanAgent.NewSubjectsCover | grok_code/agents/plan.py:205-214 | every non-empty subject is among the agent's subjects afterwards |
| PlanAgent.CreateAll | grok_code/agents/plan.py:205-214 | one task is created per new subject, and the tasks already on the board are unchanged |
| PlanAgent.CreatedSubjectHasTask | grok_code/agents/plan.py:209-213 | every new subject is on the board afterwards as a pending task with its "Plan task:" description |
| PlanAgent.AddSubjects | grok_code/agents/plan.py:205-214 | the agent's subjects grow by exactly the new ones, the counter by their number, and earlier tasks are kept |
| PlanAgent.CheckboxBecomesTask | grok_code/agents/plan.py:199-214 | each checkbox whose text is not blank ends up among the agent's subjects, and as a task on the board when it is new to this agent |
| PlanAgent.ExtractFromWrites | grok_code/agents/plan.py:151-157 | scanning the write_file contents keeps the output, only adds subjects, keeps them distinct and keeps the earlier tasks |
| PlanAgent.Absorb | grok_code/agents/plan.py:132-157 | a reply's content is collected; the agent's subjects only grow and stay distinct, and the earlier tasks are kept; a reply is absorbed only up to its first raising call, so every write it scans has text content |
| PlanAgent.Answer | grok_code/agents/plan.py:163-166 | a call outside the allow-list gets the not-allowed error; any other call gets the registry's answer |
| PlanAgent.CallError | grok_code/agents/plan.py:141-160 | only the allowed tools' status reads an argument; arguments that are not a dict raise the missing-`get` error; a glob call raises only then; text grep, read and write arguments raise nothing; a write raises nothing only when its content is text, and a non-string content raises the `re.findall` TypeError |
| PlanAgent.RefusedCallRunsNothing | grok_code/agents/plan.py:163-166 | a refused call's answer does not depend on the registry or its handlers |
| PlanAgent.OfferedTools | grok_code/agents/plan.py:35-112 | a schema is offered exactly when it belongs to a registered tool among read_file, glob, grep and write_file |
| PlanAgent.PlanTaskLinesContain | grok_code/agents/plan.py:184-187 | every listed task whose subject the agent made has its line in the task section |
| PlanAgent.FinalOutput | grok_code/agents/plan.py:196 | the final output is never empty |
| PlanAgent.AssembleKeepsLines | grok_code/agents/plan.py:178-190 | whatever is in the task section is in the final text, after the collected text and the heading |
| PlanAgent.PlanTaskReported | grok_code/agents/plan.py:181-187 | every task on the board whose subject the agent made is reported by its `@@PLAN_TASK@@ id\|status\|subject` line |
| PlanAgent.NothingPlanned | grok_code/agents/plan.py:178-196 | with nothing collected, no tasks and no plan file, the output is "Planning complete." |
| PlanAgent.Run | grok_code/agents/plan.py:105-197 | at most fifteen model calls; the transcript keeps the opening and answers every tool call in order up to the first whose status or task extraction raises; a failure means the cancel flag was seen at the top of the next round; a run cut short by a call crashes with that call's exception, and any other crash is a model call that failed on the final transcript |
| PlanAgent.Outcome | grok_code/agents/plan.py:118-197 | a failed result only on cancellation, with the joined output; a crash exactly when a model call or a call's status raised, with that exception; success otherwise, with the final output |
| PlanAgent.RunReport | grok_code/agents/plan.py:118-197 | a cancelled run reports the joined reply contents; a successful one the final output built from them and the board; the board's earlier tasks are untouched and the agent's subjects are distinct |
| PlanAgent.AbsorbedOut | grok_code/agents/plan.py:132-133 | the plan agent collects reply contents exactly as the explore agent does |
| PlanAgent.AbsorbedKeepsTasks | grok_code/agents/plan.py:118-175 | any run of replies keeps the earlier tasks, only grows the agent's subjects and keeps them distinct |
| PlanAgent.KeepWordsAndSpaces | grok_code/agents/plan.py:41 | only word characters and whitespace remain |
| PlanAgent.Words | grok_code/agents/plan.py:41 | each word is a non-empty run of the text's characters without whitespace |
| PlanAgent.Keywords | grok_code/agents/plan.py:43 | a word is a keyword exactly when it is longer than two characters and not a stopword |
| PlanAgent.PromptKeywordsShape | grok_code/agents/plan.py:41-43 | a prompt's keywords are lower-case word characters, longer than two and not stopwords |
| PlanAgent.SlugOfSplits | grok_code/agents/plan.py:44 | keywords joined by "-" split back into the same keywords |
| PlanAgent.SlugKeywords | grok_code/agents/plan.py:41-46 | the slug is "plan" when the prompt has no keyword; otherwise it splits back into the first one to three keywords |
| PluginAgent.TypeOf | grok_code/agents/plugin_agent.py:22-31 | a plugin agent is never a bash agent; it is an explore agent exactly when its lower-cased name contains "explore", a plan agent exactly when it does not but contains "plan" or "architect", and a general agent otherwise |
| PluginAgent.TypeOfIgnoresCase | grok_code/agents/plugin_agent.py:25 | the kind does not depend on the name's capitalization |
| PluginAgent.SystemPrompt | grok_code/agents/plugin_agent.py:41-43 | the system prompt is the shared rules, the separator, then the definition's prompt, each at its own place |
| PluginAgent.SystemPromptInjective | grok_code/agents/plugin_agent.py:41-43 | different definition prompts never give the same system prompt |
| PluginAgent.LoweredAll | grok_code/agents/plugin_agent.py:88 | one lower-cased name per listed tool, in order |
| PluginAgent.OfferedTools | grok_code/agents/plugin_agent.py:84-89 | nothing is offered when the definition lists no tools; otherwise a schema is offered exactly when its tool's name matches a listed name ignoring case |
| PluginAgent.OfferedIgnoresCase | grok_code/agents/plugin_agent.py:86-89 | a registered tool is offered exactly when some listed name equals its name ignoring case |
| PluginAgent.ToolsArg | grok_code/agents/plugin_agent.py:109 | an empty selection passes no tool list at all; a non-empty one is passed as is |
| PluginAgent.UnlistedToolStillRuns | grok_code/agents/plugin_agent.py:119-130 | a call to a tool the definition does not list is executed by the registry all the same |
| PluginAgent.CallError | grok_code/agents/plugin_agent.py:45-67 | a call raises exactly what its status label raises at the plugin agent's cuts: nothing for a tool whose label reads no argument, and the missing-`get` error when the arguments are not a dict |
| PluginAgent.LinesJoin | grok_code/agents/plugin_agent.py:112-113 | the output is the contents joined by newlines plus one final newline |
| PluginAgent.Outcome | grok_code/agents/plugin_agent.py:97-157 | the run always finishes with a result: success exactly when the loop ended on a reply or ran out of rounds; a cancellation, a failed model call or a call whose status label raised gives a failure with that error and the output gathered so far, and success gives the stripped output |
| PluginAgent.Run | grok_code/agents/plugin_agent.py:69-157 | at most twenty model calls; the transcript keeps the opening and answers every call in order up to the first whose status label raises; the result carries the collected output; a run cut short by a label fails with that label's exception; any failure is a cancellation seen at the top of a round, a model call that failed on the final transcript, or such a label; a success before the last round ends on a reply without tool calls |
| PluginAgent.CancelledBeforeFirstRound | grok_code/agents/plugin_agent.py:96-104 | cancelled before the first round, the agent makes no model call and fails with empty output |
| PluginAgent.FirstChatFails | grok_code/agents/plugin_agent.py:106-150 | a model call failing on the first round gives a failed result carrying the error and empty output |
| PluginAgent.StatusLabel | grok_code/agents/plugin_agent.py:45-123 | the label raises exactly what the call's handling raises; a bash label shows a text command whole when it is at most 40 characters and cut to 40 otherwise; a grep label shows a text pattern cut to 30 |
| GeneralAgent.SystemPrompt | grok_code/agents/general.py:62-63 | the system prompt starts with the shared rules and the role, and ends with the working-directory line |
| GeneralAgent.ModifiedPath | grok_code/agents/general.py:121-125 | a call names a modified file exactly when it is an edit_file or write_file call with a non-empty file_path, and then that path is the one named |
| GeneralAgent.CallErrorCases | grok_code/agents/general.py:116-130 | a call's handling raises first what its status label raises; a call whose label reads no argument and that is no task_update raises nothing; a task_update raises exactly when its arguments are not a dict, for the missing `get` |
| GeneralAgent.PathErrorCases | grok_code/agents/general.py:116-125 | an edit or write with a text path raises nothing, and one with a non-empty list path that the label accepts raises the unhashable-type error when it is tracked |
| GeneralAgent.TrackedPath | grok_code/agents/general.py:121-125 | for an edit or write whose handling raises nothing, the path read is tracked exactly when it is truthy, and then it is the string the model tracks |
| GeneralAgent.Track | grok_code/agents/general.py:121-125 | a call naming a modified file adds exactly that path; any other call leaves the set as it was |
| GeneralAgent.Answer | grok_code/agents/general.py:127-160 | a completing task_update is refused with the no-files text while nothing was modified and with the syntax-error text while validation fails; every other call, and a completion on valid files, goes to the registry |
| GeneralAgent.InterceptedCompletionRunsNothing | grok_code/agents/general.py:128-158 | an intercepted completion's answer does not depend on the registry or its handlers and starts with the refusal text |
| GeneralAgent.HandledShape | grok_code/agents/general.py:115-169 | the calls of a reply are answered one message each, in call order, up to the first whose handling raises, and the handling reports that call's exception, or none when every call was answered |
| GeneralAgent.HandledFiles | grok_code/agents/general.py:121-125 | after a reply's calls, a path is recorded exactly when it was recorded before or some call handled before the first raising one names it |
| GeneralAgent.HandledAnswer | grok_code/agents/general.py:121-160 | each call before the first raising one is answered at its own point in the round with the files recorded before the reply plus those named by the calls up to and including itself |
| GeneralAgent.Next | grok_code/agents/general.py:96-169 | a round that goes on keeps every earlier message, appends the reply and only adds recorded files |
| GeneralAgent.Rounds | grok_code/agents/general.py:83-169 | at most thirty model calls; messages, output and files only grow; a cancelled stop is at a round below thirty whose cancellation check fired, and an exhausted one after thirty model calls; the loop ends on a reply only when it appended one without calls and the modified files are none or pass validation at that point of the run |
| GeneralAgent.RoundsUncancelled | grok_code/agents/general.py:84-96 | no round the loop played was cancelled: cancellation is looked at only at the top of a round and stops the loop there |
| GeneralAgent.RoundsRaised | grok_code/agents/general.py:96-169 | the loop stops on a model error only after calling the model, and only when the model call failed on the final transcript; on a call's exception only after a model call that added messages |
| GeneralAgent.RoundsEnds | grok_code/agents/general.py:96-169 | a round that does not go on either stops without a reply, leaving messages and output as they were, after one more model call exactly when the model was called (and then a model error is that call's failure on those messages), or ends on a reply after one more model call: one without calls is appended and ends the loop, and one with calls ends it only because a call raised, with that call's exception |
| GeneralAgent.StopThenFinish | grok_code/agents/general.py:101-111 | a final reply while the modified files fail validation gets the STOP message; when the files pass on the next round, after a fix, a final reply there ends the loop with that reply |
| GeneralAgent.RoundsOutput | grok_code/agents/general.py:98-99 | every output piece the loop collects is a non-empty reply content |
| GeneralAgent.RoundsBlocks | grok_code/agents/general.py:96-169 | what the loop appends is made of replies each followed by one answer per call in order, or by the STOP user message when it has no calls; only the last block can be cut short, at its first raising call, and it is exactly when the loop stopped on that call's exception |
| GeneralAgent.CancelCheck | grok_code/agents/general.py:84 | a round stops when the agent's own flag is set or the cancel callback says so |
| GeneralAgent.Outcome | grok_code/agents/general.py:84-176 | a crash exactly when a model call or a call's handling raised, with that exception; a failure only on cancellation, with the joined output; success otherwise, with the joined output or "Task complete.", never empty |
| GeneralAgent.Run | grok_code/agents/general.py:65-176 | at most thirty model calls; the transcript starts with the opening and what follows has the block shape; the agent ends up cancelled exactly when it was already or the run failed; an agent cancelled beforehand makes no call; a failure means the flag or callback was seen at the top of a round; success always has a non-empty output; a run cut short by a call crashes with that call's exception, and any other crash is a model call that failed on the final transcript |
| GeneralAgent.ExhaustedStillSucceeds | grok_code/agents/general.py:101-176 | a run that uses all thirty rounds reports success, even when its last reply drew the STOP message |
| GeneralAgent.StatusLabel | grok_code/agents/general.py:178-198 | a label that raises raises the call's handling error; a bash label shows a text command whole when it is at most 30 characters and cut to 30 otherwise; a grep label shows a text pattern cut to 20 |
| MainTurn.Account | grok_code/main.py:252-294 | only a successful edit or write and any read_file reach the accounting, and every other call leaves it as it was; a read with a text path changes nothing; the counts never shrink |
| MainTurn.AccountCounts | grok_code/main.py:252-294 | with text arguments, a successful edit adds its path and counts the new text's lines as added and the old text's as removed, and a successful write adds its path and its content's lines |
| MainTurn.AccountRaises | grok_code/main.py:252-294 | the accounting raises the missing-`get` error for a file tool whose arguments are not a dict, the not-iterable error for a read whose path is a number, boolean or null, and the unhashable-type error for an edit or write whose path is a list or dict |
| MainTurn.SingleLineEditCounts | grok_code/main.py:252-261 | a successful one-line replacement with text arguments counts one line removed and one added |
| MainTurn.RunCalls | grok_code/main.py:231-303 | the calls run in order until an interruption is seen before one or one's label or accounting raises; a raise stops the loop at that call with that call's exception, an early stop without a raise follows a set interrupt flag, every call that ran raised nothing, and the log gains one result message per call that ran, in call order |
| MainTurn.Round | grok_code/main.py:186-303 | an interruption before or after the model call ends the loop with the log unchanged; a failed model call leaves it unchanged; a reply without calls is appended and ends the loop; a reply with calls is appended with the results of the calls run before any interruption or raise, the loop goes on exactly when all ran, and a raise ends the round with the exception of the first call not answered |
| MainTurn.Rounds | grok_code/main.py:186-303 | the loop only appends to the log and keeps the project-files flag |
| MainTurn.TurnLoop | grok_code/main.py:178-303 | after the task context is refreshed only the system message may change, and the rest of the log is kept and extended |
| MainTurn.TurnLoopAddsNoUser | grok_code/main.py:178-303 | the loop of a turn adds assistant replies and tool results, never a user message |
| MainTurn.RunTurn | grok_code/main.py:169-317 | a turn never loses a message but the refreshed system prompt; the messages still queued are the tail of the queue it was given, and the user messages it added are the non-empty queued messages before that tail, in queue order |
| MainTurn.Drain | grok_code/main.py:309-317 | draining keeps the log's earlier messages; what stays queued is a tail of the queue, and each non-empty message before it became a user message, in queue order, with empty ones dropped |
| MainTurn.PlainReplyEndsTurn | grok_code/main.py:221-228 | a reply with no tool calls ends the loop after one round with that reply as the only new message |
| MainTurn.CallsAnsweredInOrder | grok_code/main.py:231-303 | without an interruption the calls of a reply run up to the first one whose label or accounting raises: each call before it is answered in call order, the loop stops at it with its exception, and when none raises every call is answered |
| MainTurn.InterruptLeavesRestUnanswered | grok_code/main.py:232-239 | an interruption before the first call leaves the log as it was and every call unanswered, with nothing raised |
| MainTurn.UnknownToolAnswered | grok_code/main.py:231-303 | a call to an unregistered tool raises exactly what its label or accounting raises; when nothing is raised it is answered with the unknown-tool error and the loop goes on; the unknown-tool text comes from grok_code/tools/registry.py |
| MainTurn.DrainSkipsEmpty | grok_code/main.py:310-313 | empty queued messages are dropped without a turn and without changing the log |
| MainTurn.Truncate | grok_code/main.py:156-160 | a text within the limit is kept; a longer one is cut to exactly the limit, keeping its start and ending in "..." |
| MainTurn.TruncateValue | grok_code/main.py:156-160 | a string argument is truncated as text; `len` raises for None, booleans and numbers; a short list or dict passes through; a longer list fails to concatenate with "...", and a longer dict raises the KeyError of its slice |
| MainTurn.ShortPath | grok_code/main.py:147-154 | an empty path stays empty, and a path of at most two segments is kept |
| MainTurn.ShortPathSuffix | grok_code/main.py:151-153 | a longer path is shown as ".../" followed by an end piece of the path itself |
| MainTurn.ShortPathValue | grok_code/main.py:147-154 | a falsy argument gives "", a string is shortened, and any other truthy value raises for the missing `split` |
| MainTurn.FormatTool | grok_code/main.py:128-145 | the label raises exactly when the formatter's reads, path shortening or truncation do; a tool without a formatter is labelled by its name; with text arguments the file tools show the verb and shortened path, bash the command cut to 50, glob the whole pattern, grep the pattern cut to 30, search and fetch the query and URL cut to 40, and a task its agent type, or "agent" when none is given, with its prompt cut to 30 |
| History.Shown | grok_code/main.py:748 | a message is written with its own content when that is non-empty, and never as an empty line |
| History.Flush | grok_code/main.py:826-866 | an open section with collected lines becomes one user or assistant message whose text is the lines joined and stripped; otherwise nothing is added |
| History.StepWith | grok_code/main.py:823-854 | in the corrected parser, a section title other than USER or ASSISTANT closes the open section |
| History.Load | grok_code/main.py:813-866 | in the program's parse and in the corrected one alike, only user and assistant messages come back, each with content and without tool calls |
| History.Restore | grok_code/main.py:812-869 | the file is parsed as `read_text` returns it, with line endings made "\n"; the conversation is the fresh system prompt followed by exactly the parsed messages, and the count reported is their number; a file without carriage returns is parsed as written |
| History.SavedLines | grok_code/main.py:735-751 | the saved file splits into the seven header lines followed by each non-system message's title, blank line, content lines and blank line |
| History.SaveTextNoCr | grok_code/main.py:735-751 | a saved file holds a carriage return only where the date, the model name or a saved content does, so reading it back changes nothing |
| History.HeaderIgnored | grok_code/main.py:851-852 | the header and metadata lines change nothing before the first section |
| History.RunPlain | grok_code/main.py:853-854 | plain lines are collected, in order, into the open section |
| History.RunPlainClosed | grok_code/main.py:853-854 | plain lines outside any section are dropped |
| History.SectionText | grok_code/main.py:746-827 | a saved section's collected lines strip back to the content that was saved |
| History.OpenSection | grok_code/main.py:824-852 | a USER or ASSISTANT title closes what was open and opens its own section; a TOOL title closes the open section in the corrected parser and is skipped in the program's |
| History.ToolSectionEffect | grok_code/main.py:851-852 | in the corrected parser a TOOL section closes what was open and adds no message; for a section written as at grok_code/main.py:742-749 |
| History.OpenSectionEffect | grok_code/main.py:824-850 | in either parse, a USER or ASSISTANT section closes what was open and adds exactly its own message; for a section written as at grok_code/main.py:742-749 |
| History.SectionsEffect | grok_code/main.py:823-866 | parsing the saved sections adds exactly the user and assistant messages, in order: for every conversation in the corrected parse, and for one without tool results in the program's; for sections written as at grok_code/main.py:742-749 |
| History.SaveLoadRoundTrip | grok_code/main.py:735-866 | saving a conversation, reading the file back with `read_text` and parsing it gives its user and assistant messages in order, when their contents are stripped, free of carriage returns and made of lines the parser keeps, and the date and model fit on one line without a carriage return; in the program's parse only when there is no tool result |
| History.ToolResultLeaksAsWritten | grok_code/main.py:838-854 | in the program's parser an assistant reply followed by a tool result loads back as one assistant message holding both texts, which is not what was saved |
| History.ToolSectionRunAsWritten | grok_code/main.py:851-854 | in the program's parser the lines of a TOOL section are appended to the section open before it |
| History.LeakRun | grok_code/main.py:813-854 | the program's parse of the two-section file, line by line, ends with the tool text collected into the assistant section |
| History.SaveRestore | grok_code/main.py:735-869 | saving and restoring gives a fresh system prompt followed by the saved user and assistant messages, and reports their number, under the same conditions as the round trip; in the program's parse only when there is no tool result |
| AgentRunner.Create | grok_code/agents/runner.py:52-76 | a plugin agent exactly when a plugin registry is set and knows the name, and then that definition; otherwise only an explore or a plan agent, the plan agent exactly when the kind read is "plan" |
| AgentRunner.PluginShadowsBuiltIn | grok_code/agents/runner.py:55-60 | a plugin agent whose name is a built-in kind's value shadows that kind |
| AgentRunner.NoPluginsByKind | grok_code/agents/runner.py:63-68 | without a plugin registry a name is read as a kind alone, an unknown one as explore |
| AgentRunner.GeneralGivesExplorer | grok_code/agents/runner.py:70-76 | asking for "general", by name or by member, gives an explore agent |
| AgentRunner.NewRunner | grok_code/agents/runner.py:47-146 | a fresh runner has no plugins, no current agent, nothing running and no results |
| AgentRunner.CancelCurrent | grok_code/agents/runner.py:47-50 | without a current agent nothing changes; otherwise the current agent is cancelled and nothing else changes |
| AgentRunner.Begin | grok_code/agents/runner.py:86-87 | the new agent is the current one and nothing else changes |
| AgentRunner.RunAgent | grok_code/agents/runner.py:78-103 | afterwards no agent is current, whether or not the run raised; a finished run's result is returned and stored under the agent's id with every other result kept; a raised run is passed on with nothing stored |
| AgentRunner.RunBackground | grok_code/agents/runner.py:105-124 | the returned id is the new agent's, and it is listed as running with its agent and prompt; nothing else changes |
| AgentRunner.Complete | grok_code/agents/runner.py:114-119 | a finished background run stores its result and leaves the running map; a raised one changes nothing; other ids are untouched |
| AgentRunner.RunningIds | grok_code/agents/runner.py:140-142 | an id is listed exactly when it is running, once each |
| AgentRunner.WaitForAgent | grok_code/agents/runner.py:148-166 | a stored result comes back first; an unknown id gives nothing; a timed-out wait gives nothing and changes nothing; otherwise the run's result is stored and returned, or its exception passed on |
| AgentRunner.CancelAgent | grok_code/agents/runner.py:168-177 | it reports true exactly when the id was running; afterwards the id is not running, every other entry and every result are kept, and an unknown id changes nothing |
| AgentRunner.BackgroundLifecycle | grok_code/agents/runner.py:105-146 | a background agent is listed from its start until its run finishes, and then its result can be fetched |
| AgentRunner.CrashedStaysRunning | grok_code/agents/runner.py:114-119 | a background run that raises stays listed as running |
| AgentRunner.RunThenGet | grok_code/agents/runner.py:98-146 | a foreground result can be fetched by the agent's id afterwards |
| AgentRunner.CancelTwice | grok_code/agents/runner.py:168-177 | a second cancel of the same id finds nothing and reports false |
| AgentRunner.WaitAfterCancel | grok_code/agents/runner.py:152-177 | after a cancel the agent is no longer listed and waiting for it gives nothing |
| AgentRunner.WaitIsStable | grok_code/agents/runner.py:152-153 | a stored result is returned whatever the timeout, and a second wait returns the same |
| AgentTools.ChosenType | grok_code/tools/agents.py:62-63 | the subagent_type alias wins when it is a non-empty string |
| AgentTools.Description | grok_code/tools/agents.py:64 | a non-empty description is shown as given; otherwise the prompt cut to 50 characters |
| AgentTools.Report | grok_code/tools/agents.py:80-83 | a success answers with the output; a failure starts with "Agent failed: " and ends with the partial output |
| AgentTools.ReportParts | grok_code/tools/agents.py:83 | the error and the partial output can be read back from a failure report |
| AgentTools.Task | grok_code/tools/agents.py:59-86 | without a runner the fixed error and nothing else; in the background the agent is listed as running and its id is named; in the foreground its result is stored and reported, and an exception is answered with the spawn error |
| AgentTools.TaskOutput | grok_code/tools/agents.py:134-154 | without a runner the fixed error; a stored result first, then an unknown id, then a running agent without waiting, then the wait, which reports the output or the timeout |
| AgentTools.BackgroundThenOutput | grok_code/tools/agents.py:66-152 | a background task is reported running until its run finishes, and then completed with its output |
| AgentTools.ForegroundThenOutput | grok_code/tools/agents.py:71-140 | a foreground task's result stays available to task_output under the agent's id |
| AgentTools.NoRunnerNoEffect | grok_code/tools/agents.py:59-135 | with no runner connected neither tool changes anything, and both answer with the fixed error |
| PlanMode.DefaultPlanFile | grok_code/tools/plan_mode.py:28-34 | a default plan file lies in the plans directory, is named "plan-" followed by at most eight hex digits, and ends in ".md" |
| PlanMode.Enter | grok_code/tools/plan_mode.py:26-36 | entering turns plan mode on with an empty plan; a given file name is kept, and an empty one is replaced by a fresh default |
| PlanMode.SetPlan | grok_code/tools/plan_mode.py:41-46 | the plan is kept in the state and, when there is a plan file, written to exactly that file; no other file changes |
| PlanMode.EnterTool | grok_code/tools/plan_mode.py:73-87 | the tool always enters with a fresh default file and names that file in its answer |
| PlanMode.WritePlan | grok_code/tools/plan_mode.py:116-122 | outside plan mode the write is refused and nothing changes; inside, the plan is stored and written, and the answer names the plan file |
| PlanMode.ExitPlan | grok_code/tools/plan_mode.py:143-163 | outside plan mode the exit is refused and nothing changes; inside, plan mode ends keeping the plan, and the answer is the warning when no plan was written, else the plan itself between the approval markers |
| PlanMode.WriteThenExit | grok_code/tools/plan_mode.py:116-163 | a plan written in plan mode is exactly what leaving presents, and a second exit is refused |
| PlanMode.EnterForgetsPlan | grok_code/tools/plan_mode.py:26-75 | entering again starts an empty plan, whatever was written before |
| PlanMode.ExitThenWriteRefused | grok_code/tools/plan_mode.py:118-149 | after leaving plan mode, writing is refused and changes nothing |
| PlanMode.NumberedConcat | grok_code/tools/plan_mode.py:199-200 | numbering a list in two parts continues in the second part where the first stopped |
| PlanMode.OptionListed | grok_code/tools/plan_mode.py:199-200 | the option at position i is listed as number i + 1, between the options before it and those after it |
| PlanMode.AskUser | grok_code/tools/plan_mode.py:195-202 | the answer is the question between the question markers, with the options section exactly when options were given |
| PluginLoader.FullNameSplits | grok_code/plugins/loader.py:23-28 | a qualified name splits at its first colon back into the plugin and the member name |
| PluginLoader.FullNameBare | grok_code/plugins/loader.py:26-28 | without a plugin the bare name is the full name |
| PluginLoader.Unquote | grok_code/plugins/loader.py:102-105 | an unquoted value is kept; a quoted one loses exactly its first and last character |
| PluginLoader.UnquoteQuote | grok_code/plugins/loader.py:102-105 | removing the quotes undoes adding them |
| PluginLoader.SplitStrip | grok_code/plugins/loader.py:107-108 | one trimmed item per comma-separated piece |
| PluginLoader.ValueFor | grok_code/plugins/loader.py:100-109 | a value becomes a list only under tools or triggers, and then of at least two items |
| PluginLoader.ParseLine | grok_code/plugins/loader.py:97-109 | a line is skipped exactly when it has no colon; otherwise its key is the trimmed, colon-free text before the first colon, and only list keys get lists |
| PluginLoader.ParseLineRoundTrip | grok_code/plugins/loader.py:97-109 | a "key: value" line with a trimmed colon-free key and a trimmed unquoted scalar value parses back to that pair |
| PluginLoader.ParseLineList | grok_code/plugins/loader.py:107-108 | a list key whose value holds a comma yields the trimmed pieces |
| PluginLoader.ParseLines | grok_code/plugins/loader.py:96-109 | the parsed frontmatter names each key once |
| PluginLoader.LastWins | grok_code/plugins/loader.py:97-109 | a key's value is the one on the last line that names it, or its earlier value when no line does |
| PluginLoader.OnlyListKeysHoldLists | grok_code/plugins/loader.py:106-108 | lists appear only under the list keys |
| PluginLoader.ParseFrontmatter | grok_code/plugins/loader.py:82-111 | the corrected split, with the body taken right after the closing delimiter: content not starting with the marker, or without a closing delimiter, has no frontmatter and is returned whole; the keys are unique |
| PluginLoader.ParseFrontmatterAsWritten | grok_code/plugins/loader.py:82-111 | the program's split, with the body taken one character past the closing delimiter, has the same no-frontmatter cases |
| PluginLoader.BodySplit | grok_code/plugins/loader.py:82-111 | the program's split and the corrected one read the same frontmatter, whose keys are unique, and differ only in the body |
| PluginLoader.DocumentRoundTrip | grok_code/plugins/loader.py:82-111 | a document built from frontmatter lines and a body parses back to those lines and the stripped body |
| PluginLoader.DocumentAsWritten | grok_code/plugins/loader.py:93 | as written, the body comes back without its first character |
| PluginLoader.BodyLosesFirstChar | grok_code/plugins/loader.py:93-111 | as written, a trimmed non-empty body never comes back intact, while the corrected split returns it |
| PluginLoader.HiLosesH | grok_code/plugins/loader.py:93 | the body "Hi" after an empty frontmatter block comes back as "i" as written, and as "Hi" corrected |
| PluginLoader.StrOr | grok_code/plugins/loader.py:240-251 | a missing key gives the default, and a present string value is taken as is |
| PluginLoader.ListOf | grok_code/plugins/loader.py:241-283 | a missing key gives no items, and a plain string is split at commas and trimmed |
| PluginLoader.ListOfEitherWay | grok_code/plugins/loader.py:107-243 | a list key's items are the trimmed comma pieces of its unquoted value, whether or not the parser already split it |
| PluginLoader.LoadAgent | grok_code/plugins/loader.py:234-256 | the name defaults to the file's stem, tools to none, model to "default" and color to "cyan"; the prompt is the body of the program's split, or of the corrected one when asked |
| PluginLoader.LoadAgentKeepsValues | grok_code/plugins/loader.py:240-251 | every string value given for name, description, model or color reaches the definition |
| PluginLoader.LoadAgentPlain | grok_code/plugins/loader.py:84-254 | a file without frontmatter gives an agent with every default and the whole text as its prompt, under either split |
| PluginLoader.LoadAgentPromptAsWritten | grok_code/plugins/loader.py:93-254 | as written, the prompt of an agent file with a trimmed non-empty body is shorter than the body, while the corrected split gives the body itself |
| PluginLoader.LoadCommand | grok_code/plugins/loader.py:258-273 | a command is always named after the file's stem, with the body of the chosen split as its prompt and the description and argument hint from the frontmatter |
| PluginLoader.LoadSkill | grok_code/plugins/loader.py:275-294 | a skill is named after the file's stem, with the body of the chosen split as its prompt and triggers read like tools |
| PluginLoader.EventFor | grok_code/plugins/loader.py:300-308 | a known event's stem in any capitalization gives its canonical name; any other stem gives itself lower-cased |
| PluginLoader.EventForKnown | grok_code/plugins/loader.py:301-308 | each known stem selects its own event |
| PluginLoader.LoadHook | grok_code/plugins/loader.py:296-318 | a hook is named after its file, runs that file, and has a known event or the lower-cased stem |
| PluginRegistry.Register | grok_code/plugins/registry.py:44-48 | the member is stored under its qualified name, replacing what was there, and under its bare name only when that is free; nothing else changes and no key is lost |
| PluginRegistry.KeepsTaken | grok_code/plugins/registry.py:44-48 | a key already taken that no member claims by its qualified name keeps its value |
| PluginRegistry.LastFullWins | grok_code/plugins/registry.py:44-45 | under a qualified name the last member registered wins |
| PluginRegistry.FirstBareWins | grok_code/plugins/registry.py:46-48 | under a bare name that was free and is no member's qualified name, the first member with that name wins |
| PluginRegistry.AllFindable | grok_code/plugins/registry.py:44-48 | every member can be found under both of its names afterwards |
| PluginRegistry.StaysTaken | grok_code/plugins/registry.py:44-48 | registering never removes a key |
| PluginRegistry.HooksOf | grok_code/plugins/registry.py:85-87 | an event never seen has no hooks |
| PluginRegistry.AddHook | grok_code/plugins/registry.py:64-67 | a hook is appended to its own event's list and no other event's list changes |
| PluginRegistry.HooksGrouped | grok_code/plugins/registry.py:63-67 | each event's hooks are the earlier ones followed by the plugin's hooks for that event, in their order |
| PluginRegistry.AddPlugin | grok_code/plugins/registry.py:39-67 | the plugin is found by its name, and each event's hooks grow by exactly the plugin's hooks for it |
| PluginRegistry.AgentsFindable | grok_code/plugins/registry.py:44-75 | every agent of a registered plugin is found by either of its names |
| PluginRegistry.AgentFullNameLastWins | grok_code/plugins/registry.py:44-75 | a qualified agent name leads to the last agent of the plugin that has it |
| PluginRegistry.AgentBareNameFirstWins | grok_code/plugins/registry.py:46-75 | a free bare agent name leads to the first agent with it |
| PluginRegistry.CommandNames | grok_code/plugins/registry.py:50-79 | commands follow the same last-qualified, first-bare rules |
| PluginRegistry.SkillKeyLastWins | grok_code/plugins/registry.py:56-83 | skills are found under "plugin:name", the last one winning |
| PluginRegistry.Reload | grok_code/plugins/registry.py:125-132 | a reload is loading the plugins found into an empty registry |
| PluginRegistry.ReloadForgets | grok_code/plugins/registry.py:125-132 | nothing of the old registry survives a reload |
| PluginRegistry.ReloadNothing | grok_code/plugins/registry.py:125-132 | reloading with no plugins found leaves no agents and no hooks |
| PluginRegistry.Dedup | grok_code/plugins/registry.py:96-102 | every listed value comes from the registry and its key was not seen before |
| PluginRegistry.DedupKeys | grok_code/plugins/registry.py:96-102 | each key is listed once, and every value's key is listed unless seen before |
| PluginRegistry.DedupDistinct | grok_code/plugins/registry.py:96-102 | values whose keys are already distinct are listed unchanged |
| PluginRegistry.DedupIdempotent | grok_code/plugins/registry.py:96-102 | listing twice is listing once |
| PluginRegistry.ListAgentsOnce | grok_code/plugins/registry.py:93-102 | list_agents names each qualified name once and misses none |
| PluginRegistry.ListCommandsOnce | grok_code/plugins/registry.py:104-112 | list_commands names each qualified name once and misses none |
| PluginRegistry.ListSkillsOnce | grok_code/plugins/registry.py:114-123 | list_skills names each "plugin:name" key once and misses none |
| BashTool.MatchedPattern | grok_code/tools/bash.py:82-92 | the pattern found occurs in the lower-cased command, and when none is found no pattern occurs |
| BashTool.DangerousIff | grok_code/tools/bash.py:82-93 | a command is refused as dangerous exactly when one of the six patterns occurs in its lower-cased text |
| BashTool.DangerousIgnoresCase | grok_code/tools/bash.py:90-92 | capitalization never lets a dangerous command through |
| BashTool.Parts | grok_code/tools/bash.py:122-135 | at most three parts: non-blank stdout first, then non-blank stderr under its heading, then the exit status only when it is not zero; no parts exactly when both streams are blank and the status is zero |
| BashTool.SilentCommands | grok_code/tools/bash.py:134-137 | a silent, successful command reports "(no output)"; a silent failing one reports only its exit status |
| BashTool.StreamsReported | grok_code/tools/bash.py:124-137 | a non-blank stdout starts the report and a non-blank stderr appears in it under its heading |
| BashTool.Truncate | grok_code/tools/bash.py:140-144 | output of at most 50000 characters is unchanged; longer output keeps its first 50000 characters followed by a note with its full length |
| BashTool.TruncateKeepsLength | grok_code/tools/bash.py:140-144 | two long outputs cut to the same text had the same length and the same first 50000 characters |
| BashTool.StartBackground | grok_code/tools/bash.py:151-193 | a new unfinished task with no output is registered under "bg-" and the first eight hex digits, every other task is unchanged, and the reply names the id |
| BashTool.BackgroundOutput | grok_code/tools/bash.py:169-176 | a background task records both non-empty streams, stderr under its heading, or "(no output)" when both are empty |
| BashTool.FinishBackground | grok_code/tools/bash.py:156-187 | a finished command marks its task complete with its output and exit status; a timeout or error marks it complete with the message and no new status; a task not in the table, and every other task, is left alone |
| BashTool.Execute | grok_code/tools/bash.py:78-149 | a dangerous command is refused with nothing changed; then a denied permission is reported; a foreground run reports its cut output, its timeout or its error and never touches the task table; a background run registers a new unfinished "bg-" task and names its id, as `_run_background` does |
| BashTool.RefusedBeforeAnythingElse | grok_code/tools/bash.py:91-93 | a dangerous command gives the same refusal whatever the permission check, the shell and the background flag would have done |
| BashTool.BashOutput | grok_code/tools/bash.py:224-243 | an unknown id is an error; a finished task reports its status and output; an unfinished one reports still running, or, when waited for and done in time, is finished and reported |
| BashTool.BackgroundLifecycle | grok_code/tools/bash.py:96-243 | a command that `execute` starts in the background reports still running, and once its command exits it reports that exit status and the recorded output |
| WebTools.Scheme | grok_code/tools/web.py:50-51 | a scheme found is the lower-cased text before some colon of the URL, and a URL without a colon has none |
| WebTools.SchemeOf | grok_code/tools/web.py:50-54 | a URL that begins with a scheme and a colon has that scheme, lower-cased |
| WebTools.CheckUrl | grok_code/tools/web.py:49-55 | a URL without a scheme is requested with "https://" in front; one with a scheme other than http or https is refused with an error naming it |
| WebTools.AcceptedSchemes | grok_code/tools/web.py:54-55 | every URL that passes the check has the scheme http or https, so nothing else is ever requested |
| WebTools.RemoveTags | grok_code/tools/web.py:108 | removing tags never lengthens the text |
| WebTools.RemoveTagsPlain | grok_code/tools/web.py:108 | text without "<" is unchanged by tag removal |
| WebTools.TagRemoved | grok_code/tools/web.py:108 | a tag after plain text disappears and nothing else changes |
| WebTools.NonEmpty | grok_code/tools/web.py:120 | the kept texts are exactly the non-empty ones |
| WebTools.KeptLines | grok_code/tools/web.py:119-120 | the kept lines are exactly the non-empty stripped lines |
| WebTools.JoinLines | grok_code/tools/web.py:121 | joining non-empty newline-free lines leaves no blank line, starting with the first line's first character and ending with the last line's last character |
| WebTools.DropNewlines | grok_code/tools/web.py:124-126 | dropping leading newlines never lengthens the text |
| WebTools.CollapseNothing | grok_code/tools/web.py:124 | a text without blank lines has no run of three newlines to collapse |
| WebTools.KeptLinesShape | grok_code/tools/web.py:119-120 | every kept line is stripped, non-empty and free of newlines |
| WebTools.JoinedLinesSettled | grok_code/tools/web.py:121-126 | stripped non-empty lines joined by newlines survive the collapse and the final strip and split back into the same lines |
| WebTools.HtmlToTextLines | grok_code/tools/web.py:93-126 | the converted page is its non-empty stripped lines joined by single newlines: the collapse of newline runs and the final strip never change it |
| WebTools.PageText | grok_code/tools/web.py:68-77 | a JSON page is returned as it is, an HTML page converted to text, anything else as it is |
| WebTools.CutText | grok_code/tools/web.py:80-82 | text of at most 50000 characters is unchanged; longer text keeps its first 50000 characters followed by the truncation note |
| WebTools.Fetch | grok_code/tools/web.py:47-91 | a refused URL gives its error; a page is returned with the checked URL, its cut text and the prompt; an HTTP status failure reads "Error: HTTP" with the code and reason, a request failure "Error fetching URL:" with its message, and any other failure "Error:" with its message |
| WebTools.Clamp | grok_code/tools/web.py:159 | the limit is the smaller of max_results and ten |
| WebTools.MakeHit | grok_code/tools/web.py:205-219 | a hit has the stripped title, the snippet at its own position stripped or "" when there are fewer snippets, and its own URL unless it is a redirect |
| WebTools.ParseResults | grok_code/tools/web.py:194-222 | with a non-negative limit, as many hits as the limit allows, each with the stripped title and the snippet at its position |
| WebTools.SearchBound | grok_code/tools/web.py:159-205 | the hits listed never exceed ten, nor a non-negative max_results |
| WebTools.NegativeMaxDropsFromEnd | grok_code/tools/web.py:159-205 | a negative max_results is not raised to zero: the slice drops that many matches from the end |
| WebTools.AllHitLinesConcat | grok_code/tools/web.py:182-187 | listing a concatenation of hits continues the numbering |
| WebTools.HitListed | grok_code/tools/web.py:182-187 | hit i is listed as number i + 1, after the hits before it and before the hits after it |
| WebTools.Search | grok_code/tools/web.py:158-192 | a failed search reports its error; no hits gives the fixed message; otherwise a header followed by every hit's lines, numbered from 1 |
| ChatLayout.Scroll | grok_code/ui/chat_layout.py:312-326 | scrolling up stops following new output and never goes beyond twice the raw line count; scrolling down never goes below 0 and follows new output again on reaching the bottom; the output is untouched |
| ChatLayout.ScrollKeepsNonNegative | grok_code/ui/chat_layout.py:318-324 | a non-negative scroll position stays non-negative |
| ChatLayout.ScrollUpThenDown | grok_code/ui/chat_layout.py:318-326 | scrolling up and back down by the same amount within the limit returns to the same position, following new output again exactly at the bottom |
| ChatLayout.Show | grok_code/ui/chat_layout.py:1496-1514 | all the output is shown exactly when it fits below the six rows of chrome; otherwise a window that ends at the bottom when following output, with an "above" marker exactly when it does not start at the top and a "below" marker counting the hidden lines only when scrolled by hand |
| ChatLayout.BottomIsFollowing | grok_code/ui/chat_layout.py:1504-1514 | scrolled by hand to position 0, the window is the one that follows the output |
| ChatLayout.HigherShowsOlder | grok_code/ui/chat_layout.py:1509-1514 | scrolling further up never moves the window down |
| ChatLayout.ScrolledToTop | grok_code/ui/chat_layout.py:1510-1514 | scrolled up by at least the hidden part, the window starts at the top with no "above" marker |
| ChatLayout.QueueMessage | grok_code/ui/chat_layout.py:1753-1756 | the message joins the end of the queue and the rest is kept |
| ChatLayout.PopQueued | grok_code/ui/chat_layout.py:1758-1764 | an empty queue gives nothing; otherwise the oldest message, and the rest of the queue behind it |
| ChatLayout.HandleUp | grok_code/ui/chat_layout.py:512-522 | with an empty input and queued messages the newest message comes back for editing and leaves the queue; otherwise input history |
| ChatLayout.QueueOrder | grok_code/ui/chat_layout.py:1753-1764 | sending takes messages in the order they were queued, while Up recalls the one queued last; the queue itself is kept at grok_code/ui/chat_layout.py:515-517 |
| ChatLayout.QueueThenPop | grok_code/ui/chat_layout.py:1753-1764 | queueing and then popping gives the queue's oldest entry, or the new message when the queue was empty, and loses nothing |
| ChatLayout.ShiftTab | grok_code/ui/chat_layout.py:43-460 | the next of the three approval modes, wrapping round after the last |
| ChatLayout.ShiftTabCycle | grok_code/ui/chat_layout.py:43-460 | three presses come back to the same mode, passing through both others |
| ChatLayout.RowCells | grok_code/ui/chat_layout.py:1069-1071 | every table row has at least one cell |
| ChatLayout.ColumnCount | grok_code/ui/chat_layout.py:1077 | the column count is the largest number of cells in any row |
| ChatLayout.ColumnNeedBounds | grok_code/ui/chat_layout.py:1078-1082 | every cell fits its column's need, and the need is 0 or some cell's |
| ChatLayout.ColumnWidths | grok_code/ui/chat_layout.py:1076-1085 | one width per column, each at least 5; every cell fits its column with a space on each side, and a width above 5 is some cell's length plus two |
| ChatLayout.CellText | grok_code/ui/chat_layout.py:1099-1109 | a cell fills its column exactly, with a space at each end, and a body cell's text starts right after the first space |
| ChatLayout.TableLines | grok_code/ui/chat_layout.py:1073-1125 | no rows draw nothing; otherwise the top border, every row in order, the rule under the header exactly when there is a second row, and the bottom border |
| ChatLayout.UserLines | grok_code/ui/chat_layout.py:1553-1559 | one shown line per line of the message |
| ChatLayout.AddUserMessage | grok_code/ui/chat_layout.py:1548-1560 | the earlier output is kept, followed by a blank line, the message's prefixed lines and a blank line; the pane follows new output again |
| ChatLayout.UserMessageRoundTrip | grok_code/ui/chat_layout.py:1552-1560 | taking the prefixes off the added lines and joining them with newlines gives back the message |
| ChatLayout.PasteMask | grok_code/ui/chat_layout.py:683-694 | the mask of a paste is a bracketed line ending with the count of further lines |
| ChatLayout.OnTextChanged | grok_code/ui/chat_layout.py:655-696 | while a paste is stored nothing changes; a text holding a newline is stored and the buffer shows its mask; other text stays as typed |
| ChatLayout.MaskIsOneLine | grok_code/ui/chat_layout.py:683-694 | the mask of a multi-line paste is a single line and counts at least one further line |
| ChatLayout.AcceptInput | grok_code/ui/chat_layout.py:795-811 | the stored paste, or else the buffer, is queued while the agent is busy and submitted otherwise; either way the paste is dropped and the buffer reset |
| ChatLayout.PasteThenAccept | grok_code/ui/chat_layout.py:683-811 | a pasted text, though the buffer shows only its mask, is exactly what Enter submits or queues |
| AgentDisplay.AddAgent | grok_code/ui/agents.py:39-46 | the agent is shown running with no tool, no messages, no tools counted and its description cut to 50 characters; every other agent is unchanged |
| AgentDisplay.LastThree | grok_code/ui/agents.py:64-67 | the result is the last three entries, or all of them when there are fewer |
| AgentDisplay.LastThreeAppend | grok_code/ui/agents.py:64-67 | keeping the last three after each append is keeping the last three at the end |
| AgentDisplay.Updated | grok_code/ui/agents.py:59-67 | a non-empty tool name becomes the current tool with its arguments and counts one more tool; a non-empty message joins the last three; nothing else changes |
| AgentDisplay.UpdateAgent | grok_code/ui/agents.py:48-69 | an unknown id changes nothing; a known agent gets the update and every other agent is unchanged |
| AgentDisplay.CompleteAgent | grok_code/ui/agents.py:71-76 | the agent is marked completed or failed with no current tool; an unknown id changes nothing and no other agent changes |
| AgentDisplay.RemoveAgent | grok_code/ui/agents.py:78-82 | the agent leaves the board, no other agent changes, and an unknown id changes nothing |
| AgentDisplay.UpdatesAccumulate | grok_code/ui/agents.py:48-69 | after a run of updates the agent has counted every tool call and shows the last three of all its messages |
| AgentDisplay.MessagesStep | grok_code/ui/agents.py:64-67 | one update then the rest keeps the same last three messages as appending them all at once |
| AgentDisplay.LastThreeAppendAll | grok_code/ui/agents.py:64-67 | cutting to the last three before appending does not change the last three after |
| AgentDisplay.UnknownAgentIgnored | grok_code/ui/agents.py:48-82 | updates, completion and removal of an agent not on the board leave the board as it is |
| AgentDisplay.AddUpdateComplete | grok_code/ui/agents.py:39-76 | an agent added, updated and completed has counted its tool calls, has no current tool, the right final status and at most three messages |
| AgentDisplay.StartColor | grok_code/ui/agents.py:185-199 | a given colour is used; without one, the type's colour, or the default colour for an unknown type |
| AgentDisplay.StartColorFromPalette | grok_code/ui/agents.py:185-199 | without a colour of its own an agent is announced in a palette colour, and the three built-in types have distinct ones |

## Left out

- HTTP: the chat and streaming requests of `client.py` and the `web_fetch` and `web_search` exchanges are inputs. The network cannot be modelled.
- JSON text: decoding and encoding are parameters (`dumps`, `loads`, `decode`, `parseArgs`), and so is `html.unescape` inside argument parsing. They are foreign library code.
- The regular-expression passes of `_html_to_text` that rewrite script, style, br, p, div, li and heading elements are one `rewrite` input. The search page's link and snippet matches are inputs too. Python's regex engine is not modelled; tag removal and entity decoding are.
- Subprocesses and asyncio: a shell command's outcome, an agent's run and whether a `wait_for` finished in time are inputs. The cancellation of a task whose `wait_for` timed out is not modelled.
- `!` shell mode of `main.py`, `/init` and `/agents new` file creation, and the `/save` and `/load` file listing and file-existence branches: these are file and process I/O.
- Filesystem plugin loading: `load_all`, `load_plugin` and `discover_plugins` read directories. The loaders take a file's stem, path and content, and `PluginRegistry.Reload` takes the plugins found.
- `run_agents_parallel`: it is `asyncio.gather` over independent runs, and each run is modelled on its own.
- The rule matching of `grok_code/permissions.py` is not modelled. `check_requires_permission` is a parameter.
- `validate_modified_files` is imported by `general.py` but not defined where it is imported from. It is the `Validator` parameter.
- Terminal rendering: drawing, styles, key-binding plumbing and the `show_agent_*` callbacks (only the colour choice is modelled), `clear_output` and `append_output`, and elapsed-time strings. These are display only.
- The Escape and Backspace handlers that clear a stored paste, and the `/load history` and `@`-mention branches of `_on_text_changed`: they drive completion menus, not state the model keeps.
- Agent start times and `on_complete` callbacks: the clock and callbacks into unseen code.
- The explore and plan agents accept a context dictionary but never read it, so their models take none. The general and plugin agents take it as an ordered map.
- Prompt wordings: each agent's system prompt is a parameter, and only its structure is modelled.
- WebTools.Scheme: `urlparse` raising `ValueError` is not modelled, and neither is its clean-up of the URL first: stripping leading C0 control characters and spaces, and removing tabs, carriage returns and line feeds anywhere. `Scheme` reads the scheme as `urlparse` does for text that needs none of this.
- The "Not a file" branch of `read_file`: the filesystem is a map from path to text, with no directories.
- Whitespace and case are ASCII only in `Text.Strip` and `Text.Lower`: whitespace is the space, tab to carriage return, and the separators U+001C to U+001F. Python's Unicode tables, with their further spaces and cased letters, are not modelled.
- PlanAgent.KeepWordsAndSpaces: a word character is an ASCII letter, digit or underscore. Python's `\w` in `plan.py` also matches Unicode letters and digits, so a prompt such as "café plan" keeps the "é" in the program and loses it in the model.
- AgentBase.Loop: a tool's answer is a function of the tool and its arguments only. Within one run, a `read_file` after a `write_file` to the same path does not see the write; the agents' file system is not threaded through the run.
- MainTurn.TurnLoop: as in `AgentBase.Loop`, a tool's answer depends only on the tool and its arguments. The task store is fixed for the turn, so the refreshed task context does not show tasks created during the turn.
- FileOps.ReadFile: the "Error reading file" branch (`file_ops.py:94-95`) is an I/O failure and is not modelled. Neither is `errors="replace"` decoding: a file is already text.
- FileOps.WriteFile: the "Error writing file" branch (`file_ops.py:177-178`) is an I/O failure and is not modelled. Writing stores the text as given, as a POSIX system does; the translation of "\n" on other systems is not modelled.
- FileOps.EditFile: the "Error reading file" and "Error writing file" branches (`file_ops.py:248-249`, `file_ops.py:293-294`) are I/O failures and are not modelled.
- MainTurn.RunTurn: the interactive turn has no round limit in the program. The model bounds it with fuel, and a turn that runs out of fuel ends without draining the message queue.
- AgentBase.ToolLabel: the catch-all label, the tool's name spaced out and title-cased, is stated only up to letter case. A cut bash command is stated by its prefix and length only.
- PluginAgent.StatusLabel: like `AgentBase.ToolLabel`, the catch-all label is stated up to letter case.
- GeneralAgent.StatusLabel: like `AgentBase.ToolLabel`, the catch-all label is stated up to letter case.
- GeneralAgent.ModifiedPath: it gives the path of a call whose `file_path` is a non-empty string. A number, boolean or null path raises earlier, in the status label (`general.py:118`), and a list or object path raises "unhashable type" when it is added to the set (`general.py:125`). Both raises are modelled by `GeneralAgent.CallError` and stated by `GeneralAgent.PathErrorCases` and `GeneralAgent.TrackedPath`.
- Exception texts are those of CPython 3.12. Other Python versions word some of them differently.
- `f"{v}"` of a list or object argument is a `show` parameter: Python's `repr` of a JSON value is not spelled out.
- JSON numbers are integers. A floating-point argument is not modelled.
- The UI calls around a tool call (`layout.add_file_diff`, `add_tool_call`, `set_status`, `_update_status`) and `registry.execute` are taken not to raise. `registry.execute` turns a handler's exception into an error string itself.
- MainTurn.RunCalls: when a call's accounting raises halfway, the model keeps the counts from before that call. The program may already have added the path to `file_changes`, but that dict is local to the turn (`main.py:182`) and nothing reads it after the exception.

## Findings

| source | as written | input that shows it | evidently intended | confidence | as-written member | corrected member |
|---|---|---|---|---|---|---|
| grok_code/main.py:838-854 | `/load history` recognises only `## USER` and `## ASSISTANT` titles. A `## TOOL` section saved by `/save history` does not close the open section, so its lines join the assistant message before it | a conversation [assistant "a", tool "c"] saves to sections ASSISTANT "a" and TOOL "c", and loads back as one assistant message "a\n\n\nc" | a section title other than USER or ASSISTANT closes the open section, so tool results are dropped and the saved user and assistant messages come back unchanged | not executed | History.ToolResultLeaksAsWritten | History.SaveLoadRoundTrip |
| grok_code/plugins/loader.py:93 | the body starts at `end + 3 + 1`, one character past the newline that follows the closing `---` | "---\n\n---\nHi" parses to the body "i" | the body starts right after the closing delimiter, so "Hi" comes back | not executed | PluginLoader.HiLosesH | PluginLoader.DocumentRoundTrip |

Both rows keep the program's behaviour and the corrected one side by side. `History.Load`, `History.Restore` and the plugin loaders `PluginLoader.LoadAgent`, `PluginLoader.LoadCommand` and `PluginLoader.LoadSkill` take a `fixed` flag, which every caller passes explicitly. With `fixed` false they compute what the program computes: `/load history` lets the lines of a TOOL section join the open section, and the loaders take the body from `PluginLoader.ParseFrontmatterAsWritten`, which drops the body's first character. With `fixed` true they compute the corrected behaviour: `/load history` drops TOOL sections, and the loaders take the body from `PluginLoader.ParseFrontmatter`, which keeps it whole. The round-trip lemmas state which of the two they hold for.
