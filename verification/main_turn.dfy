/** The interactive turn of `main.py`: the tool-calling loop that runs until
    a reply has no tool calls or an interruption is seen, the status label
    of each call (`_format_tool`, `_short_path`, `_truncate`), and the
    edit/write line accounting. The label and the accounting apply Python's
    operations to the call's arguments unchecked, so an argument of the
    wrong type raises, and the exception ends the turn. The model, the tool
    registry and the interrupt flag are oracles. */
module MainTurn {
  import opened Wrappers
  import opened Text
  import opened Json
  import opened PyValues
  import opened Wire
  import opened Tasks
  import opened Conversation
  import opened ToolBase
  import opened ToolRegistry
  import AgentBase

  /** The `file_changes` record of a turn. The files are kept by their
      Python hash key, so `True` and `1` are one entry. */
  datatype FileChanges = FileChanges(files: set<Json>, added: nat, removed: nat)

  /** `s.count('\n') + 1`: the number of lines of a text. */
  function LineCount(s: string): nat {
    Count(s, "\n") + 1
  }

  /** `file_changes["files"].add(v)`. */
  function AddFile(files: set<Json>, v: Json): (r: Py<set<Json>>)
    ensures r.Failure? <==> v.JArr? || v.JObj?
    ensures r.Success? ==> r.value == files + {HashKey(v)}
  {
    match HashError(v)
    case Some(e) => Failure(e)
    case None => Success(files + {HashKey(v)})
  }

  /** Line accounting after one call: a successful edit adds its path and
      counts its lines, as does a successful write; a read only takes the
      last segment of its path for the display. Each step reads an
      argument unchecked and raises as Python does. */
  function Account(fc: FileChanges, call: ToolCall, result: string): (r: Py<FileChanges>)
    ensures || (call.name != "edit_file" && call.name != "write_file" && call.name != "read_file")
            || (call.name != "read_file" && !Contains(result, "Successfully"))
            ==> r == Success(fc)
    ensures call.name == "read_file" && TextArg(call.arguments, "file_path") ==> r == Success(fc)
    ensures r.Success? ==> fc.files <= r.value.files && fc.added <= r.value.added && fc.removed <= r.value.removed
  {
    FileToolNamesDiffer();
    var args := call.arguments;
    if !(AgentBase.IsFileTool(call.name) && (call.name == "read_file" || Contains(result, "Successfully"))) then
      Success(fc)
    else if !args.JObj? then Failure(NoAttribute(args, "get"))
    else if call.name == "edit_file" then AccountEdit(fc, args)
    else if call.name == "write_file" then AccountWrite(fc, args)
    else AccountRead(fc, args)
  }

  /** The accounting of a read, whose arguments are a dict: the path's last
      segment is taken for the display and nothing is counted. */
  function AccountRead(fc: FileChanges, args: Json): (r: Py<FileChanges>)
    requires args.JObj?
    ensures TextArg(args, "file_path") ==> r == Success(fc)
    ensures r.Success? ==> r.value == fc
  {
    var _ :- LastSegment(Field(args, "file_path").GetOr(JStr("")));
    Success(fc)
  }

  /** The three file tools' names are distinct. */
  lemma FileToolNamesDiffer()
    ensures "edit_file" != "read_file" && "edit_file" != "write_file" && "read_file" != "write_file"
  {
    assert "edit_file"[0] != "read_file"[0];
  }

  /** The accounting of a successful edit, whose arguments are a dict. */
  function AccountEdit(fc: FileChanges, args: Json): (r: Py<FileChanges>)
    requires args.JObj?
    ensures TextArg(args, "file_path") && TextArg(args, "old_string") && TextArg(args, "new_string") ==>
              r == Success(FileChanges(fc.files + {JStr(ArgText(args, "file_path"))},
                                       fc.added + LineCount(ArgText(args, "new_string")),
                                       fc.removed + LineCount(ArgText(args, "old_string"))))
    ensures Field(args, "file_path").Some? && (Field(args, "file_path").value.JArr? || Field(args, "file_path").value.JObj?) ==>
              r == Failure("unhashable type: '" + TypeName(Field(args, "file_path").value) + "'")
    ensures r.Success? ==> fc.files <= r.value.files && fc.added <= r.value.added && fc.removed <= r.value.removed
  {
    var files :- AddFile(fc.files, Field(args, "file_path").GetOr(JStr("")));
    var removed :- CountNewlines(Field(args, "old_string").GetOr(JStr("")));
    var added :- CountNewlines(Field(args, "new_string").GetOr(JStr("")));
    Success(FileChanges(files, fc.added + added + 1, fc.removed + removed + 1))
  }

  /** The accounting of a successful write, whose arguments are a dict. */
  function AccountWrite(fc: FileChanges, args: Json): (r: Py<FileChanges>)
    requires args.JObj?
    ensures TextArg(args, "file_path") && TextArg(args, "content") ==>
              r == Success(FileChanges(fc.files + {JStr(ArgText(args, "file_path"))},
                                       fc.added + LineCount(ArgText(args, "content")), fc.removed))
    ensures Field(args, "file_path").Some? && (Field(args, "file_path").value.JArr? || Field(args, "file_path").value.JObj?) ==>
              r == Failure("unhashable type: '" + TypeName(Field(args, "file_path").value) + "'")
    ensures r.Success? ==> fc.files <= r.value.files && fc.added <= r.value.added && fc.removed == r.value.removed
  {
    var files :- AddFile(fc.files, Field(args, "file_path").GetOr(JStr("")));
    var added :- CountNewlines(Field(args, "content").GetOr(JStr("")));
    Success(FileChanges(files, fc.added + added + 1, fc.removed))
  }

  /** A successful edit or write with text arguments adds its path and
      counts its lines. */
  lemma AccountCounts(fc: FileChanges, call: ToolCall, result: string)
    ensures call.name == "edit_file" && Contains(result, "Successfully")
            && TextArg(call.arguments, "file_path") && TextArg(call.arguments, "old_string")
            && TextArg(call.arguments, "new_string") ==>
              Account(fc, call, result) == Success(FileChanges(fc.files + {JStr(ArgText(call.arguments, "file_path"))},
                                       fc.added + LineCount(ArgText(call.arguments, "new_string")),
                                       fc.removed + LineCount(ArgText(call.arguments, "old_string"))))
    ensures call.name == "write_file" && Contains(result, "Successfully")
            && TextArg(call.arguments, "file_path") && TextArg(call.arguments, "content") ==>
              Account(fc, call, result) == Success(FileChanges(fc.files + {JStr(ArgText(call.arguments, "file_path"))},
                                       fc.added + LineCount(ArgText(call.arguments, "content")), fc.removed))
  {
    FileToolNamesDiffer();
  }

  /** Where accounting raises: a file tool whose arguments are not a dict
      has no `get`; a read whose path is a number, boolean or null cannot
      be searched for "/"; an edit or write whose path is a list or dict
      cannot be added to the set. */
  lemma AccountRaises(fc: FileChanges, call: ToolCall, result: string)
    ensures (call.name == "read_file" || Contains(result, "Successfully")) && AgentBase.IsFileTool(call.name)
            && !call.arguments.JObj?
            ==> Account(fc, call, result) == Failure(NoAttribute(call.arguments, "get"))
    ensures call.name == "read_file" && call.arguments.JObj? && Field(call.arguments, "file_path").Some?
            && IsScalar(Field(call.arguments, "file_path").value) ==>
              Account(fc, call, result)
              == Failure("argument of type '" + TypeName(Field(call.arguments, "file_path").value) + "' is not iterable")
    ensures call.name != "read_file" && Contains(result, "Successfully") && AgentBase.IsFileTool(call.name)
            && call.arguments.JObj? && Field(call.arguments, "file_path").Some?
            && (Field(call.arguments, "file_path").value.JArr? || Field(call.arguments, "file_path").value.JObj?) ==>
              Account(fc, call, result) == Failure("unhashable type: '" + TypeName(Field(call.arguments, "file_path").value) + "'")
  {
  }

  /** Whether accounting raises does not depend on the record so far. */
  lemma AccountErrorSame(fc1: FileChanges, fc2: FileChanges, call: ToolCall, result: string)
    ensures ErrorOf(Account(fc1, call, result)) == ErrorOf(Account(fc2, call, result))
  {
  }

  /** A single-line replacement counts one line removed and one added. */
  lemma SingleLineEditCounts(fc: FileChanges, call: ToolCall, result: string)
    requires call.name == "edit_file" && Contains(result, "Successfully")
    requires TextArg(call.arguments, "file_path") && TextArg(call.arguments, "old_string") && TextArg(call.arguments, "new_string")
    requires '\n' !in ArgText(call.arguments, "old_string") && '\n' !in ArgText(call.arguments, "new_string")
    ensures Account(fc, call, result).Success?
    ensures Account(fc, call, result).value.added == fc.added + 1
    ensures Account(fc, call, result).value.removed == fc.removed + 1
  {
    NoNewlineCount(ArgText(call.arguments, "old_string"));
    NoNewlineCount(ArgText(call.arguments, "new_string"));
  }

  lemma NoNewlineCount(s: string)
    requires '\n' !in s
    ensures Count(s, "\n") == 0
  {
    CountPositiveIffContains(s, "\n");
    ContainsIffOccurs(s, "\n");
    forall j: nat | j + 1 <= |s|
      ensures !OccursAt(s, "\n", j)
    {
      assert s[j..j + 1] == [s[j]];
    }
  }

  /** The environment of a turn: the model (`chat`), the registry and its
      handlers, and the interrupt flag, read at numbered checkpoints —
      `interrupted(k)` is what the k-th check sees. */
  datatype Oracles = Oracles(chat: seq<Message> -> ChatOutcome, reg: Registry,
                             run: (Tool, Json) -> HandlerOutcome, interrupted: nat -> bool)

  /** `await registry.execute(tool_call.name, tool_call.arguments)`. */
  function Exec(o: Oracles, call: ToolCall): string {
    Execute(o.reg, call.name, call.arguments, o.run)
  }

  /** The exception handling a call raises, if any: the status label
      before the call runs, then the accounting after it. */
  function CallFailure(o: Oracles, call: ToolCall): Option<string> {
    match FormatError(call.name, call.arguments)
    case Some(e) => Some(e)
    case None => ErrorOf(Account(FileChanges({}, 0, 0), call, Exec(o, call)))
  }

  /** A call's failure, with the accounting started from any record. */
  lemma CallFailureFrom(o: Oracles, call: ToolCall, fc: FileChanges)
    ensures FormatError(call.name, call.arguments).Some? ==> CallFailure(o, call) == FormatError(call.name, call.arguments)
    ensures FormatError(call.name, call.arguments).None? ==> CallFailure(o, call) == ErrorOf(Account(fc, call, Exec(o, call)))
  {
    AccountErrorSame(fc, FileChanges({}, 0, 0), call, Exec(o, call));
  }

  /** `CallFailure` as the function `FirstRaising` takes. */
  function Fails(o: Oracles): ToolCall -> Option<string> {
    c => CallFailure(o, c)
  }

  function ResultMessages(calls: seq<ToolCall>, o: Oracles): (r: seq<Message>)
    ensures |r| == |calls|
    ensures forall j :: 0 <= j < |calls| ==> r[j] == ResultMessage(calls[j], Exec(o, calls[j]))
  {
    seq(|calls|, j requires 0 <= j < |calls| => ResultMessage(calls[j], Exec(o, calls[j])))
  }

  /** The last of `checks` interrupt checks saw the flag set. */
  predicate LastCheckInterrupted(o: Oracles, checks: nat) {
    checks >= 1 && o.interrupted(checks - 1)
  }

  datatype CallsResult = CallsResult(conv: Conversation, checks: nat, fc: FileChanges, executed: nat,
                                     stopped: bool, raised: Option<string>)

  /** The `for tool_call in response.tool_calls` loop, from call `j`: an
      interruption seen before a call stops it, and so does an exception
      from the call's label or accounting, which leaves that call
      unanswered. */
  function RunCalls(conv: Conversation, calls: seq<ToolCall>, j: nat, k: nat, fc: FileChanges, o: Oracles): (r: CallsResult)
    requires j <= |calls|
    decreases |calls| - j
    ensures j <= r.executed <= |calls|
    ensures r.stopped <==> r.executed < |calls|
    ensures r.raised.Some? ==> r.stopped && r.raised == CallFailure(o, calls[r.executed])
    ensures r.stopped && r.raised.None? ==> LastCheckInterrupted(o, r.checks)
    ensures forall i :: j <= i < r.executed ==> CallFailure(o, calls[i]).None?
    ensures r.conv.messages == conv.messages + ResultMessages(calls[j..r.executed], o)
    ensures r.conv.projectFilesLoaded == conv.projectFilesLoaded
    ensures r.checks >= k
  {
    if j == |calls| then CallsResult(conv, k, fc, j, false, None)
    else if o.interrupted(k) then CallsResult(conv, k + 1, fc, j, true, None)
    else
      CallFailureFrom(o, calls[j], fc);
      match FormatError(calls[j].name, calls[j].arguments)
      case Some(e) => CallsResult(conv, k + 1, fc, j, true, Some(e))
      case None =>
        var result := Exec(o, calls[j]);
        match Account(fc, calls[j], result)
        case Failure(e) => CallsResult(conv, k + 1, fc, j, true, Some(e))
        case Success(fc1) =>
          var conv' := AddToolResult(conv, calls[j].id, calls[j].name, result);
          var r := RunCalls(conv', calls, j + 1, k + 1, fc1, o);
          ResultMessagesStep(conv, calls, j, r.executed, o, r.conv.messages);
          r
  }

  lemma ResultMessagesCons(calls: seq<ToolCall>, j: nat, e: nat, o: Oracles)
    requires j < e <= |calls|
    ensures ResultMessages(calls[j..e], o) == [ResultMessage(calls[j], Exec(o, calls[j]))] + ResultMessages(calls[j + 1..e], o)
  {
    assert calls[j..e] == [calls[j]] + calls[j + 1..e];
  }

  /** The messages after call `j` and the calls that followed it. */
  lemma ResultMessagesStep(conv: Conversation, calls: seq<ToolCall>, j: nat, e: nat, o: Oracles, ms: seq<Message>)
    requires j < e <= |calls|
    requires ms == AddToolResult(conv, calls[j].id, calls[j].name, Exec(o, calls[j])).messages
                   + ResultMessages(calls[j + 1..e], o)
    ensures ms == conv.messages + ResultMessages(calls[j..e], o)
  {
    var m := ResultMessage(calls[j], Exec(o, calls[j]));
    assert AddToolResult(conv, calls[j].id, calls[j].name, Exec(o, calls[j])).messages == conv.messages + [m];
    ResultMessagesCons(calls, j, e, o);
    ConcatAssoc(conv.messages, [m], ResultMessages(calls[j + 1..e], o));
  }

  /** How one iteration of `while True` ends: go round again, `break`
      (no tool calls, or an interruption before or after the model call),
      `return` (an interruption between tool calls), an exception from the
      model call, or one from a call's label or accounting. */
  datatype RoundEnd = Continue | Finished | InterruptedAtModel | InterruptedAtTools | Failed(error: string) | CallFailed(error: string)

  datatype RoundResult = RoundResult(conv: Conversation, checks: nat, fc: FileChanges, end: RoundEnd)

  /** The assistant message a reply becomes. */
  function AssistantOf(reply: Message): Message {
    Message(Assistant, reply.content, reply.toolCalls, None, None)
  }

  /** One iteration of `while True`. */
  function Round(conv: Conversation, k: nat, fc: FileChanges, o: Oracles): (r: RoundResult)
    ensures r.checks >= k
    ensures r.conv.projectFilesLoaded == conv.projectFilesLoaded
    ensures o.interrupted(k) ==> r.end == InterruptedAtModel && r.conv == conv
    ensures !o.interrupted(k) && o.chat(conv.messages).ChatFailed? ==>
              r.end == Failed(o.chat(conv.messages).error) && r.conv == conv
    ensures !o.interrupted(k) && o.chat(conv.messages).Got? && o.interrupted(k + 1) ==>
              r.end == InterruptedAtModel && r.conv == conv
    ensures !o.interrupted(k) && o.chat(conv.messages).Got? && !o.interrupted(k + 1) ==>
              var reply := o.chat(conv.messages).reply;
              var calls := reply.toolCalls.GetOr([]);
              && (|calls| == 0 ==> r.end == Finished && r.conv.messages == conv.messages + [AssistantOf(reply)])
              && (|calls| > 0 ==>
                   (r.end == Continue || r.end == InterruptedAtTools || r.end.CallFailed?) &&
                   exists m :: 0 <= m <= |calls| &&
                     r.conv.messages == conv.messages + [AssistantOf(reply)] + ResultMessages(calls[..m], o) &&
                     (r.end == Continue <==> m == |calls|) &&
                     (r.end.CallFailed? ==> m < |calls| && CallFailure(o, calls[m]) == Some(r.end.error)))
  {
    if o.interrupted(k) then RoundResult(conv, k + 1, fc, InterruptedAtModel)
    else match o.chat(conv.messages)
      case ChatFailed(e) => RoundResult(conv, k + 1, fc, Failed(e))
      case Got(reply) =>
        if o.interrupted(k + 1) then RoundResult(conv, k + 2, fc, InterruptedAtModel)
        else
          var conv1 := AddAssistantMessage(conv, reply.content, reply.toolCalls);
          var calls := reply.toolCalls.GetOr([]);
          if |calls| == 0 then RoundResult(conv1, k + 2, fc, Finished)
          else
            var cr := RunCalls(conv1, calls, 0, k + 2, fc, o);
            assert calls[0..cr.executed] == calls[..cr.executed];
            var end := if cr.raised.Some? then CallFailed(cr.raised.value)
                       else if cr.stopped then InterruptedAtTools else Continue;
            RoundResult(cr.conv, cr.checks, cr.fc, end)
  }

  lemma RoundExtends(conv: Conversation, k: nat, fc: FileChanges, o: Oracles)
    ensures var rr := Round(conv, k, fc, o);
            |rr.conv.messages| >= |conv.messages| && rr.conv.messages[..|conv.messages|] == conv.messages
  {
    var rr := Round(conv, k, fc, o);
    if !o.interrupted(k) && o.chat(conv.messages).Got? && !o.interrupted(k + 1) {
      var reply := o.chat(conv.messages).reply;
      var calls := reply.toolCalls.GetOr([]);
      if |calls| > 0 {
        var m :| 0 <= m <= |calls| &&
                 rr.conv.messages == conv.messages + [AssistantOf(reply)] + ResultMessages(calls[..m], o);
        assert rr.conv.messages[..|conv.messages|] == conv.messages;
      }
    }
  }

  /** How a turn's loop ends. `OutOfFuel` is the model's own: the program
      has no round limit. */
  datatype TurnEnd = NoToolCalls | InterruptBeforeTools | InterruptDuringTools | ChatError(error: string)
                   | CallRaised(error: string) | OutOfFuel

  datatype TurnResult = TurnResult(conv: Conversation, checks: nat, fc: FileChanges, end: TurnEnd, rounds: nat)

  /** The `while True` loop, at most `fuel` rounds. */
  function Rounds(conv: Conversation, k: nat, fc: FileChanges, o: Oracles, fuel: nat): (r: TurnResult)
    decreases fuel
    ensures |r.conv.messages| >= |conv.messages| && r.conv.messages[..|conv.messages|] == conv.messages
    ensures r.conv.projectFilesLoaded == conv.projectFilesLoaded
    ensures r.checks >= k
    ensures r.rounds <= fuel
    ensures r.end == OutOfFuel ==> r.rounds == fuel
  {
    if fuel == 0 then TurnResult(conv, k, fc, OutOfFuel, 0)
    else
      var rr := Round(conv, k, fc, o);
      RoundExtends(conv, k, fc, o);
      match rr.end
      case Continue =>
        var rest := Rounds(rr.conv, rr.checks, rr.fc, o, fuel - 1);
        assert rest.conv.messages[..|conv.messages|] == rest.conv.messages[..|rr.conv.messages|][..|conv.messages|];
        TurnResult(rest.conv, rest.checks, rest.fc, rest.end, rest.rounds + 1)
      case Finished => TurnResult(rr.conv, rr.checks, rr.fc, NoToolCalls, 1)
      case InterruptedAtModel => TurnResult(rr.conv, rr.checks, rr.fc, InterruptBeforeTools, 1)
      case InterruptedAtTools => TurnResult(rr.conv, rr.checks, rr.fc, InterruptDuringTools, 1)
      case Failed(e) => TurnResult(rr.conv, rr.checks, rr.fc, ChatError(e), 1)
      case CallFailed(e) => TurnResult(rr.conv, rr.checks, rr.fc, CallRaised(e), 1)
  }

  /** The loop of `run_conversation_turn`, after `refresh_task_context`:
      only the system message may change; the rest of the log is extended. */
  function TurnLoop(conv: Conversation, env: PromptEnv, st: TaskStore, k: nat, o: Oracles, fuel: nat): (r: TurnResult)
    ensures |r.conv.messages| >= |conv.messages|
    ensures forall i :: 1 <= i < |conv.messages| ==> r.conv.messages[i] == conv.messages[i]
    ensures r.checks >= k
  {
    var c := RefreshTaskContext(conv, env, st);
    var r := Rounds(c, k, FileChanges({}, 0, 0), o, fuel);
    assert forall i :: 0 <= i < |c.messages| ==> r.conv.messages[i] == c.messages[i] by {
      forall i | 0 <= i < |c.messages|
        ensures r.conv.messages[i] == c.messages[i]
      {
        assert r.conv.messages[..|c.messages|][i] == r.conv.messages[i];
      }
    }
    r
  }

  datatype Session = Session(conv: Conversation, checks: nat, pending: seq<string>, error: Option<string>)

  /** `run_conversation_turn` with its queue: when the loop ends by `break`
      the queued messages are drained — empty ones dropped, each other one
      added as a user message and answered by a turn of its own. An
      interruption between tool calls returns before the queue is looked
      at; an exception, from the model or from a call's label or
      accounting, ends everything and is shown as an error. */
  function RunTurn(conv: Conversation, env: PromptEnv, st: TaskStore, queue: seq<string>, k: nat, o: Oracles, fuel: nat): (r: Session)
    decreases fuel, 1, 0
    ensures r.checks >= k
    ensures |r.pending| <= |queue|
    ensures |r.conv.messages| >= |conv.messages|
    ensures forall i :: 1 <= i < |conv.messages| ==> r.conv.messages[i] == conv.messages[i]
    ensures |conv.messages| > 0 ==> TakesPrefix(conv.messages, queue, r)
  {
    var t := TurnLoop(conv, env, st, k, o, fuel);
    TurnLoopAddsNoUser(conv, env, st, k, o, fuel);
    StopStep(conv.messages, t.conv, t.checks, queue, None);
    match t.end
    case ChatError(e) =>
      StopStep(conv.messages, t.conv, t.checks, queue, Some(e));
      Session(t.conv, t.checks, queue, Some(e))
    case CallRaised(e) =>
      StopStep(conv.messages, t.conv, t.checks, queue, Some(e));
      Session(t.conv, t.checks, queue, Some(e))
    case InterruptDuringTools => Session(t.conv, t.checks, queue, None)
    case OutOfFuel => Session(t.conv, t.checks, queue, None)
    case _ =>
      var s := Drain(t.conv, env, st, queue, t.checks, o, fuel);
      ChainStep(conv.messages, queue, Session(t.conv, t.checks, queue, None), s);
      Session(s.conv, s.checks, s.pending, s.error)
  }

  /** `while layout.has_queued_messages()`: a nested turn drains the same
      queue, so every queued message is taken once, in order. */
  function Drain(conv: Conversation, env: PromptEnv, st: TaskStore, queue: seq<string>, k: nat, o: Oracles, fuel: nat): (r: Session)
    decreases fuel, 0, |queue|
    ensures r.checks >= k
    ensures |r.pending| <= |queue|
    ensures |r.conv.messages| >= |conv.messages|
    ensures forall i :: 1 <= i < |conv.messages| ==> r.conv.messages[i] == conv.messages[i]
    ensures |conv.messages| > 0 ==> TakesPrefix(conv.messages, queue, r)
  {
    if |queue| == 0 then
      StopStep(conv.messages, conv, k, queue, None);
      Session(conv, k, [], None)
    else if queue[0] == "" then
      var r := Drain(conv, env, st, queue[1..], k, o, fuel);
      SkipStep(conv.messages, queue, r);
      r
    else if fuel == 0 then
      StopStep(conv.messages, conv, k, queue, None);
      Session(conv, k, queue, None)
    else
      var c1 := AddUserMessage(conv, queue[0]);
      assert c1.messages == conv.messages + [Message(User, Some(queue[0]), None, None, None)];
      var s := RunTurn(c1, env, st, queue[1..], k, o, fuel - 1);
      HeadStep(conv.messages, c1.messages, queue, s);
      if s.error.Some? then s
      else
        var d := Drain(s.conv, env, st, s.pending, s.checks, o, fuel - 1);
        ChainStep(conv.messages, queue, s, d);
        d
  }

  /** A reply with no tool calls ends the loop after one round, with the
      reply appended as the only new message. */
  lemma PlainReplyEndsTurn(conv: Conversation, k: nat, o: Oracles, fuel: nat)
    requires fuel > 0 && !o.interrupted(k) && !o.interrupted(k + 1)
    requires o.chat(conv.messages).Got? && o.chat(conv.messages).reply.toolCalls.GetOr([]) == []
    ensures var r := Rounds(conv, k, FileChanges({}, 0, 0), o, fuel);
            r.end == NoToolCalls && r.rounds == 1 &&
            r.conv.messages == conv.messages + [AssistantOf(o.chat(conv.messages).reply)]
  {
  }

  /** A round's calls, when no interruption is seen between them, run up
      to the first one whose label or accounting raises: every call before
      it is answered, in call order, and that call and the rest are not. */
  lemma CallsAnsweredInOrder(conv: Conversation, calls: seq<ToolCall>, k: nat, fc: FileChanges, o: Oracles)
    requires forall i :: k <= i < k + |calls| ==> !o.interrupted(i)
    ensures var r := RunCalls(conv, calls, 0, k, fc, o);
            var m := AgentBase.FirstRaising(calls, Fails(o));
            && r.executed == m
            && (r.stopped <==> m < |calls|)
            && r.raised == (if m < |calls| then CallFailure(o, calls[m]) else None)
            && r.conv.messages == conv.messages + ResultMessages(calls[..m], o)
  {
    CallsRunAll(conv, calls, 0, k, fc, o);
    var r := RunCalls(conv, calls, 0, k, fc, o);
    assert calls[0..] == calls;
    assert calls[0..r.executed] == calls[..r.executed];
  }

  lemma {:induction false} CallsRunAll(conv: Conversation, calls: seq<ToolCall>, j: nat, k: nat, fc: FileChanges, o: Oracles)
    requires j <= |calls|
    requires forall i :: k <= i < k + |calls| - j ==> !o.interrupted(i)
    ensures var r := RunCalls(conv, calls, j, k, fc, o);
            r.executed == j + AgentBase.FirstRaising(calls[j..], Fails(o)) && (r.executed < |calls| ==> r.raised.Some?)
    decreases |calls| - j
  {
    if j < |calls| {
      assert Fails(o)(calls[j..][0]) == CallFailure(o, calls[j]);
      if FormatError(calls[j].name, calls[j].arguments).None? {
        var result := Exec(o, calls[j]);
        AccountErrorSame(fc, FileChanges({}, 0, 0), calls[j], result);
        if Account(fc, calls[j], result).Success? {
          var conv' := AddToolResult(conv, calls[j].id, calls[j].name, result);
          CallsRunAll(conv', calls, j + 1, k + 1, Account(fc, calls[j], result).value, o);
          assert calls[j..][1..] == calls[j + 1..];
        }
      }
    }
  }

  /** An interruption before a tool call leaves that call and the rest
      unanswered: the log ends with the results of the earlier calls. */
  lemma InterruptLeavesRestUnanswered(conv: Conversation, calls: seq<ToolCall>, k: nat, fc: FileChanges, o: Oracles)
    requires |calls| > 0 && o.interrupted(k)
    ensures var r := RunCalls(conv, calls, 0, k, fc, o);
            r.stopped && r.executed == 0 && r.conv == conv && r.raised.None?
  {
  }

  /** A call to a tool the registry does not have is answered with the
      unknown-tool error, and the loop goes on, unless its label or
      accounting raises. */
  lemma UnknownToolAnswered(conv: Conversation, call: ToolCall, k: nat, fc: FileChanges, o: Oracles)
    requires !o.interrupted(k) && Lookup(o.reg, call.name).None?
    ensures var r := RunCalls(conv, [call], 0, k, fc, o);
            && r.raised == CallFailure(o, call)
            && (r.raised.None? ==>
                  !r.stopped && r.conv.messages == conv.messages + [ResultMessage(call, UnknownToolText(call.name))])
  {
    var r := RunCalls(conv, [call], 0, k, fc, o);
    assert [call][0..1] == [call];
  }

  /** Empty queued messages are dropped without a turn. */
  lemma DrainSkipsEmpty(conv: Conversation, env: PromptEnv, st: TaskStore, queue: seq<string>, k: nat, o: Oracles, fuel: nat)
    requires forall i :: 0 <= i < |queue| ==> queue[i] == ""
    ensures Drain(conv, env, st, queue, k, o, fuel) == Session(conv, k, [], None)
  {
    if |queue| > 0 {
      DrainSkipsEmpty(conv, env, st, queue[1..], k, o, fuel);
    }
  }

  // ---- the queue, message by message ----

  /** The texts of the user messages among `ms`, in order. */
  function UserTexts(ms: seq<Message>): seq<string>
    decreases |ms|
  {
    if |ms| == 0 then []
    else (if ms[0].role == User then [ms[0].content.GetOr("")] else []) + UserTexts(ms[1..])
  }

  /** The non-empty strings of `q`, in order. */
  function NonEmpty(q: seq<string>): seq<string>
    decreases |q|
  {
    if |q| == 0 then [] else (if q[0] != "" then [q[0]] else []) + NonEmpty(q[1..])
  }

  lemma {:induction false} UserTextsAppend(a: seq<Message>, b: seq<Message>)
    ensures UserTexts(a + b) == UserTexts(a) + UserTexts(b)
    decreases |a|
  {
    if |a| > 0 {
      assert (a + b)[1..] == a[1..] + b;
      UserTextsAppend(a[1..], b);
    } else {
      assert a + b == b;
    }
  }

  lemma {:induction false} NonEmptyAppend(a: seq<string>, b: seq<string>)
    ensures NonEmpty(a + b) == NonEmpty(a) + NonEmpty(b)
    decreases |a|
  {
    if |a| > 0 {
      assert (a + b)[1..] == a[1..] + b;
      NonEmptyAppend(a[1..], b);
    } else {
      assert a + b == b;
    }
  }

  lemma {:induction false} NoUserTexts(ms: seq<Message>)
    requires forall i :: 0 <= i < |ms| ==> ms[i].role != User
    ensures UserTexts(ms) == []
    decreases |ms|
  {
    if |ms| > 0 {
      NoUserTexts(ms[1..]);
    }
  }

  /** What a round appends: the assistant message and tool results, no
      user message. */
  lemma RoundMessagesNoUser(reply: Message, calls: seq<ToolCall>, o: Oracles)
    ensures UserTexts([AssistantOf(reply)] + ResultMessages(calls, o)) == []
  {
    var rm := ResultMessages(calls, o);
    NoUserTexts(rm);
    assert ([AssistantOf(reply)] + rm)[1..] == rm;
  }

  /** The texts of a conversation's tail split where a longer prefix ends. */
  lemma PrefixSplit(base: nat, t: seq<Message>, s: seq<Message>)
    requires base <= |t| <= |s| && s[..|t|] == t
    ensures UserTexts(s[base..]) == UserTexts(t[base..]) + UserTexts(s[|t|..])
  {
    assert s[base..] == t[base..] + s[|t|..];
    UserTextsAppend(t[base..], s[|t|..]);
  }

  lemma RoundAddsNoUser(conv: Conversation, k: nat, fc: FileChanges, o: Oracles)
    ensures var rr := Round(conv, k, fc, o);
            |rr.conv.messages| >= |conv.messages| && UserTexts(rr.conv.messages[|conv.messages|..]) == []
  {
    var rr := Round(conv, k, fc, o);
    if !o.interrupted(k) && o.chat(conv.messages).Got? && !o.interrupted(k + 1) {
      var reply := o.chat(conv.messages).reply;
      var calls := reply.toolCalls.GetOr([]);
      if |calls| > 0 {
        var m :| 0 <= m <= |calls| &&
                 rr.conv.messages == conv.messages + [AssistantOf(reply)] + ResultMessages(calls[..m], o);
        RoundTail(conv.messages, rr.conv.messages, reply, calls[..m], o);
      } else {
        RoundTail(conv.messages, rr.conv.messages, reply, [], o);
      }
    } else {
      RoundTail(conv.messages, rr.conv.messages, Message(User, None, None, None, None), [], o);
    }
  }

  /** The tail a round leaves after the conversation it started from. */
  lemma RoundTail(a: seq<Message>, s: seq<Message>, reply: Message, calls: seq<ToolCall>, o: Oracles)
    requires s == a || s == a + [AssistantOf(reply)] || s == a + [AssistantOf(reply)] + ResultMessages(calls, o)
    ensures |s| >= |a| && UserTexts(s[|a|..]) == []
  {
    if s == a {
      assert s[|a|..] == [];
    } else if s == a + [AssistantOf(reply)] {
      assert s[|a|..] == [AssistantOf(reply)];
    } else {
      assert s[|a|..] == [AssistantOf(reply)] + ResultMessages(calls, o);
      RoundMessagesNoUser(reply, calls, o);
    }
  }

  /** The tool-calling loop adds no user message. */
  lemma {:induction false} RoundsAddNoUser(conv: Conversation, k: nat, fc: FileChanges, o: Oracles, fuel: nat)
    ensures var r := Rounds(conv, k, fc, o, fuel);
            UserTexts(r.conv.messages[|conv.messages|..]) == []
    decreases fuel, 0
  {
    var r := Rounds(conv, k, fc, o, fuel);
    if fuel == 0 {
      assert r.conv.messages[|conv.messages|..] == [];
    } else {
      var rr := Round(conv, k, fc, o);
      RoundAddsNoUser(conv, k, fc, o);
      RoundsConv(conv, k, fc, o, fuel);
      if rr.end == Continue {
        ContinuedAddsNoUser(conv, rr.conv, rr.checks, rr.fc, o, fuel - 1);
      }
    }
  }

  /** After a stretch that adds no user message, the rest of the loop adds
      none either. */
  lemma {:induction false} ContinuedAddsNoUser(conv: Conversation, next: Conversation, k: nat, fc: FileChanges,
                                               o: Oracles, fuel: nat)
    requires |conv.messages| <= |next.messages| && UserTexts(next.messages[|conv.messages|..]) == []
    ensures UserTexts(Rounds(next, k, fc, o, fuel).conv.messages[|conv.messages|..]) == []
    decreases fuel, 1
  {
    RoundsAddNoUser(next, k, fc, o, fuel);
    NoUserAcross(|conv.messages|, next.messages, Rounds(next, k, fc, o, fuel).conv.messages);
  }

  /** Two stretches that add no user message add none together. */
  lemma NoUserAcross(base: nat, t: seq<Message>, s: seq<Message>)
    requires base <= |t| <= |s| && s[..|t|] == t
    requires UserTexts(t[base..]) == [] && UserTexts(s[|t|..]) == []
    ensures UserTexts(s[base..]) == []
  {
    PrefixSplit(base, t, s);
  }

  /** The conversation a loop with fuel left ends with: that of the rest
      of the loop after a round that continues, else that of the round. */
  lemma RoundsConv(conv: Conversation, k: nat, fc: FileChanges, o: Oracles, fuel: nat)
    requires fuel > 0
    ensures var rr := Round(conv, k, fc, o);
            Rounds(conv, k, fc, o, fuel).conv
            == if rr.end == Continue then Rounds(rr.conv, rr.checks, rr.fc, o, fuel - 1).conv else rr.conv
  {
  }

  lemma TurnLoopAddsNoUser(conv: Conversation, env: PromptEnv, st: TaskStore, k: nat, o: Oracles, fuel: nat)
    ensures var t := TurnLoop(conv, env, st, k, o, fuel);
            UserTexts(t.conv.messages[|conv.messages|..]) == []
  {
    var c := RefreshTaskContext(conv, env, st);
    RoundsAddNoUser(c, k, FileChanges({}, 0, 0), o, fuel);
  }

  /** What a later step appends, after what an earlier one appended. */
  lemma AddedSplit(base: nat, t: seq<Message>, s: seq<Message>)
    requires 1 <= base <= |t| <= |s|
    requires forall i :: 1 <= i < |t| ==> s[i] == t[i]
    ensures UserTexts(s[base..]) == UserTexts(t[base..]) + UserTexts(s[|t|..])
  {
    assert s[base..] == t[base..] + s[|t|..];
    UserTextsAppend(t[base..], s[|t|..]);
  }

  /** `r` took a prefix of `queue`: what is still pending is the rest of
      it, and the user messages added after `before` are the non-empty
      messages of the prefix, in queue order. */
  predicate TakesPrefix(before: seq<Message>, queue: seq<string>, r: Session) {
    && IsRest(r.pending, queue)
    && |r.conv.messages| >= |before|
    && UserTexts(r.conv.messages[|before|..]) == NonEmpty(queue[..|queue| - |r.pending|])
  }

  /** `pending` is what is left of `queue` after a prefix of it. */
  predicate IsRest(pending: seq<string>, queue: seq<string>) {
    |pending| <= |queue| && pending == queue[|queue| - |pending|..]
  }

  /** Stopping with the whole queue pending, after adding no user message. */
  lemma StopStep(before: seq<Message>, c: Conversation, k: nat, queue: seq<string>, e: Option<string>)
    requires |c.messages| >= |before|
    requires |c.messages| == |before| || UserTexts(c.messages[|before|..]) == []
    ensures TakesPrefix(before, queue, Session(c, k, queue, e))
  {
    assert queue[..0] == [] && queue[0..] == queue;
    if |c.messages| == |before| {
      assert c.messages[|before|..] == [];
    }
  }

  /** An empty message at the head of the queue is dropped. */
  lemma SkipStep(before: seq<Message>, queue: seq<string>, r: Session)
    requires |queue| > 0 && queue[0] == ""
    requires |before| > 0 ==> TakesPrefix(before, queue[1..], r)
    ensures |before| > 0 ==> TakesPrefix(before, queue, r)
  {
    if |before| > 0 {
      var n := |queue| - 1 - |r.pending|;
      assert queue[1..][n..] == queue[1 + n..];
      assert queue[..1 + n] == [""] + queue[1..][..n];
      NonEmptyAppend([""], queue[1..][..n]);
    }
  }

  /** A non-empty head becomes the user message just after `before`, and
      the turn it starts takes a prefix of the rest. */
  lemma HeadStep(before: seq<Message>, c1: seq<Message>, queue: seq<string>, s: Session)
    requires |queue| > 0 && queue[0] != ""
    requires c1 == before + [Message(User, Some(queue[0]), None, None, None)]
    requires TakesPrefix(c1, queue[1..], s)
    requires forall i :: 1 <= i < |c1| ==> s.conv.messages[i] == c1[i]
    ensures |before| > 0 ==> TakesPrefix(before, queue, s)
  {
    if |before| > 0 {
      var ms := s.conv.messages;
      var n := |queue| - 1 - |s.pending|;
      assert ms[|before|] == c1[|before|];
      assert ms[|before|..] == [ms[|before|]] + ms[|c1|..];
      assert queue[1..][n..] == queue[1 + n..];
      assert queue[..1 + n] == [queue[0]] + queue[1..][..n];
      NonEmptyAppend([queue[0]], queue[1..][..n]);
    }
  }

  /** A step that takes a prefix of what an earlier step left pending
      extends the earlier step's prefix. */
  lemma ChainStep(before: seq<Message>, queue: seq<string>, s: Session, d: Session)
    requires |before| > 0 ==> TakesPrefix(before, queue, s)
    requires |s.conv.messages| > 0 ==> TakesPrefix(s.conv.messages, s.pending, d)
    requires forall i :: 1 <= i < |s.conv.messages| ==> d.conv.messages[i] == s.conv.messages[i]
    ensures |before| > 0 ==> TakesPrefix(before, queue, d)
  {
    if |before| > 0 {
      var n1 := |queue| - |s.pending|;
      var n2 := |s.pending| - |d.pending|;
      AddedSplit(|before|, s.conv.messages, d.conv.messages);
      assert s.pending[..n2] == queue[n1..n1 + n2];
      assert queue[..n1 + n2] == queue[..n1] + queue[n1..n1 + n2];
      NonEmptyAppend(queue[..n1], queue[n1..n1 + n2]);
      assert d.pending == queue[n1 + n2..];
    }
  }

  // ---- display helpers ----

  /** `_truncate`: unchanged when short enough, else cut and marked with
      "...". The slice bound `max_len - 3` is a Python slice bound. */
  function Truncate(text: string, maxLen: int): (r: string)
    ensures |text| <= maxLen ==> r == text
    ensures |text| > maxLen && maxLen >= 3 ==> |r| == maxLen && EndsWith(r, "...") && StartsWith(r, text[..maxLen - 3])
  {
    if |text| <= maxLen then text
    else
      var r := PySlice(text, 0, maxLen - 3) + "...";
      assert maxLen >= 3 ==> r[..maxLen - 3] == text[..maxLen - 3];
      r
  }

  /** `_short_path`. */
  function ShortPath(path: string): (r: string)
    ensures path == "" ==> r == ""
    ensures |Split(path, '/')| <= 2 ==> r == path
  {
    if path == "" then ""
    else
      var parts := Split(path, '/');
      if |parts| > 2 then ".../" + Join(parts[|parts| - 2..], "/") else path
  }

  /** A shortened path keeps the end of the original: what follows ".../"
      is a suffix of the path, made of its last two segments. */
  lemma ShortPathSuffix(path: string)
    requires |Split(path, '/')| > 2
    ensures StartsWith(ShortPath(path), ".../")
    ensures EndsWith(path, ShortPath(path)[4..])
  {
    var parts := Split(path, '/');
    JoinSplit(path, '/');
    JoinSuffix(parts, "/", |parts| - 2);
    var r := ShortPath(path);
    assert r[4..] == Join(parts[|parts| - 2..], "/");
  }

  lemma {:induction false} JoinSuffix(xs: seq<string>, sep: string, i: nat)
    requires i < |xs|
    ensures EndsWith(Join(xs, sep), Join(xs[i..], sep))
    decreases i
  {
    if i == 0 {
      assert xs[0..] == xs;
    } else {
      JoinSuffix(xs[1..], sep, i - 1);
      assert xs[1..][i - 1..] == xs[i..];
      var t := Join(xs[1..], sep);
      var u := Join(xs[i..], sep);
      assert Join(xs, sep) == (xs[0] + sep) + t;
      assert t[|t| - |u|..] == u;
      assert ((xs[0] + sep) + t)[|(xs[0] + sep) + t| - |u|..] == t[|t| - |u|..];
    }
  }

  // ---- the status label, on the argument values ----

  /** `_truncate(v, max_len)` on whatever the argument holds: `len` raises
      for None, booleans and numbers; a short enough list or dict passes
      through; a longer list cannot be concatenated with "...", and a longer
      dict is looked up with the slice as a key. */
  function TruncateValue(v: Json, maxLen: int): (r: Py<Json>)
    ensures v.JStr? ==> r == Success(JStr(Truncate(v.s, maxLen)))
    ensures IsScalar(v) ==> r == Failure("object of type '" + TypeName(v) + "' has no len()")
    ensures v.JArr? ==> r == if |v.items| <= maxLen then Success(v) else Failure(ListPlusStr)
    ensures v.JObj? ==> r == if |v.fields| <= maxLen then Success(v)
                             else Failure("slice(None, " + IntToString(maxLen - 3) + ", None)")
  {
    var n :- Len(v);
    if n <= maxLen then Success(v)
    else match v
      case JStr(s) => Success(JStr(PySlice(s, 0, maxLen - 3) + "..."))
      case JArr(_) => Failure(ListPlusStr)
      case _ => Failure("slice(None, " + IntToString(maxLen - 3) + ", None)")
  }

  /** The TypeError of `list + str`. */
  const ListPlusStr := "can only concatenate list (not \"str\") to list"

  /** `_short_path(v)` on whatever the argument holds: a falsy value gives
      "", a string is shortened, and anything else truthy has no `split`. */
  function ShortPathValue(v: Json): (r: Py<string>)
    ensures !IsTrue(v) ==> r == Success("")
    ensures v.JStr? ==> r == Success(ShortPath(v.s))
    ensures IsTrue(v) && !v.JStr? ==> r == Failure(NoAttribute(v, "split"))
  {
    if !IsTrue(v) then Success("")
    else if v.JStr? then Success(ShortPath(v.s))
    else Failure(NoAttribute(v, "split"))
  }

  /** The tools `_format_tool` has a formatter for. */
  predicate HasFormatter(name: string) {
    AgentBase.IsFileTool(name) || name in ["bash", "glob", "grep", "web_search", "web_fetch", "task"]
  }

  /** The exception `_format_tool` raises, if any, stated argument by
      argument: a formatter needs a dict; a file tool shortens its path; the
      command, pattern, query, URL and prompt shown cut are measured and
      cut; the glob pattern and the task's kind are only printed. */
  function FormatError(name: string, args: Json): Option<string> {
    if !HasFormatter(name) then None
    else if !args.JObj? then Some(NoAttribute(args, "get"))
    else if AgentBase.IsFileTool(name) then ErrorOf(ShortPathValue(Field(args, "file_path").GetOr(JStr(""))))
    else if name == "bash" then ErrorOf(TruncateValue(Field(args, "command").GetOr(JStr("")), 50))
    else if name == "grep" then ErrorOf(TruncateValue(Field(args, "pattern").GetOr(JStr("")), 30))
    else if name == "web_search" then ErrorOf(TruncateValue(Field(args, "query").GetOr(JStr("")), 40))
    else if name == "web_fetch" then ErrorOf(TruncateValue(Field(args, "url").GetOr(JStr("")), 40))
    else if name == "task" then
      ErrorOf(TruncateValue(Field(args, "prompt").GetOr(Field(args, "description").GetOr(JStr(""))), 30))
    else None
  }

  /** `args.get(k, "")` cut to `n` by `_truncate`. */
  function TruncatedArg(args: Json, k: string, n: int): Py<Json> {
    var v :- Arg(args, k);
    TruncateValue(v, n)
  }

  /** A label made of `prefix` and argument `k` cut to `n`. */
  function CutLabel(prefix: string, args: Json, k: string, n: int, show: Json -> string): (r: Py<string>)
    ensures ErrorOf(r) == if !args.JObj? then Some(NoAttribute(args, "get"))
                          else ErrorOf(TruncateValue(Field(args, k).GetOr(JStr("")), n))
    ensures TextArg(args, k) ==> r == Success(prefix + Truncate(ArgText(args, k), n))
  {
    var c :- TruncatedArg(args, k, n);
    Success(prefix + Str(c, show))
  }

  /** `_format_tool(name, args)`: the status label of a call. `show` is
      Python's `repr` of a list or dict printed in an f-string. */
  function FormatTool(name: string, args: Json, show: Json -> string): (r: Py<string>)
    ensures ErrorOf(r) == FormatError(name, args)
    ensures !HasFormatter(name) ==> r == Success(name)
    ensures AgentBase.IsFileTool(name) && TextArg(args, "file_path") ==>
              r == Success((if name == "read_file" then "Read " else if name == "write_file" then "Write " else "Edit ")
                           + ShortPath(ArgText(args, "file_path")))
    ensures name == "bash" && TextArg(args, "command") ==> r == Success("$ " + Truncate(ArgText(args, "command"), 50))
    ensures name == "glob" && TextArg(args, "pattern") ==> r == Success("Glob " + ArgText(args, "pattern"))
    ensures name == "grep" && TextArg(args, "pattern") ==> r == Success("Grep " + Truncate(ArgText(args, "pattern"), 30))
    ensures name == "web_search" && TextArg(args, "query") ==> r == Success("Search: " + Truncate(ArgText(args, "query"), 40))
    ensures name == "web_fetch" && TextArg(args, "url") ==> r == Success("Fetch: " + Truncate(ArgText(args, "url"), 40))
    ensures name == "task" && StrField(args, "agent_type").Some? && StrField(args, "prompt").Some? ==>
              r == Success(StrField(args, "agent_type").value + ": " + Truncate(StrField(args, "prompt").value, 30))
    ensures name == "task" && args.JObj? && Field(args, "agent_type").None? && Field(args, "subagent_type").None?
            && StrField(args, "prompt").Some? ==>
              r == Success("agent" + ": " + Truncate(StrField(args, "prompt").value, 30))
  {
    if AgentBase.IsFileTool(name) then
      var p :- Arg(args, "file_path");
      var short :- ShortPathValue(p);
      Success((if name == "read_file" then "Read " else if name == "write_file" then "Write " else "Edit ") + short)
    else if name == "bash" then CutLabel("$ ", args, "command", 50, show)
    else if name == "glob" then
      var p :- Arg(args, "pattern");
      Success("Glob " + Str(p, show))
    else if name == "grep" then CutLabel("Grep ", args, "pattern", 30, show)
    else if name == "web_search" then CutLabel("Search: ", args, "query", 40, show)
    else if name == "web_fetch" then CutLabel("Fetch: ", args, "url", 40, show)
    else if name == "task" then
      if !args.JObj? then Failure(NoAttribute(args, "get")) else TaskLabel(args, show)
    else Success(name)
  }

  /** The label of a `task` call whose arguments are a dict: the agent
      type, or "agent", then the prompt (or description) cut to 30. */
  function TaskLabel(args: Json, show: Json -> string): (r: Py<string>)
    requires args.JObj?
    ensures ErrorOf(r) == ErrorOf(TruncateValue(Field(args, "prompt").GetOr(Field(args, "description").GetOr(JStr(""))), 30))
    ensures StrField(args, "agent_type").Some? && StrField(args, "prompt").Some? ==>
              r == Success(StrField(args, "agent_type").value + ": " + Truncate(StrField(args, "prompt").value, 30))
    ensures Field(args, "agent_type").None? && Field(args, "subagent_type").None? && StrField(args, "prompt").Some? ==>
              r == Success("agent" + ": " + Truncate(StrField(args, "prompt").value, 30))
  {
    var kind := Field(args, "agent_type").GetOr(Field(args, "subagent_type").GetOr(JStr("agent")));
    var prompt := Field(args, "prompt").GetOr(Field(args, "description").GetOr(JStr("")));
    var cut :- TruncateValue(prompt, 30);
    Success(Str(kind, show) + ": " + Str(cut, show))
  }
}
