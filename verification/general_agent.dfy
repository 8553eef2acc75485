/** `GeneralAgent` (`agents/general.py`): at most thirty rounds with every
    registered tool offered. It records the files that `edit_file` and
    `write_file` calls name, refuses to run a `task_update` to "completed"
    before any file was modified or while the modified files fail
    validation, and answers a final reply with a STOP message while they
    fail it. The validator of modified files is a parameter
    (`Validator`), and so is the role part of the system prompt. */
module GeneralAgent {
  import opened Wrappers
  import opened OrderedMaps
  import opened Text
  import opened Json
  import opened PyValues
  import opened Wire
  import opened ToolRegistry
  import opened AgentBase

  const MaxTurns: nat := 30

  /** What `validate_modified_files(files)` gives back. */
  datatype Validation = Validation(allValid: bool, errors: seq<string>)

  /** When a validation happens: in round `round`, after `answered` of that
      round's tool calls have been run. The files are read as they stand at
      that moment, so an edit made between two checks can change the
      verdict on the same set of paths. */
  datatype Moment = Moment(round: nat, answered: nat)

  type Validator = (Moment, set<string>) -> Validation

  /** The system prompt: the base rules, a blank line, the role text, a
      blank line, and the working directory line. */
  function SystemPrompt(role: string, cwd: string): (r: string)
    ensures StartsWith(r, BaseAgentRules + "\n\n" + role)
    ensures EndsWith(r, CwdLabel + cwd + "\n")
  {
    var head := BaseAgentRules + "\n\n" + role;
    var tail := CwdLabel + cwd + "\n";
    assert (head + ("\n\n" + tail))[..|head|] == head;
    assert (head + "\n\n" + tail)[|head + "\n\n"|..] == tail;
    head + "\n\n" + tail
  }

  const CwdLabel: string := "Current working directory: "

  // ---- the texts the agent writes itself ----

  const RefusalHead: string := "Error: Cannot mark task complete - "

  const NoFilesText: string :=
    RefusalHead + "no files have been modified. Use Edit or Write tools to make changes first."

  const SyntaxHead: string := RefusalHead + "files have syntax errors that must be fixed first:\n\n"

  const SyntaxTail: string := "\n\nFix the errors and try again."

  const StopHead: string := "STOP - You have syntax errors in your modified files that must be fixed:\n\n"

  const StopTail: string := "\n\nFix these errors before finishing."

  /** The tool answer to a refused completion while files fail validation. */
  function SyntaxErrorsText(errors: seq<string>): string {
    SyntaxHead + Join(errors, "\n\n") + SyntaxTail
  }

  /** The user message appended to a final reply while files fail validation. */
  function StopText(errors: seq<string>): string {
    StopHead + Join(errors, "\n\n") + StopTail
  }

  // ---- one tool call ----

  const BashCut: nat := 30
  const GrepCut: nat := 20

  /** An `edit_file` or `write_file` call: the calls whose path is recorded. */
  predicate IsModifying(name: string) {
    name == "edit_file" || name == "write_file"
  }

  /** The path an `edit_file` or `write_file` call names, when it is a
      non-empty string. */
  function ModifiedPath(call: ToolCall): (r: Option<string>)
    ensures r.Some? <==> IsModifying(call.name)
                         && StrField(call.arguments, "file_path").Some? && StrField(call.arguments, "file_path").value != ""
    ensures r.Some? ==> r.value != "" && r == StrField(call.arguments, "file_path")
  {
    if !IsModifying(call.name) then None
    else match StrField(call.arguments, "file_path")
      case Some(p) => if p != "" then Some(p) else None
      case None => None
  }

  /** The exception a call raises before it is answered, in the order the
      loop meets them: the status label, then `files_modified.add` of a
      truthy path of an `edit_file` or `write_file` call (lists and dicts
      are unhashable), then `arguments.get("status")` of a `task_update`
      call. */
  function CallError(call: ToolCall): Option<string> {
    match LabelError(call.name, call.arguments, BashCut, GrepCut)
    case Some(e) => Some(e)
    case None =>
      if IsModifying(call.name) then
        var p := Arg(call.arguments, "file_path");
        if p.Success? && IsTrue(p.value) then HashError(p.value) else None
      else if call.name == "task_update" && !call.arguments.JObj? then Some(NoAttribute(call.arguments, "get"))
      else None
  }

  /** Which calls raise, and what: the label's exception first; a call
      whose label reads no argument raises nothing unless it is a
      `task_update`, which raises exactly when its arguments are not a
      dict. */
  lemma CallErrorCases(call: ToolCall)
    ensures LabelError(call.name, call.arguments, BashCut, GrepCut).Some? ==>
              CallError(call) == LabelError(call.name, call.arguments, BashCut, GrepCut)
    ensures !ReadsArgument(call.name) && call.name != "task_update" ==> CallError(call).None?
    ensures call.name == "task_update" ==> (CallError(call).Some? <==> !call.arguments.JObj?)
    ensures call.name == "task_update" && !call.arguments.JObj? ==> CallError(call) == Some(NoAttribute(call.arguments, "get"))
  {
  }

  /** An `edit_file` or `write_file` call with a text path raises nothing;
      a non-empty list path without a "/" element gets past the label and
      is unhashable. */
  lemma PathErrorCases(call: ToolCall)
    ensures IsModifying(call.name) && TextArg(call.arguments, "file_path") ==> CallError(call).None?
    ensures IsModifying(call.name) && call.arguments.JObj? && Field(call.arguments, "file_path").Some?
            && Field(call.arguments, "file_path").value.JArr?
            && |Field(call.arguments, "file_path").value.items| > 0 && JStr("/") !in Field(call.arguments, "file_path").value.items ==>
              CallError(call) == Some("unhashable type: 'list'")
  {
    if IsModifying(call.name) && TextArg(call.arguments, "file_path") {
      TextPathPasses(call);
    }
    if IsModifying(call.name) && call.arguments.JObj? && Field(call.arguments, "file_path").Some?
       && Field(call.arguments, "file_path").value.JArr?
       && |Field(call.arguments, "file_path").value.items| > 0 && JStr("/") !in Field(call.arguments, "file_path").value.items {
      ListPathUnhashable(call, Field(call.arguments, "file_path").value);
    }
  }

  lemma TextPathPasses(call: ToolCall)
    requires IsModifying(call.name) && TextArg(call.arguments, "file_path")
    ensures CallError(call).None?
  {
    var p := ArgText(call.arguments, "file_path");
    TextArgReads(call.arguments, "file_path");
    assert LabelError(call.name, call.arguments, BashCut, GrepCut) == ErrorOf(ArgSegment(call.arguments, "file_path"));
    assert ArgSegment(call.arguments, "file_path") == Success(JStr(AfterLast(p, '/')));
    assert HashError(JStr(p)).None?;
  }

  lemma ListPathUnhashable(call: ToolCall, v: Json)
    requires IsModifying(call.name) && call.arguments.JObj? && Field(call.arguments, "file_path") == Some(v)
    requires v.JArr? && |v.items| > 0 && JStr("/") !in v.items
    ensures CallError(call) == Some("unhashable type: 'list'")
  {
    assert Arg(call.arguments, "file_path") == Success(v);
    assert LastSegment(v) == Success(v);
    assert LabelError(call.name, call.arguments, BashCut, GrepCut) == ErrorOf(ArgSegment(call.arguments, "file_path"));
    assert LabelError(call.name, call.arguments, BashCut, GrepCut).None?;
    assert IsTrue(v) && TypeName(v) == "list";
    assert CallError(call) == HashError(v);
    assert "unhashable type: '" + "list" + "'" == "unhashable type: 'list'";
  }

  function Fails(): ToolCall -> Option<string> {
    c => CallError(c)
  }

  /** For a call that does not raise, `files_modified.add(file_path)`
      happens exactly when `ModifiedPath` names a path, and adds that
      string: a truthy path that survives the status label and the `add`
      is a string. */
  lemma TrackedPath(call: ToolCall)
    requires CallError(call).None? && IsModifying(call.name)
    ensures Arg(call.arguments, "file_path").Success?
    ensures ModifiedPath(call).Some? <==> IsTrue(Arg(call.arguments, "file_path").value)
    ensures ModifiedPath(call).Some? ==> Arg(call.arguments, "file_path").value == JStr(ModifiedPath(call).value)
  {
  }

  /** `files_modified.add(file_path)` for a call that names one. */
  function Track(files: set<string>, call: ToolCall): (r: set<string>)
    ensures ModifiedPath(call).Some? ==> r == files + {ModifiedPath(call).value}
    ensures ModifiedPath(call).None? ==> r == files
  {
    match ModifiedPath(call)
    case Some(p) => files + {p}
    case None => files
  }

  /** A `task_update` call whose `status` argument is "completed". */
  predicate IsCompletion(call: ToolCall) {
    call.name == "task_update" && StrField(call.arguments, "status") == Some("completed")
  }

  /** What one call gets back, given the files recorded so far (this
      call's own path included): a completion is intercepted while no file
      was modified or the modified files fail validation; everything else
      goes to the registry. */
  function Answer(env: AgentEnv, validate: Validator, at: Moment, files: set<string>, call: ToolCall): (r: string)
    ensures !IsCompletion(call) ==> r == Exec(env, call)
    ensures IsCompletion(call) && files == {} ==> r == NoFilesText
    ensures IsCompletion(call) && files != {} && !validate(at, files).allValid ==>
              r == SyntaxErrorsText(validate(at, files).errors)
    ensures IsCompletion(call) && files != {} && validate(at, files).allValid ==> r == Exec(env, call)
  {
    if IsCompletion(call) && files == {} then NoFilesText
    else if IsCompletion(call) && !validate(at, files).allValid then SyntaxErrorsText(validate(at, files).errors)
    else Exec(env, call)
  }

  /** An intercepted completion runs nothing: its answer is the same
      whatever the registry and its handlers are, and it is an error text. */
  lemma InterceptedCompletionRunsNothing(env1: AgentEnv, env2: AgentEnv, validate: Validator, at: Moment,
                                         files: set<string>, call: ToolCall)
    requires IsCompletion(call)
    requires files == {} || !validate(at, files).allValid
    ensures Answer(env1, validate, at, files, call) == Answer(env2, validate, at, files, call)
    ensures StartsWith(Answer(env1, validate, at, files, call), RefusalHead)
  {
    if files == {} {
      assert NoFilesText[..|RefusalHead|] == RefusalHead;
    } else {
      var e := Join(validate(at, files).errors, "\n\n");
      assert (SyntaxHead + e + SyntaxTail)[..|RefusalHead|] == RefusalHead;
    }
  }

  /** How a call is answered, given when it is answered and the files
      recorded so far. */
  type Responder = (Moment, set<string>, ToolCall) -> string

  /** The general agent's responder. */
  function Responds(env: AgentEnv, validate: Validator): Responder {
    (at: Moment, files: set<string>, call: ToolCall) => Answer(env, validate, at, files, call)
  }

  /** What handling a reply's calls gives: the files recorded afterwards,
      one tool message per call answered, and the exception of the call
      that raised, if one did. */
  datatype Handled = Handled(files: set<string>, messages: seq<Message>, raised: Option<string>)

  /** One of the first `n` calls names path `p` as modified. */
  predicate NamedBy(calls: seq<ToolCall>, n: nat, p: string)
    requires n <= |calls|
  {
    exists j :: 0 <= j < n && ModifiedPath(calls[j]) == Some(p)
  }

  /** The `for tool_call in response.tool_calls` loop of round `turn`,
      with `done` of its calls already run: each call first records its
      path, then gets its answer with the files recorded up to and
      including itself. A call that raises ends the loop before it records
      or gets anything. */
  function HandleCalls(answer: Responder, turn: nat, done: nat, files: set<string>, calls: seq<ToolCall>): (r: Handled)
    decreases |calls|
    ensures |r.messages| <= |calls|
  {
    if |calls| == 0 then Handled(files, [], None)
    else if CallError(calls[0]).Some? then Handled(files, [], CallError(calls[0]))
    else
      var f1 := Track(files, calls[0]);
      var rest := HandleCalls(answer, turn, done + 1, f1, calls[1..]);
      Handled(rest.files, [ResultMessage(calls[0], answer(Moment(turn, done), f1, calls[0]))] + rest.messages, rest.raised)
  }

  /** The calls before the first raising one are answered, each by a
      message carrying its id, and the handling raises what that call
      raises. */
  lemma {:induction false} HandledShape(answer: Responder, turn: nat, done: nat, files: set<string>, calls: seq<ToolCall>)
    decreases |calls|
    ensures var r := HandleCalls(answer, turn, done, files, calls);
            && |r.messages| == FirstRaising(calls, Fails())
            && (forall j :: 0 <= j < |r.messages| ==> Answers(r.messages[j], calls[j]))
            && r.raised == if |r.messages| < |calls| then CallError(calls[|r.messages|]) else None
  {
    if |calls| > 0 && CallError(calls[0]).None? {
      var f1 := Track(files, calls[0]);
      HandledShape(answer, turn, done + 1, f1, calls[1..]);
      var rest := HandleCalls(answer, turn, done + 1, f1, calls[1..]);
      assert |rest.messages| < |calls| - 1 ==> calls[1..][|rest.messages|] == calls[1 + |rest.messages|];
    }
  }

  /** The files recorded after a reply's calls: those recorded before, and
      every path the calls answered name. */
  lemma {:induction false} HandledFiles(answer: Responder, turn: nat, done: nat, files: set<string>, calls: seq<ToolCall>)
    decreases |calls|
    ensures var h := HandleCalls(answer, turn, done, files, calls);
            forall p :: p in h.files <==> p in files || NamedBy(calls, |h.messages|, p)
  {
    if |calls| > 0 && CallError(calls[0]).None? {
      var f1 := Track(files, calls[0]);
      HandledFiles(answer, turn, done + 1, f1, calls[1..]);
      SeenShift(files, calls, f1, |HandleCalls(answer, turn, done + 1, f1, calls[1..]).messages|);
    }
  }

  /** The files recorded after the first `n` calls have been tracked. */
  function TrackAll(files: set<string>, calls: seq<ToolCall>, n: nat): set<string>
    requires n <= |calls|
    decreases n
  {
    if n == 0 then files else TrackAll(Track(files, calls[0]), calls[1..], n - 1)
  }

  /** Tracking `n` calls records the files recorded before and those the
      calls name. */
  lemma {:induction false} TrackAllNamed(files: set<string>, calls: seq<ToolCall>, n: nat)
    requires n <= |calls|
    decreases n
    ensures forall p :: p in TrackAll(files, calls, n) <==> p in files || NamedBy(calls, n, p)
  {
    if n > 0 {
      var f1 := Track(files, calls[0]);
      TrackAllNamed(f1, calls[1..], n - 1);
      SeenShift(files, calls, f1, n - 1);
    }
  }

  /** The answer call `j` gets when it runs `done + j`-th in round
      `turn`, after the calls up to and including itself were tracked. */
  function AnswerAt(answer: Responder, turn: nat, done: nat, files: set<string>, calls: seq<ToolCall>, j: nat): Message
    requires j < |calls|
  {
    ResultMessage(calls[j], answer(Moment(turn, done + j), TrackAll(files, calls, j + 1), calls[j]))
  }

  /** Call `j` before the first raising one is answered with the files
      tracked up to and including itself. */
  lemma {:induction false} HandledAt(answer: Responder, turn: nat, done: nat, files: set<string>,
                                     calls: seq<ToolCall>, j: nat)
    requires j < FirstRaising(calls, Fails())
    decreases j
    ensures var h := HandleCalls(answer, turn, done, files, calls);
            j < |h.messages| && h.messages[j] == AnswerAt(answer, turn, done, files, calls, j)
  {
    HandledShape(answer, turn, done, files, calls);
    if j > 0 {
      var f1 := Track(files, calls[0]);
      assert FirstRaising(calls, Fails()) == 1 + FirstRaising(calls[1..], Fails());
      HandledAt(answer, turn, done + 1, f1, calls[1..], j - 1);
      HandledTail(answer, turn, done, files, calls, j);
      AnswerAtShift(answer, turn, done, files, calls, j);
    }
  }

  /** Call `j > 0` gets the answer the tail's call `j - 1` gets. */
  lemma AnswerAtShift(answer: Responder, turn: nat, done: nat, files: set<string>, calls: seq<ToolCall>, j: nat)
    requires 0 < j < |calls|
    ensures AnswerAt(answer, turn, done, files, calls, j)
            == AnswerAt(answer, turn, done + 1, Track(files, calls[0]), calls[1..], j - 1)
  {
    assert calls[1..][j - 1] == calls[j];
    assert TrackAll(files, calls, j + 1) == TrackAll(Track(files, calls[0]), calls[1..], j);
  }

  /** The answer of call `j` in a reply is the one it gets after the `j`
      calls before it have run, with `seen`: the files recorded before the
      reply plus those named by calls `0..j`, itself included. */
  lemma HandledAnswer(answer: Responder, turn: nat, done: nat, files: set<string>,
                      calls: seq<ToolCall>, j: nat, seen: set<string>)
    requires j < FirstRaising(calls, Fails())
    requires forall p :: p in seen <==> p in files || NamedBy(calls, j + 1, p)
    ensures var h := HandleCalls(answer, turn, done, files, calls);
            j < |h.messages| && h.messages[j] == ResultMessage(calls[j], answer(Moment(turn, done + j), seen, calls[j]))
  {
    HandledAt(answer, turn, done, files, calls, j);
    TrackAllNamed(files, calls, j + 1);
    assert seen == TrackAll(files, calls, j + 1);
    assert AnswerAt(answer, turn, done, files, calls, j) == ResultMessage(calls[j], answer(Moment(turn, done + j), seen, calls[j]));
  }

  lemma HandledTail(answer: Responder, turn: nat, done: nat, files: set<string>, calls: seq<ToolCall>, j: nat)
    requires 0 < j < FirstRaising(calls, Fails())
    ensures var h := HandleCalls(answer, turn, done, files, calls);
            var t := HandleCalls(answer, turn, done + 1, Track(files, calls[0]), calls[1..]);
            j < |h.messages| && j - 1 < |t.messages| && h.messages[j] == t.messages[j - 1]
  {
    HandledShape(answer, turn, done, files, calls);
  }

  /** Shifting by one call: what was named before call `j` of `calls`
      equals what the tail named before its call `j - 1`, from `f1`. */
  lemma SeenShift(files: set<string>, calls: seq<ToolCall>, f1: set<string>, j: nat)
    requires j < |calls| && f1 == Track(files, calls[0])
    ensures forall p :: p in f1 || NamedBy(calls[1..], j, p) <==> p in files || NamedBy(calls, j + 1, p)
  {
    forall p | NamedBy(calls[1..], j, p)
      ensures NamedBy(calls, j + 1, p)
    {
      var i :| 0 <= i < j && ModifiedPath(calls[1..][i]) == Some(p);
      assert ModifiedPath(calls[i + 1]) == Some(p);
    }
    forall p | NamedBy(calls, j + 1, p)
      ensures p in f1 || NamedBy(calls[1..], j, p)
    {
      var i :| 0 <= i < j + 1 && ModifiedPath(calls[i]) == Some(p);
      if i > 0 {
        assert ModifiedPath(calls[1..][i - 1]) == Some(p);
      }
    }
    forall p | p in f1
      ensures p in files || NamedBy(calls, j + 1, p)
    {
      if ModifiedPath(calls[0]) == Some(p) {
        assert NamedBy(calls, j + 1, p);
      }
    }
  }

  // ---- the round loop ----

  /** The loop's final messages, collected outputs, modified files, model
      calls made and how it stopped. */
  datatype GeneralEnd = GeneralEnd(messages: seq<Message>, output: seq<string>, files: set<string>,
                                   calls: nat, stop: Stop)

  /** A reply of round `turn` that does not end the loop by itself: it has
      tool calls, or it has none while modified files fail validation. */
  predicate Continues(validate: Validator, turn: nat, files: set<string>, reply: Message) {
    |Calls(reply)| > 0 || (files != {} && !validate(Moment(turn, 0), files).allValid)
  }

  /** The exception the first raising call of a reply raises, if any. */
  function Raises(reply: Message): (r: Option<string>)
    ensures r.None? <==> FirstRaising(Calls(reply), Fails()) == |Calls(reply)|
  {
    var i := FirstRaising(Calls(reply), Fails());
    if i < |Calls(reply)| then CallError(Calls(reply)[i]) else None
  }

  /** A round that does not end by itself: the reply is appended, then its
      calls' answers (recording the files they name) up to a raising call,
      or else the STOP message. */
  function Next(validate: Validator, answer: Responder, turn: nat, msgs: seq<Message>, files: set<string>,
                reply: Message): (r: (seq<Message>, set<string>, Option<string>))
    ensures msgs + [reply] <= r.0 && files <= r.1
  {
    if |Calls(reply)| == 0 then (msgs + [reply] + [UserMessage(StopText(validate(Moment(turn, 0), files).errors))], files, None)
    else
      var h := HandleCalls(answer, turn, 0, files, Calls(reply));
      HandledFiles(answer, turn, 0, files, Calls(reply));
      (msgs + [reply] + h.messages, h.files, h.raised)
  }

  /** The round raises exactly what the reply's first raising call raises. */
  lemma NextRaises(validate: Validator, answer: Responder, turn: nat, msgs: seq<Message>, files: set<string>,
                   reply: Message)
    ensures Next(validate, answer, turn, msgs, files, reply).2 == Raises(reply)
  {
    HandledShape(answer, turn, 0, files, Calls(reply));
  }

  /** The loop's last message is a reply without calls, made by a model
      call after which the modified files are none or pass validation. */
  predicate EndsOnReply(validate: Validator, r: GeneralEnd) {
    |r.messages| > 0 && |Calls(r.messages[|r.messages| - 1])| == 0
    && r.calls > 0 && (r.files == {} || validate(Moment(r.calls - 1, 0), r.files).allValid)
  }

  /** The `for turn in range(max_turns)` loop from round `turn`, with
      `tools` offered on every model call. A reply without calls ends the
      loop unless modified files fail validation; then a STOP message is
      appended and the next round starts. A raising call ends the loop. */
  function Rounds(chat: seq<Message> -> ChatOutcome, cancelled: nat -> bool, validate: Validator, answer: Responder,
                  msgs: seq<Message>, out: seq<string>, files: set<string>, turn: nat): (r: GeneralEnd)
    requires turn <= MaxTurns
    decreases MaxTurns - turn
    ensures turn <= r.calls <= MaxTurns
    ensures msgs <= r.messages && out <= r.output && files <= r.files
    ensures r.stop == Cancelled ==> r.calls < MaxTurns && cancelled(r.calls)
    ensures r.stop == Exhausted ==> r.calls == MaxTurns
    ensures r.stop == Replied ==> |r.messages| > |msgs| && EndsOnReply(validate, r)
  {
    if turn == MaxTurns then GeneralEnd(msgs, out, files, turn, Exhausted)
    else if cancelled(turn) then GeneralEnd(msgs, out, files, turn, Cancelled)
    else match chat(msgs)
      case ChatFailed(e) => GeneralEnd(msgs, out, files, turn + 1, ChatRaised(e))
      case Got(reply) =>
        if Continues(validate, turn, files, reply) then
          var n := Next(validate, answer, turn, msgs, files, reply);
          if n.2.Some? then GeneralEnd(n.0, Collect(out, reply), n.1, turn + 1, CallRaised(n.2.value))
          else
            Rounds(chat, cancelled, validate, answer, n.0, Collect(out, reply), n.1, turn + 1)
        else
          var m := msgs + [reply];
          assert m[|m| - 1] == reply;
          GeneralEnd(m, Collect(out, reply), files, turn + 1, Replied)
  }

  /** The strings of `xs` from index `k` on are non-empty. */
  predicate NonEmptyFrom(xs: seq<string>, k: nat) {
    forall i :: k <= i < |xs| ==> xs[i] != ""
  }

  /** Round `turn` is played and the loop goes on to the next round. */
  predicate GoesOn(chat: seq<Message> -> ChatOutcome, cancelled: nat -> bool, validate: Validator,
                   msgs: seq<Message>, files: set<string>, turn: nat) {
    turn < MaxTurns && !cancelled(turn) && chat(msgs).Got? && Continues(validate, turn, files, chat(msgs).reply)
    && Raises(chat(msgs).reply).None?
  }

  /** A round that goes on: the loop continues from the next round. */
  lemma RoundsGoesOn(chat: seq<Message> -> ChatOutcome, cancelled: nat -> bool, validate: Validator,
                     answer: Responder, msgs: seq<Message>, out: seq<string>, files: set<string>, turn: nat)
    requires GoesOn(chat, cancelled, validate, msgs, files, turn)
    ensures var reply := chat(msgs).reply;
            var n := Next(validate, answer, turn, msgs, files, reply);
            Rounds(chat, cancelled, validate, answer, msgs, out, files, turn)
              == Rounds(chat, cancelled, validate, answer, n.0, Collect(out, reply), n.1, turn + 1)
  {
    NextRaises(validate, answer, turn, msgs, files, chat(msgs).reply);
  }

  /** A round that ends the loop appends at most the reply and the answers
      of the calls before a raising one, and collects at most the reply's
      content. */
  lemma RoundsEnds(chat: seq<Message> -> ChatOutcome, cancelled: nat -> bool, validate: Validator,
                   answer: Responder, msgs: seq<Message>, out: seq<string>, files: set<string>, turn: nat)
    requires turn <= MaxTurns
    requires !GoesOn(chat, cancelled, validate, msgs, files, turn)
    ensures var r := Rounds(chat, cancelled, validate, answer, msgs, out, files, turn);
            if turn < MaxTurns && !cancelled(turn) && chat(msgs).Got?
            then var reply := chat(msgs).reply;
                 r.calls == turn + 1 && r.output == Collect(out, reply)
                 && if |Calls(reply)| > 0
                    then r.messages == Next(validate, answer, turn, msgs, files, reply).0
                         && Raises(reply).Some? && r.stop == CallRaised(Raises(reply).value)
                    else r.messages == msgs + [reply] && r.stop == Replied
            else r.calls == (if turn < MaxTurns && !cancelled(turn) then turn + 1 else turn)
                 && r.messages == msgs && r.output == out && !r.stop.CallRaised?
                 && (r.stop.ChatRaised? ==> r.calls == turn + 1 && chat(msgs) == ChatFailed(r.stop.error))
  {
    if turn < MaxTurns && !cancelled(turn) && chat(msgs).Got? {
      NextRaises(validate, answer, turn, msgs, files, chat(msgs).reply);
    }
  }

  /** No round the loop played was cancelled: cancellation is looked at
      only at the top of a round, and stops the loop there. */
  lemma {:induction false} RoundsUncancelled(chat: seq<Message> -> ChatOutcome, cancelled: nat -> bool,
                                             validate: Validator, answer: Responder, msgs: seq<Message>,
                                             out: seq<string>, files: set<string>, turn: nat)
    requires turn <= MaxTurns
    decreases MaxTurns - turn
    ensures var r := Rounds(chat, cancelled, validate, answer, msgs, out, files, turn);
            forall t :: turn <= t < r.calls ==> !cancelled(t)
  {
    var r := Rounds(chat, cancelled, validate, answer, msgs, out, files, turn);
    if GoesOn(chat, cancelled, validate, msgs, files, turn) {
      var reply := chat(msgs).reply;
      var n := Next(validate, answer, turn, msgs, files, reply);
      RoundsGoesOn(chat, cancelled, validate, answer, msgs, out, files, turn);
      RoundsUncancelled(chat, cancelled, validate, answer, n.0, Collect(out, reply), n.1, turn + 1);
      UncancelledFrom(cancelled, turn, r.calls);
    } else {
      RoundsEnds(chat, cancelled, validate, answer, msgs, out, files, turn);
      UncancelledFrom(cancelled, turn, r.calls);
    }
  }

  /** Rounds `turn` to `calls` are uncancelled when round `turn` is and
      the rounds after it are. */
  lemma UncancelledFrom(cancelled: nat -> bool, turn: nat, calls: nat)
    requires calls > turn ==> !cancelled(turn)
    requires forall t :: turn + 1 <= t < calls ==> !cancelled(t)
    ensures forall t :: turn <= t < calls ==> !cancelled(t)
  {
  }

  /** The loop stops on a model error only when the model call failed on
      the final transcript, and on a call's exception only after a model
      call that added messages. */
  lemma {:induction false} RoundsRaised(chat: seq<Message> -> ChatOutcome, cancelled: nat -> bool, validate: Validator,
                                        answer: Responder, msgs: seq<Message>, out: seq<string>, files: set<string>,
                                        turn: nat)
    requires turn <= MaxTurns
    decreases MaxTurns - turn
    ensures var r := Rounds(chat, cancelled, validate, answer, msgs, out, files, turn);
            && (r.stop.ChatRaised? ==> r.calls > turn && chat(r.messages) == ChatFailed(r.stop.error))
            && (r.stop.CallRaised? ==> r.calls > turn && |r.messages| > |msgs|)
  {
    var r := Rounds(chat, cancelled, validate, answer, msgs, out, files, turn);
    if GoesOn(chat, cancelled, validate, msgs, files, turn) {
      var reply := chat(msgs).reply;
      var n := Next(validate, answer, turn, msgs, files, reply);
      RoundsGoesOn(chat, cancelled, validate, answer, msgs, out, files, turn);
      RoundsRaised(chat, cancelled, validate, answer, n.0, Collect(out, reply), n.1, turn + 1);
      RaisedFrom(chat, msgs, n.0, turn, r);
    } else {
      RaisedEnds(chat, cancelled, validate, answer, msgs, out, files, turn);
    }
  }

  /** The raise facts for a round that ends the loop. */
  lemma RaisedEnds(chat: seq<Message> -> ChatOutcome, cancelled: nat -> bool, validate: Validator,
                   answer: Responder, msgs: seq<Message>, out: seq<string>, files: set<string>, turn: nat)
    requires turn <= MaxTurns
    requires !GoesOn(chat, cancelled, validate, msgs, files, turn)
    ensures var r := Rounds(chat, cancelled, validate, answer, msgs, out, files, turn);
            && (r.stop.ChatRaised? ==> r.calls > turn && chat(r.messages) == ChatFailed(r.stop.error))
            && (r.stop.CallRaised? ==> r.calls > turn && |r.messages| > |msgs|)
  {
    RoundsEnds(chat, cancelled, validate, answer, msgs, out, files, turn);
  }

  /** The raise facts of the loop from the next round, on a longer
      transcript, carry back to this round. */
  lemma RaisedFrom(chat: seq<Message> -> ChatOutcome, msgs: seq<Message>, next: seq<Message>, turn: nat, r: GeneralEnd)
    requires |msgs| < |next|
    requires r.stop.ChatRaised? ==> r.calls > turn + 1 && chat(r.messages) == ChatFailed(r.stop.error)
    requires r.stop.CallRaised? ==> r.calls > turn + 1 && |r.messages| > |next|
    ensures r.stop.ChatRaised? ==> r.calls > turn && chat(r.messages) == ChatFailed(r.stop.error)
    ensures r.stop.CallRaised? ==> r.calls > turn && |r.messages| > |msgs|
  {
  }

  /** A final reply while the modified files fail validation gets the STOP
      message. When the next reply is final too and the same files, fixed in
      between, now pass, the loop ends there with that reply. */
  lemma StopThenFinish(chat: seq<Message> -> ChatOutcome, cancelled: nat -> bool, validate: Validator,
                       answer: Responder, msgs: seq<Message>, out: seq<string>, files: set<string>, turn: nat)
    requires turn + 1 < MaxTurns && !cancelled(turn) && !cancelled(turn + 1)
    requires chat(msgs).Got? && |Calls(chat(msgs).reply)| == 0
    requires files != {} && !validate(Moment(turn, 0), files).allValid
    requires var m1 := msgs + [chat(msgs).reply] + [UserMessage(StopText(validate(Moment(turn, 0), files).errors))];
             chat(m1).Got? && |Calls(chat(m1).reply)| == 0 && validate(Moment(turn + 1, 0), files).allValid
    ensures var m1 := msgs + [chat(msgs).reply] + [UserMessage(StopText(validate(Moment(turn, 0), files).errors))];
            var r := Rounds(chat, cancelled, validate, answer, msgs, out, files, turn);
            r.stop == Replied && r.calls == turn + 2 && r.messages == m1 + [chat(m1).reply]
  {
    RoundsGoesOn(chat, cancelled, validate, answer, msgs, out, files, turn);
  }

  /** Every output the loop collects is a non-empty reply content. */
  lemma {:induction false} RoundsOutput(chat: seq<Message> -> ChatOutcome, cancelled: nat -> bool, validate: Validator,
                                        answer: Responder, msgs: seq<Message>, out: seq<string>, files: set<string>,
                                        turn: nat)
    requires turn <= MaxTurns
    decreases MaxTurns - turn
    ensures NonEmptyFrom(Rounds(chat, cancelled, validate, answer, msgs, out, files, turn).output, |out|)
  {
    if GoesOn(chat, cancelled, validate, msgs, files, turn) {
      var reply := chat(msgs).reply;
      var n := Next(validate, answer, turn, msgs, files, reply);
      RoundsOutput(chat, cancelled, validate, answer, n.0, Collect(out, reply), n.1, turn + 1);
      OutputGoesOn(chat, cancelled, validate, answer, msgs, out, files, turn);
    } else {
      OutputEnds(chat, cancelled, validate, answer, msgs, out, files, turn);
    }
  }

  lemma OutputGoesOn(chat: seq<Message> -> ChatOutcome, cancelled: nat -> bool, validate: Validator,
                     answer: Responder, msgs: seq<Message>, out: seq<string>, files: set<string>, turn: nat)
    requires GoesOn(chat, cancelled, validate, msgs, files, turn)
    requires var reply := chat(msgs).reply;
             var n := Next(validate, answer, turn, msgs, files, reply);
             NonEmptyFrom(Rounds(chat, cancelled, validate, answer, n.0, Collect(out, reply), n.1, turn + 1).output,
                          |Collect(out, reply)|)
    ensures NonEmptyFrom(Rounds(chat, cancelled, validate, answer, msgs, out, files, turn).output, |out|)
  {
    var reply := chat(msgs).reply;
    var n := Next(validate, answer, turn, msgs, files, reply);
    RoundsGoesOn(chat, cancelled, validate, answer, msgs, out, files, turn);
    OutputStep(out, Collect(out, reply), Rounds(chat, cancelled, validate, answer, n.0, Collect(out, reply), n.1, turn + 1).output);
  }

  lemma OutputEnds(chat: seq<Message> -> ChatOutcome, cancelled: nat -> bool, validate: Validator,
                   answer: Responder, msgs: seq<Message>, out: seq<string>, files: set<string>, turn: nat)
    requires turn <= MaxTurns
    requires !GoesOn(chat, cancelled, validate, msgs, files, turn)
    ensures NonEmptyFrom(Rounds(chat, cancelled, validate, answer, msgs, out, files, turn).output, |out|)
  {
    RoundsEnds(chat, cancelled, validate, answer, msgs, out, files, turn);
    if turn < MaxTurns && !cancelled(turn) && chat(msgs).Got? {
      OutputStep(out, Collect(out, chat(msgs).reply), Collect(out, chat(msgs).reply));
    }
  }

  /** Non-empty new outputs across a step that collected at most one. */
  lemma OutputStep(out: seq<string>, out1: seq<string>, all: seq<string>)
    requires out1 == out || (|out1| == |out| + 1 && out <= out1 && out1[|out|] != "")
    requires out1 <= all
    requires NonEmptyFrom(all, |out1|)
    ensures NonEmptyFrom(all, |out|)
  {
    if out1 != out {
      assert all[|out|] == out1[|out|];
    }
  }

  /** The shape of what the loop appends: a reply with calls is followed
      by one answering tool message per call, in call order, and only the
      last reply may stop at a raising call; a reply without calls is
      last, or is followed by a user message. */
  predicate Blocks(ms: seq<Message>)
    decreases |ms|
  {
    if |ms| == 0 then true
    else if |Calls(ms[0])| == 0 then
      |ms| == 1 || (ms[1].role == User && Blocks(ms[2..]))
    else
      var cs := Calls(ms[0]);
      var i := FirstRaising(cs, Fails());
      if i < |cs| then |ms| == 1 + i && forall j :: 0 <= j < i ==> Answers(ms[1 + j], cs[j])
      else
        1 + |cs| <= |ms|
        && (forall j :: 0 <= j < |cs| ==> Answers(ms[1 + j], cs[j]))
        && Blocks(ms[1 + |cs|..])
  }

  /** The exception of the call that cut the last block short, if one did. */
  function Cut(ms: seq<Message>): Option<string>
    decreases |ms|
  {
    if |ms| == 0 then None
    else if |Calls(ms[0])| == 0 then (if |ms| >= 2 then Cut(ms[2..]) else None)
    else
      var cs := Calls(ms[0]);
      var i := FirstRaising(cs, Fails());
      if i < |cs| then CallError(cs[i])
      else if 1 + |cs| <= |ms| then Cut(ms[1 + |cs|..])
      else None
  }

  lemma BlocksCons(reply: Message, answers: seq<Message>, rest: seq<Message>)
    requires |answers| == |Calls(reply)| > 0 && Raises(reply).None?
    requires forall j :: 0 <= j < |answers| ==> Answers(answers[j], Calls(reply)[j])
    requires Blocks(rest)
    ensures Blocks([reply] + answers + rest)
    ensures Cut([reply] + answers + rest) == Cut(rest)
  {
    var ms := [reply] + answers + rest;
    assert ms[0] == reply;
    assert forall j :: 0 <= j < |answers| ==> ms[1 + j] == answers[j];
    assert ms[1 + |answers|..] == rest;
  }

  /** A reply cut short by a raising call, with the answers of the calls
      before it, is a last block carrying that call's exception. */
  lemma BlocksRaised(reply: Message, answers: seq<Message>)
    requires |Calls(reply)| > 0 && Raises(reply).Some?
    requires |answers| == FirstRaising(Calls(reply), Fails())
    requires forall j :: 0 <= j < |answers| ==> Answers(answers[j], Calls(reply)[j])
    ensures Blocks([reply] + answers)
    ensures Cut([reply] + answers) == Raises(reply)
  {
    var ms := [reply] + answers;
    assert ms[0] == reply;
    assert forall j :: 0 <= j < |answers| ==> ms[1 + j] == answers[j];
  }

  lemma BlocksStop(reply: Message, stop: Message, rest: seq<Message>)
    requires |Calls(reply)| == 0 && stop.role == User
    requires Blocks(rest)
    ensures Blocks([reply] + [stop] + rest)
    ensures Cut([reply] + [stop] + rest) == Cut(rest)
  {
    var ms := [reply] + [stop] + rest;
    assert ms[0] == reply && ms[1] == stop;
    assert ms[2..] == rest;
  }

  /** What the loop appends after `msgs` has the block shape, and its last
      block is cut short exactly when a call raised, by that call's
      exception. */
  predicate Shaped(msgs: seq<Message>, r: GeneralEnd)
    requires msgs <= r.messages
  {
    Blocks(r.messages[|msgs|..]) && Cut(r.messages[|msgs|..]) == if r.stop.CallRaised? then Some(r.stop.error) else None
  }

  /** Everything the loop appends has the block shape. */
  lemma {:induction false} RoundsBlocks(chat: seq<Message> -> ChatOutcome, cancelled: nat -> bool, validate: Validator,
                                        answer: Responder, msgs: seq<Message>, out: seq<string>, files: set<string>,
                                        turn: nat)
    requires turn <= MaxTurns
    decreases MaxTurns - turn
    ensures Shaped(msgs, Rounds(chat, cancelled, validate, answer, msgs, out, files, turn))
  {
    if GoesOn(chat, cancelled, validate, msgs, files, turn) {
      var reply := chat(msgs).reply;
      var n := Next(validate, answer, turn, msgs, files, reply);
      RoundsBlocks(chat, cancelled, validate, answer, n.0, Collect(out, reply), n.1, turn + 1);
      BlocksGoesOn(chat, cancelled, validate, answer, msgs, out, files, turn);
    } else {
      BlocksEnds(chat, cancelled, validate, answer, msgs, out, files, turn);
    }
  }

  lemma BlocksGoesOn(chat: seq<Message> -> ChatOutcome, cancelled: nat -> bool, validate: Validator,
                     answer: Responder, msgs: seq<Message>, out: seq<string>, files: set<string>, turn: nat)
    requires GoesOn(chat, cancelled, validate, msgs, files, turn)
    requires var reply := chat(msgs).reply;
             var n := Next(validate, answer, turn, msgs, files, reply);
             Shaped(n.0, Rounds(chat, cancelled, validate, answer, n.0, Collect(out, reply), n.1, turn + 1))
    ensures Shaped(msgs, Rounds(chat, cancelled, validate, answer, msgs, out, files, turn))
  {
    var reply := chat(msgs).reply;
    var n := Next(validate, answer, turn, msgs, files, reply);
    RoundsGoesOn(chat, cancelled, validate, answer, msgs, out, files, turn);
    BlocksStep(validate, answer, turn, msgs, files, reply,
               Rounds(chat, cancelled, validate, answer, n.0, Collect(out, reply), n.1, turn + 1).messages);
  }

  lemma BlocksEnds(chat: seq<Message> -> ChatOutcome, cancelled: nat -> bool, validate: Validator,
                   answer: Responder, msgs: seq<Message>, out: seq<string>, files: set<string>, turn: nat)
    requires turn <= MaxTurns
    requires !GoesOn(chat, cancelled, validate, msgs, files, turn)
    ensures Shaped(msgs, Rounds(chat, cancelled, validate, answer, msgs, out, files, turn))
  {
    RoundsEnds(chat, cancelled, validate, answer, msgs, out, files, turn);
    var r := Rounds(chat, cancelled, validate, answer, msgs, out, files, turn);
    if turn < MaxTurns && !cancelled(turn) && chat(msgs).Got? {
      var reply := chat(msgs).reply;
      if |Calls(reply)| > 0 {
        RaisedShaped(validate, answer, turn, msgs, files, reply, r);
      } else {
        assert r.messages[|msgs|..] == [reply];
      }
    } else {
      assert r.messages[|msgs|..] == [];
    }
  }

  /** A round whose call raised appends a last block cut at that call. */
  lemma RaisedShaped(validate: Validator, answer: Responder, turn: nat, msgs: seq<Message>, files: set<string>,
                     reply: Message, r: GeneralEnd)
    requires |Calls(reply)| > 0 && Raises(reply).Some?
    requires r.messages == Next(validate, answer, turn, msgs, files, reply).0 && r.stop == CallRaised(Raises(reply).value)
    ensures msgs <= r.messages && Shaped(msgs, r)
  {
    var h := HandleCalls(answer, turn, 0, files, Calls(reply));
    HandledShape(answer, turn, 0, files, Calls(reply));
    NextWithCalls(validate, answer, turn, msgs, files, reply);
    BlocksRaised(reply, h.messages);
    ShapedBy(msgs, reply, h.messages, r);
  }

  /** A round on a reply with calls appends the reply and the calls' answers. */
  lemma NextWithCalls(validate: Validator, answer: Responder, turn: nat, msgs: seq<Message>, files: set<string>,
                      reply: Message)
    requires |Calls(reply)| > 0
    ensures Next(validate, answer, turn, msgs, files, reply).0
            == msgs + [reply] + HandleCalls(answer, turn, 0, files, Calls(reply)).messages
  {
  }

  /** Messages that add one shaped block to `msgs` are shaped after it. */
  lemma ShapedBy(msgs: seq<Message>, reply: Message, rest: seq<Message>, r: GeneralEnd)
    requires r.messages == msgs + [reply] + rest && Blocks([reply] + rest)
    requires Cut([reply] + rest) == if r.stop.CallRaised? then Some(r.stop.error) else None
    ensures msgs <= r.messages && Shaped(msgs, r)
  {
    assert r.messages[|msgs|..] == [reply] + rest;
  }

  /** One round that goes on keeps the block shape of what follows it, and
      where it was cut. */
  lemma BlocksStep(validate: Validator, answer: Responder, turn: nat, msgs: seq<Message>, files: set<string>,
                   reply: Message, all: seq<Message>)
    requires Continues(validate, turn, files, reply) && Raises(reply).None?
    requires Next(validate, answer, turn, msgs, files, reply).0 <= all
    requires Blocks(all[|Next(validate, answer, turn, msgs, files, reply).0|..])
    ensures Blocks(all[|msgs|..])
    ensures Cut(all[|msgs|..]) == Cut(all[|Next(validate, answer, turn, msgs, files, reply).0|..])
  {
    var n := Next(validate, answer, turn, msgs, files, reply).0;
    var added := n[|msgs| + 1..];
    assert n == msgs + [reply] + added;
    AppendedSplit(msgs, reply, added, all);
    if |Calls(reply)| == 0 {
      BlocksStop(reply, added[0], all[|n|..]);
    } else {
      HandledShape(answer, turn, 0, files, Calls(reply));
      BlocksCons(reply, added, all[|n|..]);
    }
  }

  // ---- a run ----

  /** What a run gives back: the outcome, the messages it built, the model
      calls it made, the files it recorded, and the agent afterwards. */
  datatype GeneralRun = GeneralRun(outcome: RunOutcome, transcript: seq<Message>, modelCalls: nat,
                                   files: set<string>, agent: Agent)

  /** The check at the top of round `t`: the agent's own flag, or the
      cancel callback. */
  function CancelCheck(agent: Agent, env: AgentEnv): (r: nat -> bool)
    ensures forall t :: r(t) <==> agent.cancelled || env.cancelled(t)
  {
    (t: nat) => agent.cancelled || env.cancelled(t)
  }

  /** The model with every registered tool's schema offered. */
  function ChatAll(env: AgentEnv): seq<Message> -> ChatOutcome {
    ms => env.chat(ms, Some(GetSchemas(env.reg)))
  }

  /** The loop of a run, from the opening messages, no output and no
      modified files. */
  function RunLoop(env: AgentEnv, validate: Validator, agent: Agent, opening: seq<Message>): GeneralEnd {
    Rounds(ChatAll(env), CancelCheck(agent, env), validate, Responds(env, validate), opening, [], {}, 0)
  }

  /** The result for how the loop stopped and what it collected. */
  function Outcome(stop: Stop, agentId: string, output: seq<string>): (r: RunOutcome)
    requires NonEmptyFrom(output, 0)
    ensures r.Crashed? <==> stop.ChatRaised? || stop.CallRaised?
    ensures r.Crashed? ==> r.error == stop.error
    ensures r.Finished? ==> r.result.agentId == agentId && r.result.agentType == General
    ensures r.Finished? && !r.result.success ==>
              stop == Cancelled && r.result.error == Some("Agent cancelled") && r.result.output == Join(output, "\n")
    ensures r.Finished? && r.result.success ==>
              stop != Cancelled && r.result.error.None? && r.result.output != ""
              && r.result.output == if |output| > 0 then Join(output, "\n") else "Task complete."
  {
    match stop
    case Cancelled => Finished(FailedResult(agentId, General, Join(output, "\n"), "Agent cancelled"))
    case ChatRaised(e) => Crashed(e)
    case CallRaised(e) => Crashed(e)
    case _ =>
      var text := if |output| > 0 then Join(output, "\n") else "Task complete.";
      assert text != "" by {
        if |output| > 0 {
          assert |Join(output, "\n")| >= |output[0]|;
        }
      }
      Finished(NewResult(agentId, General, true, text))
  }

  /** `GeneralAgent.run`. */
  function Run(env: AgentEnv, validate: Validator, agent: Agent, role: string, cwd: string,
               prompt: string, context: OMap<string>): (r: GeneralRun)
    ensures r.modelCalls <= MaxTurns
    ensures Opening(SystemPrompt(role, cwd), prompt, context) <= r.transcript
    ensures r.agent.agentId == agent.agentId
    ensures r.agent.cancelled <==> agent.cancelled || (r.outcome.Finished? && !r.outcome.result.success)
    ensures agent.cancelled ==> r.modelCalls == 0 && r.outcome.Finished? && !r.outcome.result.success
    ensures forall t :: 0 <= t < r.modelCalls ==> !env.cancelled(t)
    ensures r.outcome.Finished? ==> r.outcome.result.agentId == agent.agentId && r.outcome.result.agentType == General
    ensures r.outcome.Finished? && !r.outcome.result.success ==>
              r.modelCalls < MaxTurns && (agent.cancelled || env.cancelled(r.modelCalls))
              && r.outcome.result.error == Some("Agent cancelled")
    ensures r.outcome.Finished? && r.outcome.result.success ==>
              r.outcome.result.error.None? && r.outcome.result.output != ""
    ensures r.outcome.Crashed? ==> 0 < r.modelCalls
    ensures var added := r.transcript[|Opening(SystemPrompt(role, cwd), prompt, context)|..];
            Blocks(added) && (Cut(added).Some? ==> r.outcome == Crashed(Cut(added).value))
    ensures var added := r.transcript[|Opening(SystemPrompt(role, cwd), prompt, context)|..];
            r.outcome.Crashed? && Cut(added).None? ==>
              env.chat(r.transcript, Some(GetSchemas(env.reg))) == ChatFailed(r.outcome.error)
  {
    var opening := Opening(SystemPrompt(role, cwd), prompt, context);
    var chat, cancelled, answer := ChatAll(env), CancelCheck(agent, env), Responds(env, validate);
    var l := Rounds(chat, cancelled, validate, answer, opening, [], {}, 0);
    RoundsOutput(chat, cancelled, validate, answer, opening, [], {}, 0);
    RoundsBlocks(chat, cancelled, validate, answer, opening, [], {}, 0);
    RoundsRaised(chat, cancelled, validate, answer, opening, [], {}, 0);
    RoundsUncancelled(chat, cancelled, validate, answer, opening, [], {}, 0);
    GeneralRun(Outcome(l.stop, agent.agentId, l.output), l.messages, l.calls, l.files,
               if l.stop == Cancelled then Cancel(agent) else agent)
  }

  /** A run that uses all thirty rounds still reports success, even when its
      modified files fail validation: the STOP message of the last round
      is never answered. */
  lemma ExhaustedStillSucceeds(env: AgentEnv, validate: Validator, agent: Agent, role: string, cwd: string,
                               prompt: string, context: OMap<string>)
    requires RunLoop(env, validate, agent, Opening(SystemPrompt(role, cwd), prompt, context)).stop == Exhausted
    ensures var r := Run(env, validate, agent, role, cwd, prompt, context);
            r.modelCalls == MaxTurns && r.outcome.Finished? && r.outcome.result.success
  {
  }

  /** The status label of a call (`_format_tool_status`): bash commands cut
      to 30 characters, grep patterns to 20. */
  function StatusLabel(call: ToolCall, show: Json -> string): (r: Py<string>)
    ensures r.Failure? ==> CallError(call) == Some(r.error)
    ensures call.name == "bash" && TextArg(call.arguments, "command") ==>
              var cmd := ArgText(call.arguments, "command");
              r.Success? && |r.value| <= 5 + 30 + 3 + 1
              && (|cmd| <= 30 ==> r.value == "Bash(" + cmd + ")")
              && (|cmd| > 30 ==> r.value == "Bash(" + cmd[..30] + "...)")
    ensures call.name == "grep" && TextArg(call.arguments, "pattern") ==>
              r == Success("Grep(" + Take(ArgText(call.arguments, "pattern"), 20) + ")")
  {
    ToolLabel(call.name, call.arguments, BashCut, GrepCut, show)
  }
}
